/** The pure part of the fulfilment-provider client: the variant table, the
    per-type retail price, and the request bodies sent for an order and for a
    catalogue product. The HTTP requests themselves are not modelled. */
module Printful {
  import opened Options

  /** Variant used when a (type, size) pair has no table entry: medium canvas. */
  const DefaultVariantId: int := 1232

  predicate KnownType(productType: string) {
    productType in {"canvas", "framed-print", "poster", "t-shirt"}
  }

  predicate KnownSize(size: string) {
    size in {"small", "medium", "large"}
  }

  /** One row of the variant table: the entry for `size`, if any. */
  function SizeEntry(small: int, medium: int, large: int, size: string): Option<int> {
    if size == "small" then Some(small)
    else if size == "medium" then Some(medium)
    else if size == "large" then Some(large)
    else None
  }

  /** The nested lookup `variantMap[productType]?.[size]`. */
  function VariantTable(productType: string, size: string): Option<int> {
    if productType == "canvas" then SizeEntry(1231, 1232, 1233, size)
    else if productType == "framed-print" then SizeEntry(2231, 2232, 2233, size)
    else if productType == "poster" then SizeEntry(3231, 3232, 3233, size)
    else if productType == "t-shirt" then SizeEntry(4231, 4232, 4233, size)
    else None
  }

  /** Provider variant id for a product type and size; a missing entry, or a
      falsy (zero) one, falls back to `DefaultVariantId`. */
  function GetVariantId(productType: string, size: string): (id: int)
    ensures productType == "canvas" && size == "small" ==> id == 1231
    ensures productType == "canvas" && size == "medium" ==> id == 1232
    ensures productType == "canvas" && size == "large" ==> id == 1233
    ensures productType == "framed-print" && size == "small" ==> id == 2231
    ensures productType == "framed-print" && size == "medium" ==> id == 2232
    ensures productType == "framed-print" && size == "large" ==> id == 2233
    ensures productType == "poster" && size == "small" ==> id == 3231
    ensures productType == "poster" && size == "medium" ==> id == 3232
    ensures productType == "poster" && size == "large" ==> id == 3233
    ensures productType == "t-shirt" && size == "small" ==> id == 4231
    ensures productType == "t-shirt" && size == "medium" ==> id == 4232
    ensures productType == "t-shirt" && size == "large" ==> id == 4233
    ensures !(KnownType(productType) && KnownSize(size)) ==> id == DefaultVariantId
    ensures id > 0
  {
    match VariantTable(productType, size)
    case Some(v) => if v != 0 then v else DefaultVariantId
    case None => DefaultVariantId
  }

  /** `getVariantId(productType)` with the size argument omitted. */
  function GetVariantIdDefaultSize(productType: string): (id: int)
    ensures productType == "canvas" ==> id == 1232
    ensures productType == "framed-print" ==> id == 2232
    ensures productType == "poster" ==> id == 3232
    ensures productType == "t-shirt" ==> id == 4232
    ensures !KnownType(productType) ==> id == DefaultVariantId
  {
    GetVariantId(productType, "medium")
  }

  /** Every entry of the table is non-zero, so the `||` fallback of
      `GetVariantId` fires exactly on a missing entry. */
  lemma TableEntriesNonZero(productType: string, size: string)
    ensures VariantTable(productType, size).Some? <==> KnownType(productType) && KnownSize(size)
    ensures VariantTable(productType, size).Some? ==> VariantTable(productType, size).value != 0
    ensures VariantTable(productType, size).Some? ==> GetVariantId(productType, size) == VariantTable(productType, size).value
  {
  }

  /** Reverse lookup: the (type, size) entry of the table holding `id`. */
  function VariantKey(id: int): Option<(string, string)> {
    match id
    case 1231 => Some(("canvas", "small"))
    case 1232 => Some(("canvas", "medium"))
    case 1233 => Some(("canvas", "large"))
    case 2231 => Some(("framed-print", "small"))
    case 2232 => Some(("framed-print", "medium"))
    case 2233 => Some(("framed-print", "large"))
    case 3231 => Some(("poster", "small"))
    case 3232 => Some(("poster", "medium"))
    case 3233 => Some(("poster", "large"))
    case 4231 => Some(("t-shirt", "small"))
    case 4232 => Some(("t-shirt", "medium"))
    case 4233 => Some(("t-shirt", "large"))
    case _ => None
  }

  /** The table is injective on its twelve entries: the id of a known pair
      decodes back to that pair, and every decodable id is a table value. */
  lemma VariantKeyRoundTrip(productType: string, size: string, id: int)
    ensures KnownType(productType) && KnownSize(size)
      ==> VariantKey(GetVariantId(productType, size)) == Some((productType, size))
    ensures VariantKey(id) == Some((productType, size))
      ==> KnownType(productType) && KnownSize(size) && GetVariantId(productType, size) == id
  {
  }

  /** Distinct known pairs get distinct variant ids. */
  lemma VariantIdsDistinct(t1: string, s1: string, t2: string, s2: string)
    requires KnownType(t1) && KnownSize(s1) && KnownType(t2) && KnownSize(s2)
    requires (t1, s1) != (t2, s2)
    ensures GetVariantId(t1, s1) != GetVariantId(t2, s2)
  {
    VariantKeyRoundTrip(t1, s1, 0);
    VariantKeyRoundTrip(t2, s2, 0);
  }

  /** An unknown pair is silently indistinguishable from medium canvas. */
  lemma UnknownPairAliasesMediumCanvas(productType: string, size: string)
    requires !(KnownType(productType) && KnownSize(size))
    ensures GetVariantId(productType, size) == GetVariantId("canvas", "medium")
    ensures VariantKey(GetVariantId(productType, size)) == Some(("canvas", "medium"))
  {
  }

  /** Retail price per product type, in cents ("89.99" is 8999). */
  function CalculatePrice(productType: string): (cents: nat)
    ensures productType == "canvas" ==> cents == 8999
    ensures productType == "framed-print" ==> cents == 9999
    ensures productType == "poster" ==> cents == 3999
    ensures productType == "t-shirt" ==> cents == 2999
    ensures !KnownType(productType) ==> cents == 4999
  {
    match productType
    case "canvas" => 8999
    case "framed-print" => 9999
    case "poster" => 3999
    case "t-shirt" => 2999
    case _ => 4999
  }

  /** Shipping details as entered at checkout. */
  datatype ShippingInfo = ShippingInfo(
    name: string, address: string, city: string, state: string, country: string, zip: string)

  /** The provider's recipient block. */
  datatype Recipient = Recipient(
    name: string, address1: string, city: string, stateCode: string, countryCode: string, zip: string)

  /** One order line sent to the provider: `{sync_variant_id, quantity}`. */
  datatype OrderItem = OrderItem(syncVariantId: int, quantity: int)

  datatype OrderBody = OrderBody(recipient: Recipient, items: seq<OrderItem>)

  /** The body posted to `/orders`: shipping fields renamed into a recipient,
      items passed through. */
  function BuildOrderBody(items: seq<OrderItem>, info: ShippingInfo): (body: OrderBody)
    ensures body.items == items
    ensures body.recipient.name == info.name && body.recipient.city == info.city
    ensures body.recipient.zip == info.zip
    ensures body.recipient.address1 == info.address
    ensures body.recipient.stateCode == info.state
    ensures body.recipient.countryCode == info.country
  {
    OrderBody(Recipient(info.name, info.address, info.city, info.state, info.country, info.zip), items)
  }

  /** Reads the shipping details back out of a recipient block. */
  function ShippingOf(r: Recipient): ShippingInfo {
    ShippingInfo(r.name, r.address1, r.city, r.stateCode, r.countryCode, r.zip)
  }

  /** The fallback retail price is charged exactly for the types the table
      does not know: no known type happens to cost 49.99. */
  lemma FallbackPriceIffUnknown(productType: string)
    ensures CalculatePrice(productType) == 4999 <==> !KnownType(productType)
  {
  }

  /** The renaming loses nothing: the recipient determines the shipping info,
      so two distinct shipping infos never produce the same body. */
  lemma RecipientRoundTrip(items: seq<OrderItem>, info: ShippingInfo, other: ShippingInfo)
    ensures ShippingOf(BuildOrderBody(items, info).recipient) == info
    ensures BuildOrderBody(items, info) == BuildOrderBody(items, other) ==> info == other
  {
  }

  datatype SyncVariant = SyncVariant(retailPrice: nat, variantId: int, fileUrls: seq<string>)

  /** The body posted to `/store/products`. */
  datatype ProductBody = ProductBody(name: string, thumbnail: string, variants: seq<SyncVariant>)

  /** Catalogue product request: one sync variant priced by product type,
      whose single print file is the artwork image. */
  function BuildProductBody(title: string, image: string, productType: string, variantId: int): (body: ProductBody)
    ensures body.name == title && body.thumbnail == image
    ensures |body.variants| == 1
    ensures body.variants[0].retailPrice == CalculatePrice(productType)
    ensures body.variants[0].variantId == variantId
    ensures body.variants[0].fileUrls == [image]
  {
    ProductBody(title, image, [SyncVariant(CalculatePrice(productType), variantId, [image])])
  }

  /** A sync-product body built from a table id for a known (type, size)
      names that pair's provider variant, at that type's retail price. */
  lemma ProductBodyNamesVariant(title: string, image: string, productType: string, size: string)
    requires KnownType(productType) && KnownSize(size)
    ensures var body := BuildProductBody(title, image, productType, GetVariantId(productType, size));
      VariantKey(body.variants[0].variantId) == Some((productType, size))
      && body.variants[0].retailPrice == CalculatePrice(productType)
  {
    VariantKeyRoundTrip(productType, size, 0);
  }
}
