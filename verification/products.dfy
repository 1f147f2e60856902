/** The catalogue service's pure logic: the three default variants created
    with a product, and the mapping of stored rows to `Product` values. The
    database calls are oracle arguments. */
module Products {
  import opened Options
  import Printful

  /** The fields supplied when creating a product; `price` in cents. */
  datatype NewProduct = NewProduct(
    title: string, artist: string, description: string, year: string,
    price: int, image: string, productType: string)

  /** A `product_variants` row as inserted at creation. */
  datatype VariantRow = VariantRow(productId: string, variantId: int, size: string, price: int)

  /** Price offsets (cents) of the small and large variants from the base
      price: canvas is 10 dollars below and 20 above, every other type 5 below
      and 10 above. */
  function SmallOffset(productType: string): int {
    if productType == "canvas" then 1000 else 500
  }

  function LargeOffset(productType: string): int {
    if productType == "canvas" then 2000 else 1000
  }

  /** The default variants inserted by `createProduct`. */
  function DefaultVariants(productId: string, p: NewProduct): (vs: seq<VariantRow>)
    ensures |vs| == 3
    ensures vs[0].size == "small" && vs[1].size == "medium" && vs[2].size == "large"
    ensures forall i :: 0 <= i < |vs| ==> vs[i].productId == productId
    ensures forall i :: 0 <= i < |vs| ==> vs[i].variantId == Printful.GetVariantId(p.productType, vs[i].size)
    ensures vs[1].price == p.price
    ensures p.productType == "canvas" ==> vs[0].price == p.price - 1000 && vs[2].price == p.price + 2000
    ensures p.productType != "canvas" ==> vs[0].price == p.price - 500 && vs[2].price == p.price + 1000
    ensures vs[0].price < vs[1].price < vs[2].price
  {
    [ VariantRow(productId, Printful.GetVariantId(p.productType, "small"), "small", p.price - SmallOffset(p.productType)),
      VariantRow(productId, Printful.GetVariantId(p.productType, "medium"), "medium", p.price),
      VariantRow(productId, Printful.GetVariantId(p.productType, "large"), "large", p.price + LargeOffset(p.productType)) ]
  }

  /** For a type the provider table knows, the three variants carry three
      distinct provider ids, each decoding back to (type, size). */
  lemma DefaultVariantIdsDecode(productId: string, p: NewProduct)
    requires Printful.KnownType(p.productType)
    ensures var vs := DefaultVariants(productId, p);
      forall i :: 0 <= i < |vs| ==> Printful.VariantKey(vs[i].variantId) == Some((p.productType, vs[i].size))
    ensures var vs := DefaultVariants(productId, p);
      vs[0].variantId != vs[1].variantId && vs[1].variantId != vs[2].variantId && vs[0].variantId != vs[2].variantId
  {
    var vs := DefaultVariants(productId, p);
    forall i | 0 <= i < |vs|
      ensures Printful.VariantKey(vs[i].variantId) == Some((p.productType, vs[i].size))
    {
      Printful.VariantKeyRoundTrip(p.productType, vs[i].size, 0);
    }
  }

  /** For a type the table does not know, all three variants silently get the
      medium-canvas id. */
  lemma UnknownTypeVariantsCollapse(productId: string, p: NewProduct)
    requires !Printful.KnownType(p.productType)
    ensures forall v :: v in DefaultVariants(productId, p) ==> v.variantId == Printful.DefaultVariantId
  {
  }

  /** A database write `createProduct` issues. */
  datatype StoreCall =
    | InsertProduct(product: NewProduct)
    | InsertVariants(rows: seq<VariantRow>)

  datatype CreateResult = CreateResult(productId: Option<string>, calls: seq<StoreCall>)

  /** `createProduct`: insert the product; on success insert its default
      variants; report the new id only if both inserts succeeded. */
  function CreateProduct(p: NewProduct, inserted: Option<string>, variantsInserted: bool): (r: CreateResult)
    ensures |r.calls| >= 1 && r.calls[0] == InsertProduct(p)
    ensures inserted == None ==> r == CreateResult(None, [InsertProduct(p)])
    ensures inserted != None ==> r.calls == [InsertProduct(p), InsertVariants(DefaultVariants(inserted.value, p))]
    ensures r.productId != None <==> (inserted != None && variantsInserted)
    ensures r.productId != None ==> r.productId == inserted
  {
    match inserted
    case None => CreateResult(None, [InsertProduct(p)])
    case Some(id) =>
      CreateResult(if variantsInserted then Some(id) else None,
                   [InsertProduct(p), InsertVariants(DefaultVariants(id, p))])
  }

  /** Whenever `createProduct` reports an id, its second write inserted the
      three default variants, and every one of them points at that id. */
  lemma {:induction false} CreatedVariantsBelongToProduct(p: NewProduct, inserted: Option<string>, variantsInserted: bool)
    ensures var r := CreateProduct(p, inserted, variantsInserted);
      r.productId != None ==>
        |r.calls| == 2 && r.calls[1].InsertVariants? && |r.calls[1].rows| == 3
        && forall v :: v in r.calls[1].rows ==> v.productId == r.productId.value
  {
    var r := CreateProduct(p, inserted, variantsInserted);
    if r.productId != None {
      var vs := DefaultVariants(inserted.value, p);
      assert r.calls[1] == InsertVariants(vs);
      forall v | v in vs
        ensures v.productId == inserted.value
      {
        var i :| 0 <= i < |vs| && vs[i] == v;
      }
    }
  }

  /** A variant as read back, and as exposed to the application (the read
      only renames `product_id`/`variant_id`, so one type serves both). */
  datatype ProductVariant = ProductVariant(id: string, productId: string, variantId: int, size: string, price: int)

  /** A `products` row with its joined variants; nullable columns are options. */
  datatype ProductRecord = ProductRecord(
    id: string, title: string, artist: string, description: Option<string>, year: Option<string>,
    price: int, image: string, productType: string, variants: Option<seq<ProductVariant>>, createdAt: string)

  datatype Product = Product(
    id: string, title: string, artist: string, description: string, year: string,
    price: int, image: string, productType: string, variants: seq<ProductVariant>, createdAt: string)

  /** The row-to-`Product` mapping of `fetchProducts` and `getProductById`:
      null description, year and variant list become empty. */
  function ToProduct(row: ProductRecord): (p: Product)
    ensures p.description == (if row.description == None then "" else row.description.value)
    ensures p.year == (if row.year == None then "" else row.year.value)
    ensures p.variants == (if row.variants == None then [] else row.variants.value)
    ensures p.id == row.id && p.title == row.title && p.artist == row.artist && p.price == row.price
    ensures p.image == row.image && p.productType == row.productType && p.createdAt == row.createdAt
  {
    Product(row.id, row.title, row.artist, row.description.GetOr(""), row.year.GetOr(""),
            row.price, row.image, row.productType, row.variants.GetOr([]), row.createdAt)
  }

  /** The row a product would be stored as, with every nullable column set. */
  function ToRecord(p: Product): ProductRecord {
    ProductRecord(p.id, p.title, p.artist, Some(p.description), Some(p.year),
                  p.price, p.image, p.productType, Some(p.variants), p.createdAt)
  }

  /** Reading back a stored product gives it unchanged; and a row survives
      the round trip exactly when none of its nullable columns is null. */
  lemma RowMappingRoundTrip(p: Product, row: ProductRecord)
    ensures ToProduct(ToRecord(p)) == p
    ensures ToRecord(ToProduct(row)) == row <==>
      (row.description != None && row.year != None && row.variants != None)
  {
  }

  /** `fetchProducts`: map every row, or an empty list when the query failed. */
  function FetchProducts(rows: Option<seq<ProductRecord>>): (ps: seq<Product>)
    ensures rows == None ==> ps == []
    ensures rows != None ==> |ps| == |rows.value|
    ensures rows != None ==> forall i :: 0 <= i < |ps| ==> ps[i] == ToProduct(rows.value[i])
  {
    match rows
    case None => []
    case Some(rs) => MapRows(rs)
  }

  function MapRows(rs: seq<ProductRecord>): (ps: seq<Product>)
    ensures |ps| == |rs|
    ensures forall i :: 0 <= i < |rs| ==> ps[i] == ToProduct(rs[i])
  {
    if |rs| == 0 then [] else [ToProduct(rs[0])] + MapRows(rs[1..])
  }

  /** `getProductById`: the mapped row, or nothing when the query failed. */
  function GetProductById(row: Option<ProductRecord>): (p: Option<Product>)
    ensures p != None <==> row != None
    ensures row != None ==> p == Some(ToProduct(row.value))
    ensures row != None && row.value.description != None && row.value.year != None && row.value.variants != None
      ==> ToRecord(p.value) == row.value
  {
    match row
    case None => None
    case Some(r) => Some(ToProduct(r))
  }
}
