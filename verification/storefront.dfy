/** The artwork detail page's add-to-cart logic: the material and size labels
    shown to the shopper are mapped to a product type and size, which select
    the provider variant; and the quantity selector never goes below one. */
module Storefront {
  import opened Options
  import Printful
  import Cart

  const PaperLabel := "Premium Archival Paper"
  const CanvasLabel := "Canvas"
  const FramedLabel := "Framed Print"

  const SmallLabel := "12\U{D7}16\""
  const MediumLabel := "18\U{D7}24\""
  const LargeLabel := "24\U{D7}36\""

  /** Product type for a material choice; unknown labels become posters. */
  function MaterialType(choice: string): (productType: string)
    ensures choice == PaperLabel ==> productType == "poster"
    ensures choice == CanvasLabel ==> productType == "canvas"
    ensures choice == FramedLabel ==> productType == "framed-print"
    ensures choice !in {PaperLabel, CanvasLabel, FramedLabel} ==> productType == "poster"
    ensures Printful.KnownType(productType)
  {
    if choice == CanvasLabel then "canvas"
    else if choice == FramedLabel then "framed-print"
    else "poster"
  }

  /** Size for a size choice; unknown labels become medium. */
  function SizeOf(choice: string): (size: string)
    ensures choice == SmallLabel ==> size == "small"
    ensures choice == MediumLabel ==> size == "medium"
    ensures choice == LargeLabel ==> size == "large"
    ensures choice !in {SmallLabel, MediumLabel, LargeLabel} ==> size == "medium"
    ensures Printful.KnownSize(size)
  {
    if choice == SmallLabel then "small"
    else if choice == LargeLabel then "large"
    else "medium"
  }

  /** The label the page shows for a product type and for a size. */
  function TypeLabel(productType: string): string {
    if productType == "canvas" then CanvasLabel
    else if productType == "framed-print" then FramedLabel
    else PaperLabel
  }

  function SizeLabel(size: string): string {
    if size == "small" then SmallLabel
    else if size == "large" then LargeLabel
    else MediumLabel
  }

  /** On the offered labels both mappings are invertible, so no two offered
      choices collapse onto one product type or size. */
  lemma OfferedLabelsRoundTrip(material: string, sizeChoice: string)
    ensures material in {PaperLabel, CanvasLabel, FramedLabel} ==> TypeLabel(MaterialType(material)) == material
    ensures sizeChoice in {SmallLabel, MediumLabel, LargeLabel} ==> SizeLabel(SizeOf(sizeChoice)) == sizeChoice
  {
  }

  /** The catalogue fields of an artwork the page adds; `price` in cents. */
  datatype Artwork = Artwork(id: int, title: string, artist: string, image: string, price: int)

  /** The line `handleAddToCart` hands to the cart store. */
  function LineFor(a: Artwork, material: string, sizeLabel: string, quantity: int): (line: Cart.CartItem)
    ensures line.id == a.id && line.title == a.title && line.artist == a.artist
    ensures line.image == a.image && line.price == a.price && line.quantity == quantity
    ensures line.productType == MaterialType(material) && line.size == SizeOf(sizeLabel)
    ensures line.variantId == Printful.GetVariantId(line.productType, line.size)
    // The page only produces table pairs, so the id is never a fallback alias.
    ensures Printful.VariantKey(line.variantId) == Some((line.productType, line.size))
  {
    var productType := MaterialType(material);
    var size := SizeOf(sizeLabel);
    Printful.VariantKeyRoundTrip(productType, size, 0);
    Cart.CartItem(a.id, a.title, a.artist, a.price, quantity, a.image, productType,
                  Printful.GetVariantId(productType, size), size)
  }

  /** Distinct (material, size) choices among the offered labels give distinct
      variant ids. */
  lemma OfferedChoicesDistinct(a: Artwork, m1: string, s1: string, m2: string, s2: string, q: int)
    requires m1 in {PaperLabel, CanvasLabel, FramedLabel} && m2 in {PaperLabel, CanvasLabel, FramedLabel}
    requires s1 in {SmallLabel, MediumLabel, LargeLabel} && s2 in {SmallLabel, MediumLabel, LargeLabel}
    requires (m1, s1) != (m2, s2)
    ensures LineFor(a, m1, s1, q).variantId != LineFor(a, m2, s2, q).variantId
  {
    var l1 := LineFor(a, m1, s1, q);
    var l2 := LineFor(a, m2, s2, q);
    assert (l1.productType, l1.size) != (l2.productType, l2.size);
  }

  /** `handleAddToCart`: add the line for the current selection. */
  function AddFromPage(s: Cart.Session, a: Artwork, material: string, sizeLabel: string, quantity: int): (r: Cart.Step)
    ensures r == Cart.Apply(s, Cart.AddLine(LineFor(a, material, sizeLabel, quantity)))
    ensures Cart.HasKey(r.session.items, LineFor(a, material, sizeLabel, quantity))
    ensures Cart.Mirrored(r.session)
  {
    Cart.Commit(s, Cart.AddToCart(s.items, LineFor(a, material, sizeLabel, quantity)))
  }

  /** The quantity selector's controls. */
  datatype QuantityControl =
    | Minus                        // decrement button
    | Plus                         // increment button
    | Typed(parsed: Option<int>)   // typed text; None when it does not parse

  function Max(a: int, b: int): int {
    if a >= b then a else b
  }

  /** The new quantity after one control; typed zero or unparsable text
      falls back to 1 before the clamp. */
  function Press(q: int, c: QuantityControl): (r: int)
    ensures c == Minus ==> r == Max(1, q - 1)
    ensures c == Plus ==> r == q + 1
    ensures c.Typed? && c.parsed != None && c.parsed.value >= 1 ==> r == c.parsed.value
    ensures c.Typed? && (c.parsed == None || c.parsed.value < 1) ==> r == 1
    ensures c != Plus ==> r >= 1
  {
    match c
    case Minus => Max(1, q - 1)
    case Plus => q + 1
    case Typed(parsed) =>
      var v := match parsed case Some(n) => (if n != 0 then n else 1) case None => 1;
      Max(1, v)
  }

  function PressAll(q: int, cs: seq<QuantityControl>): int
    decreases |cs|
  {
    if |cs| == 0 then q else PressAll(Press(q, cs[0]), cs[1..])
  }

  /** Starting from the initial quantity 1 (or any positive one), no sequence
      of controls takes the quantity below 1. */
  lemma {:induction false} QuantityStaysPositive(q: int, cs: seq<QuantityControl>)
    requires q >= 1
    ensures PressAll(q, cs) >= 1
    decreases |cs|
  {
    if |cs| > 0 {
      QuantityStaysPositive(Press(q, cs[0]), cs[1..]);
    }
  }

  /** Any quantity the page can reach keeps the cart's quantities positive
      when added. */
  lemma PageAddKeepsQuantitiesPositive(s: Cart.Session, a: Artwork, material: string, sizeLabel: string, cs: seq<QuantityControl>)
    requires Cart.PositiveQuantities(s.items)
    ensures Cart.PositiveQuantities(AddFromPage(s, a, material, sizeLabel, PressAll(1, cs)).session.items)
  {
    QuantityStaysPositive(1, cs);
    Cart.AddPreservesPositiveQuantities(s.items, LineFor(a, material, sizeLabel, PressAll(1, cs)));
  }
}
