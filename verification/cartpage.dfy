/** The cart page: its order summary and the per-line quantity controls,
    which the line component reports to the page as the pair (product id,
    new quantity). The page's handler takes a single parameter, so the first
    of the two values, the product id, is what reaches `updateQuantity` as
    the quantity. Both the handler as written and the evidently intended
    one are modelled; only the latter keeps the cart's invariants. */
module CartPage {
  import Cart

  /** Flat shipping charge of the order summary, in cents. */
  const ShippingCents := 1299

  /** The page's subtotal, accumulated from the left the way `reduce` does. */
  function Subtotal(items: seq<Cart.CartItem>): int
    decreases |items|
  {
    if |items| == 0 then 0
    else Subtotal(items[..|items| - 1]) + Cart.LineTotal(items[|items| - 1])
  }

  /** The page's left-to-right subtotal agrees with the store's total. */
  lemma {:induction false} SubtotalMatchesTotal(items: seq<Cart.CartItem>)
    ensures Subtotal(items) == Cart.Total(items)
  {
    if |items| > 0 {
      var init := items[..|items| - 1];
      SubtotalMatchesTotal(init);
      Cart.TotalAppend(init, items[|items| - 1]);
      assert init + [items[|items| - 1]] == items;
    }
  }

  /** The order summary: the subtotal and that plus the flat shipping. */
  function Summary(items: seq<Cart.CartItem>): (r: (int, int))
    ensures r.0 == Cart.Total(items)
    ensures r.1 == Cart.Total(items) + ShippingCents
  {
    SubtotalMatchesTotal(items);
    var subtotal := Subtotal(items);
    (subtotal, subtotal + ShippingCents)
  }

  datatype Control = Decrease | Increase

  /** The minus button is disabled at quantity one or below. */
  predicate Enabled(control: Control, quantity: int) {
    control == Increase || quantity > 1
  }

  /** The quantity a control asks for: one less, never below one, or one more. */
  function Requested(control: Control, quantity: int): (q: int)
    ensures control == Decrease ==> q >= 1 && (quantity > 1 ==> q == quantity - 1)
    ensures control == Decrease && quantity <= 1 ==> q == 1
    ensures control == Increase ==> q == quantity + 1
  {
    match control
    case Decrease => if quantity - 1 > 1 then quantity - 1 else 1
    case Increase => quantity + 1
  }

  /** A press as the page wires it: the handler's single parameter receives
      the line's id, so every line of that product gets the id as quantity. */
  function PressAsWritten(items: seq<Cart.CartItem>, line: Cart.CartItem, control: Control): (r: seq<Cart.CartItem>)
    ensures |r| == |items|
    ensures !Enabled(control, line.quantity) ==> r == items
    ensures Enabled(control, line.quantity) ==>
      forall i :: 0 <= i < |items| && items[i].id == line.id ==>
        Cart.SameButQuantity(r[i], items[i]) && r[i].quantity == line.id
    ensures forall i :: 0 <= i < |items| && items[i].id != line.id ==> r[i] == items[i]
  {
    if !Enabled(control, line.quantity) then items
    else
      var reported := (line.id, Requested(control, line.quantity));
      Cart.UpdateQuantity(items, line.id, reported.0)
  }

  /** Pressing minus on a line of product 7 holding three copies sets the
      quantity to 7 instead of 2; on product 0 it leaves a line of quantity
      zero in the cart. */
  lemma PressAsWrittenCounterexample()
    ensures var line := Cart.CartItem(7, "t", "a", 8999, 3, "i", "canvas", 1232, "medium");
      PressAsWritten([line], line, Decrease)[0].quantity == 7
      && Requested(Decrease, line.quantity) == 2
    ensures var line := Cart.CartItem(0, "t", "a", 8999, 3, "i", "canvas", 1232, "medium");
      Cart.PositiveQuantities([line])
      && !Cart.PositiveQuantities(PressAsWritten([line], line, Decrease))
  {
    var line := Cart.CartItem(0, "t", "a", 8999, 3, "i", "canvas", 1232, "medium");
    assert PressAsWritten([line], line, Decrease)[0].quantity == 0;
  }

  /** A press as evidently intended: the requested quantity reaches every
      line of the product, and nothing else changes. */
  function Press(items: seq<Cart.CartItem>, line: Cart.CartItem, control: Control): (r: seq<Cart.CartItem>)
    ensures |r| == |items|
    ensures !Enabled(control, line.quantity) ==> r == items
    ensures Enabled(control, line.quantity) ==>
      forall i :: 0 <= i < |items| && items[i].id == line.id ==>
        Cart.SameButQuantity(r[i], items[i]) && r[i].quantity == Requested(control, line.quantity)
    ensures forall i :: 0 <= i < |items| && items[i].id != line.id ==> r[i] == items[i]
  {
    if !Enabled(control, line.quantity) then items
    else Cart.UpdateQuantity(items, line.id, Requested(control, line.quantity))
  }

  /** Pressing a control of a line in the cart keeps the keys unique and
      every quantity positive; minus takes exactly one copy off a line
      holding more than one, plus adds exactly one. */
  lemma PressKeepsInvariants(items: seq<Cart.CartItem>, k: nat, control: Control)
    requires k < |items|
    requires Cart.UniqueKeys(items) && Cart.PositiveQuantities(items)
    ensures var r := Press(items, items[k], control);
      Cart.UniqueKeys(r) && Cart.PositiveQuantities(r)
    ensures control == Decrease && items[k].quantity > 1 ==>
      Press(items, items[k], control)[k].quantity == items[k].quantity - 1
    ensures control == Increase ==>
      Press(items, items[k], control)[k].quantity == items[k].quantity + 1
  {
    var line := items[k];
    if Enabled(control, line.quantity) {
      Cart.UpdatePreservesInvariants(items, line.id, Requested(control, line.quantity));
    }
  }
}
