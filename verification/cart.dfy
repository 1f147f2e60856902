/** The cart store: the list operations over cart lines, the write-through to
    the device-local slot, the start-of-session load, and the checkout
    decision. Every remote round trip (the backend mirror, the fulfilment
    provider) is an oracle argument, and the calls the store would issue are
    returned as a sequence of `RemoteCall`s. */
module Cart {
  import opened Options
  import Printful

  /** One cart line; `price` is in cents. `quantity` is an `int` because the
      store keeps whatever value a caller sets. */
  datatype CartItem = CartItem(
    id: int, title: string, artist: string, price: int, quantity: int,
    image: string, productType: string, variantId: int, size: string)

  /** Two lines are the same cart entry when product, type and size agree. */
  predicate SameKey(a: CartItem, b: CartItem) {
    a.id == b.id && a.productType == b.productType && a.size == b.size
  }

  predicate HasKey(items: seq<CartItem>, item: CartItem) {
    exists i :: 0 <= i < |items| && SameKey(items[i], item)
  }

  /** The store's invariant: no two lines share a key. */
  predicate UniqueKeys(items: seq<CartItem>) {
    forall i, j :: 0 <= i < j < |items| ==> !SameKey(items[i], items[j])
  }

  /** Lines `a` and `b` carry the same key and the same non-quantity fields. */
  predicate SameButQuantity(a: CartItem, b: CartItem) {
    a.(quantity := 0) == b.(quantity := 0)
  }

  // ---------------------------------------------------------------------
  // List operations

  /** The merge branch of `addToCart`: every line with the item's key gets the
      item's quantity added. */
  function MergeQuantity(items: seq<CartItem>, item: CartItem): (r: seq<CartItem>)
    ensures |r| == |items|
    ensures forall i :: 0 <= i < |items| && SameKey(items[i], item) ==>
      SameButQuantity(r[i], items[i]) && r[i].quantity == items[i].quantity + item.quantity
    ensures forall i :: 0 <= i < |items| && !SameKey(items[i], item) ==> r[i] == items[i]
  {
    if |items| == 0 then []
    else
      var head := if SameKey(items[0], item) then items[0].(quantity := items[0].quantity + item.quantity) else items[0];
      [head] + MergeQuantity(items[1..], item)
  }

  /** `addToCart`: merge into the line with the same key, or append. */
  function AddToCart(items: seq<CartItem>, item: CartItem): (r: seq<CartItem>)
    ensures HasKey(items, item) ==> |r| == |items|
    ensures HasKey(items, item) ==> forall i :: 0 <= i < |items| && SameKey(items[i], item) ==>
      SameButQuantity(r[i], items[i]) && r[i].quantity == items[i].quantity + item.quantity
    ensures HasKey(items, item) ==> forall i :: 0 <= i < |items| && !SameKey(items[i], item) ==> r[i] == items[i]
    ensures !HasKey(items, item) ==> |r| == |items| + 1 && r[..|items|] == items && r[|items|] == item
    ensures HasKey(r, item)
  {
    if HasKey(items, item) then MergeQuantity(items, item) else items + [item]
  }

  /** `removeFromCart`: drop every line of the product, whatever its type or size. */
  function RemoveFromCart(items: seq<CartItem>, id: int): (r: seq<CartItem>)
    ensures forall x :: x in r <==> x in items && x.id != id
    ensures |r| <= |items|
  {
    if |items| == 0 then []
    else (if items[0].id != id then [items[0]] else []) + RemoveFromCart(items[1..], id)
  }

  /** `updateQuantity`: every line of the product gets exactly `quantity`, unclamped. */
  function UpdateQuantity(items: seq<CartItem>, id: int, quantity: int): (r: seq<CartItem>)
    ensures |r| == |items|
    ensures forall i :: 0 <= i < |items| && items[i].id == id ==>
      SameButQuantity(r[i], items[i]) && r[i].quantity == quantity
    ensures forall i :: 0 <= i < |items| && items[i].id != id ==> r[i] == items[i]
  {
    if |items| == 0 then []
    else
      var head := if items[0].id == id then items[0].(quantity := quantity) else items[0];
      [head] + UpdateQuantity(items[1..], id, quantity)
  }

  function LineTotal(line: CartItem): int {
    line.price * line.quantity
  }

  /** `calculateTotal`: the sum of price times quantity over the lines; the
      empty cart totals zero and a single line totals its price times
      quantity. */
  function Total(items: seq<CartItem>): (t: int)
    ensures |items| == 0 ==> t == 0
    ensures |items| == 1 ==> t == items[0].price * items[0].quantity
  {
    if |items| == 0 then 0 else LineTotal(items[0]) + Total(items[1..])
  }

  lemma {:induction false} TotalConcat(a: seq<CartItem>, b: seq<CartItem>)
    ensures Total(a + b) == Total(a) + Total(b)
  {
    if |a| == 0 {
      assert a + b == b;
    } else {
      assert (a + b)[1..] == a[1..] + b;
      TotalConcat(a[1..], b);
    }
  }

  /** A cart of non-negative prices and quantities never totals below zero. */
  lemma {:induction false} TotalNonNegative(items: seq<CartItem>)
    requires forall i :: 0 <= i < |items| ==> items[i].price >= 0 && items[i].quantity >= 0
    ensures Total(items) >= 0
  {
    if |items| > 0 {
      assert LineTotal(items[0]) >= 0;
      TotalNonNegative(items[1..]);
    }
  }

  /** The empty cart totals zero, and appending a line adds its price times
      quantity. */
  lemma TotalAppend(items: seq<CartItem>, line: CartItem)
    ensures Total([]) == 0
    ensures Total(items + [line]) == Total(items) + line.price * line.quantity
  {
    TotalConcat(items, [line]);
  }

  /** Sum of the prices of the lines sharing `item`'s key. */
  function KeyedPrice(items: seq<CartItem>, item: CartItem): int {
    if |items| == 0 then 0
    else (if SameKey(items[0], item) then items[0].price else 0) + KeyedPrice(items[1..], item)
  }

  lemma {:induction false} MergeTotal(items: seq<CartItem>, item: CartItem)
    ensures Total(MergeQuantity(items, item)) == Total(items) + KeyedPrice(items, item) * item.quantity
  {
    if |items| > 0 {
      var r := MergeQuantity(items, item);
      assert r[1..] == MergeQuantity(items[1..], item);
      MergeTotal(items[1..], item);
      if SameKey(items[0], item) {
        assert r[0] == items[0].(quantity := items[0].quantity + item.quantity);
        LineTotalGrows(items[0], item.quantity);
      }
      assert Total(r) == LineTotal(r[0]) + Total(r[1..]);
    }
  }

  /** Raising a line's quantity by `extra` raises its total by price times `extra`. */
  lemma LineTotalGrows(line: CartItem, extra: int)
    ensures LineTotal(line.(quantity := line.quantity + extra)) == LineTotal(line) + line.price * extra
  {
    var p, q := line.price, line.quantity;
    assert p * (q + extra) == p * q + p * extra;
  }

  lemma {:induction false} KeyedPriceNoMatch(items: seq<CartItem>, item: CartItem)
    requires !HasKey(items, item)
    ensures KeyedPrice(items, item) == 0
  {
    if |items| > 0 {
      assert !HasKey(items[1..], item) by {
        forall i | 0 <= i < |items[1..]| ensures !SameKey(items[1..][i], item) {
          assert items[1..][i] == items[i + 1];
        }
      }
      KeyedPriceNoMatch(items[1..], item);
    }
  }

  /** With unique keys, exactly one line's price contributes. */
  lemma {:induction false} KeyedPriceUnique(items: seq<CartItem>, item: CartItem, k: nat)
    requires UniqueKeys(items)
    requires k < |items| && SameKey(items[k], item)
    ensures KeyedPrice(items, item) == items[k].price
  {
    if k == 0 {
      assert !HasKey(items[1..], item) by {
        forall i | 0 <= i < |items[1..]| ensures !SameKey(items[1..][i], item) {
          assert items[1..][i] == items[i + 1];
          assert !SameKey(items[0], items[i + 1]);
        }
      }
      KeyedPriceNoMatch(items[1..], item);
    } else {
      assert !SameKey(items[0], item) by {
        assert !SameKey(items[0], items[k]);
      }
      assert UniqueKeys(items[1..]) by {
        forall i, j | 0 <= i < j < |items[1..]| ensures !SameKey(items[1..][i], items[1..][j]) {
          assert items[1..][i] == items[i + 1] && items[1..][j] == items[j + 1];
        }
      }
      assert items[1..][k - 1] == items[k];
      KeyedPriceUnique(items[1..], item, k - 1);
    }
  }

  /** An appended line raises the total by its own price times quantity. */
  lemma AddNewLineTotal(items: seq<CartItem>, item: CartItem)
    requires !HasKey(items, item)
    ensures Total(AddToCart(items, item)) == Total(items) + item.price * item.quantity
  {
    TotalAppend(items, item);
  }

  /** A merge raises the total by the existing line's price times the added
      quantity (the added item's own price is ignored). */
  lemma AddMergedLineTotal(items: seq<CartItem>, item: CartItem, k: nat)
    requires UniqueKeys(items)
    requires k < |items| && SameKey(items[k], item)
    ensures Total(AddToCart(items, item)) == Total(items) + items[k].price * item.quantity
  {
    assert HasKey(items, item);
    MergeTotal(items, item);
    KeyedPriceUnique(items, item, k);
  }

  /** `addToCart` keeps keys unique. */
  lemma AddPreservesUniqueKeys(items: seq<CartItem>, item: CartItem)
    requires UniqueKeys(items)
    ensures UniqueKeys(AddToCart(items, item))
  {
    var r := AddToCart(items, item);
    if HasKey(items, item) {
      forall i, j | 0 <= i < j < |r| ensures !SameKey(r[i], r[j]) {
        assert SameKey(r[i], items[i]) && SameKey(r[j], items[j]);
      }
    } else {
      forall i, j | 0 <= i < j < |r| ensures !SameKey(r[i], r[j]) {
        if j == |items| {
          assert r[i] == items[i];
        } else {
          assert r[i] == items[i] && r[j] == items[j];
        }
      }
    }
  }

  /** With unique keys a merge touches exactly one line. */
  lemma AddMergesOneLine(items: seq<CartItem>, item: CartItem, k: nat)
    requires UniqueKeys(items)
    requires k < |items| && SameKey(items[k], item)
    ensures |AddToCart(items, item)| == |items|
    ensures AddToCart(items, item)[k] == items[k].(quantity := items[k].quantity + item.quantity)
    ensures forall j :: 0 <= j < |items| && j != k ==> AddToCart(items, item)[j] == items[j]
  {
    var r := AddToCart(items, item);
    assert HasKey(items, item);
    forall j | 0 <= j < |items| && j != k ensures r[j] == items[j] {
      if j < k {
        assert !SameKey(items[j], items[k]);
      } else {
        assert !SameKey(items[k], items[j]);
      }
    }
  }

  /** `removeFromCart` keeps the survivors in their original order: removal
      distributes over concatenation. */
  lemma {:induction false} RemoveConcat(a: seq<CartItem>, b: seq<CartItem>, id: int)
    ensures RemoveFromCart(a + b, id) == RemoveFromCart(a, id) + RemoveFromCart(b, id)
  {
    if |a| == 0 {
      assert a + b == b;
    } else {
      var keep := if a[0].id != id then [a[0]] else [];
      calc {
        RemoveFromCart(a + b, id);
        { assert (a + b)[0] == a[0]; assert (a + b)[1..] == a[1..] + b; }
        keep + RemoveFromCart(a[1..] + b, id);
        { RemoveConcat(a[1..], b, id); }
        keep + (RemoveFromCart(a[1..], id) + RemoveFromCart(b, id));
        (keep + RemoveFromCart(a[1..], id)) + RemoveFromCart(b, id);
      }
    }
  }

  /** Removing an absent product changes nothing. */
  lemma {:induction false} RemoveAbsent(items: seq<CartItem>, id: int)
    requires forall i :: 0 <= i < |items| ==> items[i].id != id
    ensures RemoveFromCart(items, id) == items
  {
    if |items| > 0 {
      assert [items[0]] + items[1..] == items;
      RemoveAbsent(items[1..], id);
    }
  }

  /** Removal keeps keys unique. */
  lemma {:induction false} RemovePreservesUniqueKeys(items: seq<CartItem>, id: int)
    requires UniqueKeys(items)
    ensures UniqueKeys(RemoveFromCart(items, id))
  {
    if |items| > 0 {
      var rest := items[1..];
      assert UniqueKeys(rest) by {
        forall i, j | 0 <= i < j < |rest| ensures !SameKey(rest[i], rest[j]) {
          assert rest[i] == items[i + 1] && rest[j] == items[j + 1];
        }
      }
      RemovePreservesUniqueKeys(rest, id);
      var tail := RemoveFromCart(rest, id);
      if items[0].id != id {
        var r := [items[0]] + tail;
        forall i, j | 0 <= i < j < |r| ensures !SameKey(r[i], r[j]) {
          if i == 0 {
            assert r[j] == tail[j - 1];
            assert tail[j - 1] in rest;
            var m :| 0 <= m < |rest| && rest[m] == tail[j - 1];
            assert !SameKey(items[0], items[m + 1]);
          } else {
            assert r[i] == tail[i - 1] && r[j] == tail[j - 1];
          }
        }
      } else {
        assert RemoveFromCart(items, id) == [] + tail;
      }
    }
  }

  /** `updateQuantity` keeps keys, hence keeps them unique, and with a
      positive quantity keeps every quantity positive. */
  lemma UpdatePreservesInvariants(items: seq<CartItem>, id: int, quantity: int)
    ensures UniqueKeys(items) ==> UniqueKeys(UpdateQuantity(items, id, quantity))
    ensures quantity >= 1 && PositiveQuantities(items) ==> PositiveQuantities(UpdateQuantity(items, id, quantity))
  {
    var r := UpdateQuantity(items, id, quantity);
    assert forall i :: 0 <= i < |r| ==> SameKey(r[i], items[i]);
  }

  predicate PositiveQuantities(items: seq<CartItem>) {
    forall i :: 0 <= i < |items| ==> items[i].quantity >= 1
  }

  /** `addToCart` with a positive quantity keeps every quantity positive. */
  lemma AddPreservesPositiveQuantities(items: seq<CartItem>, item: CartItem)
    requires PositiveQuantities(items) && item.quantity >= 1
    ensures PositiveQuantities(AddToCart(items, item))
  {
  }

  // ---------------------------------------------------------------------
  // Session state, persistence and remote calls

  /** The store's state: the signed-in user's id (if any), the in-memory
      lines, and the device-local `cart` slot (absent when removed). */
  datatype Session = Session(user: Option<string>, items: seq<CartItem>, slot: Option<seq<CartItem>>)

  /** A remote round trip the store starts. */
  datatype RemoteCall =
    | FetchRemoteCart                         // read of the user's "cart" order
    | SaveRemoteCart(lines: seq<CartItem>)    // saveCartToDatabase
    | DeleteRemoteCart                        // deleteCartFromDatabase
    | SubmitOrder(body: Printful.OrderBody)   // createPrintfulOrder
    | MarkOrderPending(orderRef: string, shipping: Printful.ShippingInfo, fulfilmentId: int)

  datatype Step = Step(session: Session, calls: seq<RemoteCall>)

  /** The local slot mirrors the cart: it holds the lines verbatim when the
      cart is non-empty and is absent when it is empty. */
  predicate Mirrored(s: Session) {
    if |s.items| > 0 then s.slot == Some(s.items) else s.slot == None
  }

  /** Sets the lines, then runs the persistence effect: write-through to the
      local slot (or its removal) and, for a signed-in user, a save (or
      delete) of the remote mirror. */
  function Commit(s: Session, items: seq<CartItem>): (r: Step)
    ensures r.session.items == items && r.session.user == s.user
    ensures Mirrored(r.session)
    ensures s.user == None ==> r.calls == []
    ensures s.user != None && |items| > 0 ==> r.calls == [SaveRemoteCart(items)]
    ensures s.user != None && |items| == 0 ==> r.calls == [DeleteRemoteCart]
  {
    var slot := if |items| > 0 then Some(items) else None;
    var calls := if s.user == None then [] else if |items| > 0 then [SaveRemoteCart(items)] else [DeleteRemoteCart];
    Step(Session(s.user, items, slot), calls)
  }

  /** `clearCart`: empty the lines, remove the slot, delete the remote mirror
      directly, and then once more from the persistence effect. */
  function Clear(s: Session): (r: Step)
    ensures r.session == Session(s.user, [], None)
    ensures s.user == None ==> r.calls == []
    ensures s.user != None ==> r.calls == [DeleteRemoteCart, DeleteRemoteCart]
  {
    var direct := if s.user == None then [] else [DeleteRemoteCart];
    var effect := Commit(s, []);
    Step(effect.session, direct + effect.calls)
  }

  /** The user-visible cart mutations. */
  datatype Mutation =
    | AddLine(item: CartItem)
    | RemoveLine(id: int)
    | SetQuantity(id: int, quantity: int)
    | ClearAll

  function Apply(s: Session, m: Mutation): Step {
    match m
    case AddLine(item) => Commit(s, AddToCart(s.items, item))
    case RemoveLine(id) => Commit(s, RemoveFromCart(s.items, id))
    case SetQuantity(id, q) => Commit(s, UpdateQuantity(s.items, id, q))
    case ClearAll => Clear(s)
  }

  /** Applies mutations in order, collecting the remote calls. */
  function ApplyAll(s: Session, ms: seq<Mutation>): Step
    decreases |ms|
  {
    if |ms| == 0 then Step(s, [])
    else
      var first := Apply(s, ms[0]);
      var rest := ApplyAll(first.session, ms[1..]);
      Step(rest.session, first.calls + rest.calls)
  }

  /** After any non-empty run of mutations the local slot mirrors the cart,
      keys stay unique, and the user is unchanged. */
  lemma {:induction false} ApplyAllPreservesInvariants(s: Session, ms: seq<Mutation>)
    requires UniqueKeys(s.items)
    requires |ms| > 0 || Mirrored(s)
    ensures Mirrored(ApplyAll(s, ms).session)
    ensures UniqueKeys(ApplyAll(s, ms).session.items)
    ensures ApplyAll(s, ms).session.user == s.user
    decreases |ms|
  {
    if |ms| > 0 {
      var first := Apply(s, ms[0]);
      match ms[0] {
        case AddLine(item) => AddPreservesUniqueKeys(s.items, item);
        case RemoveLine(id) => RemovePreservesUniqueKeys(s.items, id);
        case SetQuantity(id, q) => UpdatePreservesInvariants(s.items, id, q);
        case ClearAll =>
      }
      ApplyAllPreservesInvariants(first.session, ms[1..]);
    }
  }

  /** A guest's mutations never touch the remote store. */
  lemma {:induction false} GuestMakesNoRemoteCalls(s: Session, ms: seq<Mutation>)
    requires s.user == None
    ensures ApplyAll(s, ms).calls == []
    decreases |ms|
  {
    if |ms| > 0 {
      var first := Apply(s, ms[0]);
      assert first.calls == [] && first.session.user == None;
      GuestMakesNoRemoteCalls(first.session, ms[1..]);
    }
  }

  // ---------------------------------------------------------------------
  // Loading at session start

  /** Outcome of reading the user's remote "cart" order. */
  datatype RemoteCartRead =
    | ReadFailed
    | NoRemoteCart
    | RemoteLines(lines: seq<CartItem>)

  /** `loadCart`: a guest takes the local slot (or nothing); a signed-in user
      takes the remote lines when a cart order exists, falls back to the slot
      on a failed read, and with no remote cart adopts a stored slot and
      pushes it up when non-empty. Every adoption replaces the lines and so is
      followed by the persistence effect (`Commit`); with no remote cart and
      no stored slot nothing is adopted and nothing is written. */
  function Load(s: Session, remote: RemoteCartRead): (r: Step)
    ensures r.session.user == s.user
    // Which lines are adopted.
    ensures s.user == None ==> r.session.items == s.slot.GetOr([])
    ensures s.user != None && remote.RemoteLines? ==> r.session.items == remote.lines
    ensures s.user != None && remote.ReadFailed? ==> r.session.items == s.slot.GetOr([])
    ensures s.user != None && remote.NoRemoteCart? && s.slot != None ==> r.session.items == s.slot.value
    // Nothing adopted: nothing changes beyond the read.
    ensures s.user != None && remote.NoRemoteCart? && s.slot == None ==> r == Step(s, [FetchRemoteCart])
    // Any adoption leaves the local slot mirroring the adopted lines.
    ensures !(s.user != None && remote.NoRemoteCart? && s.slot == None) ==> Mirrored(r.session)
    // A guest contacts nothing, not even a read.
    ensures s.user == None ==> r.calls == []
    // A user's load starts with the read and ends with the effect's save or delete.
    ensures s.user != None && !(remote.NoRemoteCart? && s.slot == None) ==>
      && |r.calls| >= 2 && r.calls[0] == FetchRemoteCart
      && r.calls[|r.calls| - 1] == (if |r.session.items| > 0 then SaveRemoteCart(r.session.items) else DeleteRemoteCart)
    // A stored non-empty slot adopted for want of a remote cart is pushed up twice.
    ensures s.user != None && remote.NoRemoteCart? && s.slot != None && |s.slot.value| > 0 ==>
      r.calls == [FetchRemoteCart, SaveRemoteCart(s.slot.value), SaveRemoteCart(s.slot.value)]
    ensures (s.user != None && !(remote.NoRemoteCart? && s.slot != None && |s.slot.value| > 0)
             && !(remote.NoRemoteCart? && s.slot == None)) ==> |r.calls| == 2
  {
    match s.user
    case None => Commit(s, s.slot.GetOr([]))
    case Some(_) =>
      match remote
      case RemoteLines(lines) =>
        var effect := Commit(s, lines);
        Step(effect.session, [FetchRemoteCart] + effect.calls)
      case ReadFailed =>
        var effect := Commit(s, s.slot.GetOr([]));
        Step(effect.session, [FetchRemoteCart] + effect.calls)
      case NoRemoteCart =>
        match s.slot
        case None => Step(s, [FetchRemoteCart])
        case Some(saved) =>
          var push := if |saved| > 0 then [SaveRemoteCart(saved)] else [];
          var effect := Commit(s, saved);
          Step(effect.session, [FetchRemoteCart] + push + effect.calls)
  }

  /** The local slot round-trips: whatever a change leaves in the cart is
      what the next guest session (or a user whose remote read fails) loads. */
  lemma SlotRoundTrip(s: Session, items: seq<CartItem>, next: Option<string>, remote: RemoteCartRead)
    requires next == None || remote.ReadFailed?
    ensures Load(Session(next, [], Commit(s, items).session.slot), remote).session.items == items
  {
  }

  // ---------------------------------------------------------------------
  // Checkout

  /** Provider line items: `(variantId, quantity)` for each line, in order. */
  function OrderItems(items: seq<CartItem>): (r: seq<Printful.OrderItem>)
    ensures |r| == |items|
    ensures forall i :: 0 <= i < |items| ==>
      r[i].syncVariantId == items[i].variantId && r[i].quantity == items[i].quantity
  {
    if |items| == 0 then []
    else [Printful.OrderItem(items[0].variantId, items[0].quantity)] + OrderItems(items[1..])
  }

  /** Outcome of looking up and updating the user's remote "cart" order once
      the provider has accepted the order. */
  datatype PendingUpdate =
    | LookupFailed
    | NoCartOrder
    | CartOrderFound(orderRef: string, updateSucceeded: bool)

  datatype CheckoutResult = CheckoutResult(ok: bool, step: Step)

  /** The provider order `checkout` submits for the session's cart. */
  function Submission(s: Session, info: Printful.ShippingInfo): RemoteCall {
    SubmitOrder(Printful.BuildOrderBody(OrderItems(s.items), info))
  }

  /** `checkout`. `fulfilment` is the provider's answer (`None` for the null
      that stands for any failure), `pending` the outcome of looking up the
      user's remote "cart" order and updating it. */
  function Checkout(s: Session, info: Printful.ShippingInfo, fulfilment: Option<int>, pending: PendingUpdate): (r: CheckoutResult)
    // No user: failure, nothing contacted, nothing changed.
    ensures s.user == None ==> !r.ok && r.step == Step(s, [])
    // With a user the order goes out first, carrying (variantId, quantity) per line.
    ensures s.user != None ==>
      |r.step.calls| >= 1 && r.step.calls[0] == Submission(s, info)
    // A rejected order contacts nothing else.
    ensures s.user != None && fulfilment == None ==> |r.step.calls| == 1
    // An accepted order is followed by the lookup of the remote cart order.
    ensures s.user != None && fulfilment != None ==> |r.step.calls| >= 2 && r.step.calls[1] == FetchRemoteCart
    // Success exactly when the provider accepted and the remote update did not fail.
    ensures r.ok <==> (s.user != None && fulfilment != None &&
                       (pending.NoCartOrder? || (pending.CartOrderFound? && pending.updateSucceeded)))
    // Every failure leaves the cart and its local slot untouched.
    ensures !r.ok ==> r.step.session == s
    // Success empties the cart and removes the local slot.
    ensures r.ok ==> r.step.session == Session(s.user, [], None)
    // A found cart order is marked pending with the shipping info and provider id.
    ensures s.user != None && fulfilment != None && pending.CartOrderFound? ==>
      |r.step.calls| >= 3 && r.step.calls[2] == MarkOrderPending(pending.orderRef, info, fulfilment.value)
    // Without a found cart order nothing is marked pending.
    ensures !pending.CartOrderFound? ==> forall c :: c in r.step.calls ==> !c.MarkOrderPending?
    // The exact calls of each accepted-order branch: the order is submitted
    // once, and a success ends with `clearCart`'s two deletes of the mirror.
    ensures s.user != None && fulfilment != None && pending.LookupFailed? ==>
      r.step.calls == [Submission(s, info), FetchRemoteCart]
    ensures s.user != None && fulfilment != None && pending.NoCartOrder? ==>
      r.step.calls == [Submission(s, info), FetchRemoteCart,
                       DeleteRemoteCart, DeleteRemoteCart]
    ensures s.user != None && fulfilment != None && pending.CartOrderFound? && !pending.updateSucceeded ==>
      r.step.calls == [Submission(s, info), FetchRemoteCart,
                       MarkOrderPending(pending.orderRef, info, fulfilment.value)]
    ensures s.user != None && fulfilment != None && pending.CartOrderFound? && pending.updateSucceeded ==>
      r.step.calls == [Submission(s, info), FetchRemoteCart,
                       MarkOrderPending(pending.orderRef, info, fulfilment.value),
                       DeleteRemoteCart, DeleteRemoteCart]
  {
    if s.user == None then CheckoutResult(false, Step(s, []))
    else
      var submit := Submission(s, info);
      match fulfilment
      case None => CheckoutResult(false, Step(s, [submit]))
      case Some(orderId) =>
        match pending
        case LookupFailed => CheckoutResult(false, Step(s, [submit, FetchRemoteCart]))
        case NoCartOrder =>
          var cleared := Clear(s);
          CheckoutResult(true, Step(cleared.session, [submit, FetchRemoteCart] + cleared.calls))
        case CartOrderFound(ref, updated) =>
          var mark := MarkOrderPending(ref, info, orderId);
          if !updated then CheckoutResult(false, Step(s, [submit, FetchRemoteCart, mark]))
          else
            var cleared := Clear(s);
            CheckoutResult(true, Step(cleared.session, [submit, FetchRemoteCart, mark] + cleared.calls))
  }

  /** Single-shot submission: when the provider accepted the order but the
      remote bookkeeping failed, checkout reports failure and keeps the cart
      although the order was placed, so a retry submits a second order. */
  lemma CheckoutFailureAfterSubmission(s: Session, info: Printful.ShippingInfo, orderId: int, pending: PendingUpdate,
                                       retryFulfilment: Option<int>, retryPending: PendingUpdate)
    requires s.user != None
    requires pending.LookupFailed? || (pending.CartOrderFound? && !pending.updateSucceeded)
    ensures var first := Checkout(s, info, Some(orderId), pending);
      && !first.ok
      && first.step.session == s
      && first.step.calls[0].SubmitOrder?
      && Checkout(first.step.session, info, retryFulfilment, retryPending).step.calls[0] == first.step.calls[0]
  {
  }

  /** Example: one medium canvas line of product 1, add two more. */
  lemma AddScenario()
    ensures
      var line := CartItem(1, "t", "a", 8999, 1, "img", "canvas", 1232, "medium");
      var r := AddToCart([line], line.(quantity := 2));
      |r| == 1 && r[0].quantity == 3
  {
    var line := CartItem(1, "t", "a", 8999, 1, "img", "canvas", 1232, "medium");
    assert SameKey([line][0], line.(quantity := 2));
  }
}
