/** The customer cart page (src/app/customer/cart/page.tsx): what it shows
    for a cart, and what its buttons do to the store. */
module CartPage {
  import opened Store

  /** The part below the header: the empty state, or the line list with the
      totals bar and its checkout button. */
  datatype Body = EmptyState | Lines(totalPrice: int, totalWeight: int)

  /** The header badge and the body. */
  datatype View = View(badge: nat, body: Body)

  /** The buttons: minus and plus on a line, and "Proceed to Checkout". */
  datatype Event = Minus(id: Id) | Plus(id: Id) | ProceedToCheckout

  /** Where the page goes next. */
  datatype Navigation = Stay | ToPayment

  /** The badge counts lines; the totals bar is shown exactly when the cart
      has a line, and its totals are the sums over the lines. The page's own
      `getTotalPrice` and `getTotalWeight` are the store's folds written out
      again, so they are the store's `TotalPrice` and `TotalWeight` here. */
  function Render(cart: Cart): (v: View)
    ensures v.badge == |cart|
    ensures v.body.EmptyState? <==> |cart| == 0
    ensures v.body.Lines? ==>
              v.body.totalPrice == Sigma(cart, Price) && v.body.totalWeight == Sigma(cart, Weight)
  {
    View(|cart|, if |cart| == 0 then EmptyState else Lines(TotalPrice(cart), TotalWeight(cart)))
  }

  /** A button press: the new cart and where the page goes. Checkout only
      navigates and leaves the cart alone. */
  function Step(cart: Cart, e: Event): (r: (Cart, Navigation))
    ensures e.ProceedToCheckout? ==> r.0 == cart && r.1 == ToPayment
    ensures e.Minus? ==> r.0 == UpdateQuantity(cart, e.id, -1) && r.1 == Stay
    ensures e.Plus? ==> r.0 == UpdateQuantity(cart, e.id, 1) && r.1 == Stay
  {
    match e
    case Minus(id) => (UpdateQuantity(cart, id, -1), Stay)
    case Plus(id) => (UpdateQuantity(cart, id, 1), Stay)
    case ProceedToCheckout => (cart, ToPayment)
  }

  /** Minus on a quantity-1 line removes the line and keeps the others in order. */
  lemma MinusOnSingleRemoves(cart: Cart, k: int)
    requires Valid(cart)
    requires 0 <= k < |cart| && cart[k].quantity == 1
    ensures Step(cart, Minus(cart[k].item.id)).0 == cart[..k] + cart[k+1..]
  {
    UpdateOnLine(cart, cart[k].item.id, -1, k);
  }

  /** Plus raises the line's quantity by one. */
  lemma PlusRaisesLine(cart: Cart, k: int)
    requires Valid(cart)
    requires 0 <= k < |cart|
    ensures Step(cart, Plus(cart[k].item.id)).0 == cart[k := cart[k].(quantity := cart[k].quantity + 1)]
  {
    UpdateOnLine(cart, cart[k].item.id, 1, k);
  }

  /** Plus raises each total by the line's unit. */
  lemma PlusRaisesTotals(cart: Cart, k: int, m: Measure)
    requires Valid(cart)
    requires 0 <= k < |cart|
    ensures Sigma(Step(cart, Plus(cart[k].item.id)).0, m) == Sigma(cart, m) + UnitOf(cart[k].item, m)
  {
    UpdateShiftsTotals(cart, cart[k].item.id, 1, k, m);
  }

  /** Minus undoes plus. */
  lemma {:induction false} PlusThenMinus(cart: Cart, k: int)
    requires Valid(cart)
    requires 0 <= k < |cart|
    ensures var id := cart[k].item.id;
            Step(Step(cart, Plus(id)).0, Minus(id)).0 == cart
  {
    var id := cart[k].item.id;
    var up := cart[k := cart[k].(quantity := cart[k].quantity + 1)];
    UpdateOnLine(cart, id, 1, k);
    assert Valid(up) by {
      assert forall i :: 0 <= i < |up| ==> up[i].item == cart[i].item;
    }
    UpdateOnLine(up, id, -1, k);
    var back := up[k := up[k].(quantity := up[k].quantity - 1)];
    assert forall i :: 0 <= i < |cart| ==> back[i] == cart[i];
    assert back == cart;
  }

  /** Plus undoes minus on a line with quantity two or more. */
  lemma {:induction false} MinusThenPlus(cart: Cart, k: int)
    requires Valid(cart)
    requires 0 <= k < |cart| && cart[k].quantity >= 2
    ensures var id := cart[k].item.id;
            Step(Step(cart, Minus(id)).0, Plus(id)).0 == cart
  {
    var id := cart[k].item.id;
    var down := cart[k := cart[k].(quantity := cart[k].quantity - 1)];
    UpdateOnLine(cart, id, -1, k);
    assert Valid(down) by {
      assert forall i :: 0 <= i < |down| ==> down[i].item == cart[i].item;
    }
    UpdateOnLine(down, id, 1, k);
    var back := down[k := down[k].(quantity := down[k].quantity + 1)];
    assert forall i :: 0 <= i < |cart| ==> back[i] == cart[i];
    assert back == cart;
  }

  /** The badge counts distinct lines, never more than the units in the cart,
      and fewer as soon as one line holds two or more. */
  lemma {:induction false} BadgeCountsLines(cart: Cart)
    requires PositiveQuantities(cart)
    ensures Render(cart).badge <= Sigma(cart, Units)
    ensures (exists k :: 0 <= k < |cart| && cart[k].quantity >= 2) ==> Render(cart).badge < Sigma(cart, Units)
  {
    if cart != [] {
      BadgeCountsLines(cart[1..]);
      if exists k :: 0 <= k < |cart| && cart[k].quantity >= 2 {
        var k :| 0 <= k < |cart| && cart[k].quantity >= 2;
        if k > 0 {
          assert cart[1..][k - 1].quantity >= 2;
        }
      }
    }
  }
}
