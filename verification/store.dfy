/** The cart store of the self-checkout front-end (src/lib/store.ts): an
    ordered list of cart lines keyed by product id, four operations that
    replace it, and two totals folded over it. */
module Store {

  /** A product id as the cart compares it with `===`: the catalog's ids are
      strings and the scan page's table uses numbers, and the two never compare
      equal. */
  datatype Id = Str(text: string) | Num(n: int)

  /** The part of a product the cart stores, compares and sums. */
  datatype Item = Item(id: Id, name: string, price: int, weight: int)

  /** A product spread into a cart line together with its quantity. */
  datatype CartLine = CartLine(item: Item, quantity: int)

  /** Lines in insertion order, which is also display order. */
  type Cart = seq<CartLine>

  /** The empty cart the store starts with and `clearCart` returns to. */
  const EmptyCart: Cart := []

  predicate HasId(cart: Cart, id: Id) {
    exists i :: 0 <= i < |cart| && cart[i].item.id == id
  }

  /** At most one line per product id. */
  predicate UniqueIds(cart: Cart) {
    forall i, j :: 0 <= i < j < |cart| ==> cart[i].item.id != cart[j].item.id
  }

  /** No line is kept with a quantity below one. */
  predicate PositiveQuantities(cart: Cart) {
    forall i :: 0 <= i < |cart| ==> cart[i].quantity >= 1
  }

  /** The cart invariant every store operation keeps. */
  predicate Valid(cart: Cart) {
    UniqueIds(cart) && PositiveQuantities(cart)
  }

  // ---------------------------------------------------------------------
  // Operations
  // ---------------------------------------------------------------------

  function Max(a: int, b: int): int {
    if a >= b then a else b
  }

  /** `Array.prototype.filter`: the lines `keep` accepts, in their order. */
  function Filter(cart: Cart, keep: CartLine -> bool): (r: Cart)
    ensures |r| <= |cart|
  {
    if cart == [] then []
    else (if keep(cart[0]) then [cart[0]] else []) + Filter(cart[1..], keep)
  }

  /** A filter keeps exactly the lines its predicate accepts. */
  lemma {:induction false} FilterMembers(cart: Cart, keep: CartLine -> bool)
    ensures forall l :: l in Filter(cart, keep) <==> l in cart && keep(l)
  {
    if cart != [] {
      FilterMembers(cart[1..], keep);
      assert cart == [cart[0]] + cart[1..];
    }
  }

  /** The predicate `removeFromCart` filters with. */
  function OtherThan(id: Id): CartLine -> bool {
    (l: CartLine) => l.item.id != id
  }

  /** The predicate `updateQuantity` filters with. */
  predicate InCart(l: CartLine) {
    l.quantity > 0
  }

  /** `addToCart`: a product already in the cart gets its line's quantity
      raised by one, with the line's stored fields kept; any other product
      is appended with quantity 1. */
  function AddToCart(cart: Cart, product: Item): (r: Cart)
    ensures HasId(r, product.id)
    ensures HasId(cart, product.id) ==>
              |r| == |cart| &&
              forall i :: 0 <= i < |cart| ==>
                r[i].item == cart[i].item &&
                r[i].quantity - cart[i].quantity == (if cart[i].item.id == product.id then 1 else 0)
    ensures !HasId(cart, product.id) ==>
              |r| == |cart| + 1 && r[..|cart|] == cart && r[|cart|] == CartLine(product, 1)
  {
    if HasId(cart, product.id) then
      var r := seq(|cart|, i requires 0 <= i < |cart| =>
        if cart[i].item.id == product.id then cart[i].(quantity := cart[i].quantity + 1) else cart[i]);
      var k :| 0 <= k < |cart| && cart[k].item.id == product.id;
      assert r[k].item.id == product.id;
      r
    else
      var r := cart + [CartLine(product, 1)];
      assert r[|cart|].item.id == product.id;
      r
  }

  /** `removeFromCart`: every line with the given id is filtered out. */
  function RemoveFromCart(cart: Cart, id: Id): (r: Cart)
    ensures !HasId(r, id)
    ensures forall l :: l in r <==> l in cart && l.item.id != id
  {
    var r := Filter(cart, OtherThan(id));
    FilterMembers(cart, OtherThan(id));
    assert forall i :: 0 <= i < |r| ==> r[i] in r;
    r
  }

  /** The `map` step of `updateQuantity`: the matching line's quantity moves
      by `delta` but never below zero. */
  function Adjust(cart: Cart, id: Id, delta: int): (r: Cart)
    ensures |r| == |cart|
    ensures forall i :: 0 <= i < |cart| ==> r[i].item == cart[i].item
    ensures forall i :: 0 <= i < |cart| && cart[i].item.id != id ==> r[i] == cart[i]
    ensures forall i :: 0 <= i < |cart| && cart[i].item.id == id ==>
              (cart[i].quantity + delta > 0 ==> r[i].quantity == cart[i].quantity + delta) &&
              (cart[i].quantity + delta <= 0 ==> r[i].quantity == 0)
  {
    seq(|cart|, i requires 0 <= i < |cart| =>
      if cart[i].item.id == id then cart[i].(quantity := Max(0, cart[i].quantity + delta)) else cart[i])
  }

  /** `updateQuantity`: adjust, then drop every line whose quantity is not
      positive (not only the adjusted one). */
  function UpdateQuantity(cart: Cart, id: Id, delta: int): (r: Cart)
    ensures PositiveQuantities(r)
    ensures |r| <= |cart|
  {
    var r := Filter(Adjust(cart, id, delta), InCart);
    FilterMembers(Adjust(cart, id, delta), InCart);
    assert forall i :: 0 <= i < |r| ==> r[i] in r;
    r
  }

  /** On any cart, `updateQuantity` leaves the lines of other products alone
      (dropping only those that were already empty), and a surviving line of
      the product has its quantity moved by exactly `delta`. */
  lemma UpdateQuantityFrame(cart: Cart, id: Id, delta: int)
    ensures forall l :: l in UpdateQuantity(cart, id, delta) && l.item.id != id ==> l in cart
    ensures forall l :: l in cart && l.item.id != id && l.quantity > 0 ==> l in UpdateQuantity(cart, id, delta)
    ensures forall l :: l in UpdateQuantity(cart, id, delta) && l.item.id == id ==>
              exists i :: 0 <= i < |cart| && cart[i].item == l.item && l.quantity == cart[i].quantity + delta
  {
    var adjusted := Adjust(cart, id, delta);
    var r := UpdateQuantity(cart, id, delta);
    FilterMembers(adjusted, InCart);
    forall l | l in cart && l.item.id != id ensures l in adjusted {
      var i :| 0 <= i < |cart| && cart[i] == l;
      assert adjusted[i] == l;
    }
    forall l | l in r && l.item.id == id
      ensures exists i :: 0 <= i < |cart| && cart[i].item == l.item && l.quantity == cart[i].quantity + delta
    {
      var i :| 0 <= i < |adjusted| && adjusted[i] == l;
      assert cart[i].item == l.item;
    }
  }

  /** `clearCart`. */
  function ClearCart(cart: Cart): (r: Cart)
    ensures |r| == 0
  {
    EmptyCart
  }

  // ---------------------------------------------------------------------
  // Totals
  // ---------------------------------------------------------------------

  /** What a total sums: price, weight in grams, or units (quantities). */
  datatype Measure = Price | Weight | Units

  function UnitOf(item: Item, m: Measure): int {
    match m
    case Price => item.price
    case Weight => item.weight
    case Units => 1
  }

  function Contribution(line: CartLine, m: Measure): int {
    UnitOf(line.item, m) * line.quantity
  }

  /** Reference definition of a total: the sum of unit × quantity over the lines. */
  function Sigma(cart: Cart, m: Measure): int {
    if cart == [] then 0 else Contribution(cart[0], m) + Sigma(cart[1..], m)
  }

  /** `reduce((total, item) => total + unit * item.quantity, acc)`: a left
      fold with an accumulator, as the store and the cart page write it. */
  function Fold(cart: Cart, acc: int, m: Measure): int {
    if cart == [] then acc else Fold(cart[1..], acc + Contribution(cart[0], m), m)
  }

  lemma {:induction false} FoldIsSigma(cart: Cart, acc: int, m: Measure)
    ensures Fold(cart, acc, m) == acc + Sigma(cart, m)
  {
    if cart != [] {
      FoldIsSigma(cart[1..], acc + Contribution(cart[0], m), m);
    }
  }

  /** `getTotalPrice`. */
  function TotalPrice(cart: Cart): (r: int)
    ensures r == Sigma(cart, Price)
  {
    FoldIsSigma(cart, 0, Price);
    Fold(cart, 0, Price)
  }

  /** `getTotalWeight`. */
  function TotalWeight(cart: Cart): (r: int)
    ensures r == Sigma(cart, Weight)
  {
    FoldIsSigma(cart, 0, Weight);
    Fold(cart, 0, Weight)
  }

  // ---------------------------------------------------------------------
  // Sum lemmas
  // ---------------------------------------------------------------------

  lemma {:induction false} SigmaAppend(a: Cart, b: Cart, m: Measure)
    ensures Sigma(a + b, m) == Sigma(a, m) + Sigma(b, m)
  {
    if a == [] {
      assert a + b == b;
    } else {
      assert (a + b)[1..] == a[1..] + b;
      SigmaAppend(a[1..], b, m);
    }
  }

  /** Replacing one line changes a total by the difference of the two lines'
      contributions. */
  lemma SigmaPointUpdate(cart: Cart, k: int, line: CartLine, m: Measure)
    requires 0 <= k < |cart|
    ensures Sigma(cart[k := line], m) == Sigma(cart, m) - Contribution(cart[k], m) + Contribution(line, m)
  {
    assert cart == cart[..k] + [cart[k]] + cart[k+1..];
    assert cart[k := line] == cart[..k] + [line] + cart[k+1..];
    SigmaAppend(cart[..k] + [cart[k]], cart[k+1..], m);
    SigmaAppend(cart[..k], [cart[k]], m);
    SigmaAppend(cart[..k] + [line], cart[k+1..], m);
    SigmaAppend(cart[..k], [line], m);
  }

  lemma MulSucc(u: int, q: int)
    ensures u * (q + 1) == u * q + u
  {
  }

  lemma MulSub(u: int, a: int, b: int)
    ensures u * a - u * b == u * (a - b)
  {
  }

  /** Dropping one line takes its contribution off a total. */
  lemma SigmaDropLine(cart: Cart, k: int, m: Measure)
    requires 0 <= k < |cart|
    ensures Sigma(cart[..k] + cart[k+1..], m) == Sigma(cart, m) - Contribution(cart[k], m)
  {
    assert cart == cart[..k] + [cart[k]] + cart[k+1..];
    SigmaAppend(cart[..k] + [cart[k]], cart[k+1..], m);
    SigmaAppend(cart[..k], [cart[k]], m);
    SigmaAppend(cart[..k], cart[k+1..], m);
  }

  // ---------------------------------------------------------------------
  // Filter lemmas
  // ---------------------------------------------------------------------

  lemma {:induction false} FilterAppend(a: Cart, b: Cart, keep: CartLine -> bool)
    ensures Filter(a + b, keep) == Filter(a, keep) + Filter(b, keep)
  {
    if a == [] {
      assert a + b == b;
    } else {
      var head := if keep(a[0]) then [a[0]] else [];
      assert (a + b)[0] == a[0];
      assert (a + b)[1..] == a[1..] + b;
      calc {
        Filter(a + b, keep);
        head + Filter(a[1..] + b, keep);
        { FilterAppend(a[1..], b, keep); }
        head + (Filter(a[1..], keep) + Filter(b, keep));
        (head + Filter(a[1..], keep)) + Filter(b, keep);
        Filter(a, keep) + Filter(b, keep);
      }
    }
  }

  lemma {:induction false} FilterKeepsAll(cart: Cart, keep: CartLine -> bool)
    requires forall i :: 0 <= i < |cart| ==> keep(cart[i])
    ensures Filter(cart, keep) == cart
  {
    if cart != [] {
      FilterKeepsAll(cart[1..], keep);
    }
  }

  /** A filter that rejects exactly one line, at position k, removes that
      line and keeps the order of the others. */
  lemma {:induction false} FilterDropsOne(cart: Cart, k: int, keep: CartLine -> bool)
    requires 0 <= k < |cart|
    requires !keep(cart[k])
    requires forall i :: 0 <= i < |cart| && i != k ==> keep(cart[i])
    ensures Filter(cart, keep) == cart[..k] + cart[k+1..]
  {
    var tail := cart[1..];
    if k == 0 {
      assert forall i :: 0 <= i < |tail| ==> tail[i] == cart[i + 1];
      FilterKeepsAll(tail, keep);
      assert cart[..0] + cart[1..] == tail;
    } else {
      assert forall i :: 0 <= i < |tail| ==> tail[i] == cart[i + 1];
      FilterDropsOne(tail, k - 1, keep);
      assert Filter(cart, keep) == [cart[0]] + (tail[..k-1] + tail[k..]);
      assert [cart[0]] + (tail[..k-1] + tail[k..]) == cart[..k] + cart[k+1..];
    }
  }

  // ---------------------------------------------------------------------
  // Properties of the operations
  // ---------------------------------------------------------------------

  /** Adding a product whose id is on line k is the point update of line k. */
  lemma AddExistingBumpsLine(cart: Cart, product: Item, k: int)
    requires UniqueIds(cart)
    requires 0 <= k < |cart| && cart[k].item.id == product.id
    ensures AddToCart(cart, product) == cart[k := cart[k].(quantity := cart[k].quantity + 1)]
  {
  }

  lemma AddPreservesValid(cart: Cart, product: Item)
    requires Valid(cart)
    ensures Valid(AddToCart(cart, product))
  {
  }

  /** Adding the same new product twice gives one line with quantity 2. */
  lemma AddTwiceMakesOneLine(cart: Cart, product: Item)
    requires !HasId(cart, product.id)
    ensures AddToCart(AddToCart(cart, product), product) == cart + [CartLine(product, 2)]
  {
    var once := AddToCart(cart, product);
    assert once[|cart|].item.id == product.id;
  }

  /** Adding one product twice and then a different one gives a line of two
      and a line of one, and totals of twice the first unit plus the second. */
  lemma AddTwiceThenOther(a: Item, b: Item, m: Measure)
    requires a.id != b.id
    ensures var cart := AddToCart(AddToCart(AddToCart(EmptyCart, a), a), b);
            cart == [CartLine(a, 2), CartLine(b, 1)] &&
            Sigma(cart, m) == 2 * UnitOf(a, m) + UnitOf(b, m)
  {
    AddTwiceMakesOneLine(EmptyCart, a);
    var two := AddToCart(AddToCart(EmptyCart, a), a);
    assert two == [CartLine(a, 2)];
    assert !HasId(two, b.id);
    var cart := AddToCart(two, b);
    assert cart == [CartLine(a, 2), CartLine(b, 1)];
    var last := [CartLine(b, 1)];
    assert cart[1..] == last && last[1..] == [];
    assert Sigma(last, m) == UnitOf(b, m);
    assert Sigma(cart, m) == UnitOf(a, m) * 2 + Sigma(last, m);
  }

  /** With unique ids, removing the id on line k drops exactly that line. */
  lemma RemoveDropsLine(cart: Cart, id: Id, k: int)
    requires UniqueIds(cart)
    requires 0 <= k < |cart| && cart[k].item.id == id
    ensures RemoveFromCart(cart, id) == cart[..k] + cart[k+1..]
  {
    FilterDropsOne(cart, k, OtherThan(id));
  }

  lemma RemoveAbsentKeepsCart(cart: Cart, id: Id)
    requires !HasId(cart, id)
    ensures RemoveFromCart(cart, id) == cart
  {
    FilterKeepsAll(cart, OtherThan(id));
  }

  /** Removal distributes over concatenation, so relative order is kept. */
  lemma RemoveKeepsOrder(a: Cart, b: Cart, id: Id)
    ensures RemoveFromCart(a + b, id) == RemoveFromCart(a, id) + RemoveFromCart(b, id)
  {
    FilterAppend(a, b, OtherThan(id));
  }

  lemma RemovePreservesValid(cart: Cart, id: Id)
    requires Valid(cart)
    ensures Valid(RemoveFromCart(cart, id))
  {
    if k :| 0 <= k < |cart| && cart[k].item.id == id {
      RemoveDropsLine(cart, id, k);
    } else {
      RemoveAbsentKeepsCart(cart, id);
    }
  }

  /** With a valid cart, `updateQuantity` on the id of line k either sets
      that line's quantity to q + delta, or, when that is not positive,
      removes the line; nothing else changes. */
  lemma UpdateOnLine(cart: Cart, id: Id, delta: int, k: int)
    requires Valid(cart)
    requires 0 <= k < |cart| && cart[k].item.id == id
    ensures cart[k].quantity + delta > 0 ==>
              UpdateQuantity(cart, id, delta) == cart[k := cart[k].(quantity := cart[k].quantity + delta)]
    ensures cart[k].quantity + delta <= 0 ==>
              UpdateQuantity(cart, id, delta) == cart[..k] + cart[k+1..]
  {
    var adjusted := Adjust(cart, id, delta);
    var keep := InCart;
    if cart[k].quantity + delta > 0 {
      assert adjusted == cart[k := cart[k].(quantity := cart[k].quantity + delta)];
      FilterKeepsAll(adjusted, keep);
    } else {
      FilterDropsOne(adjusted, k, keep);
      assert adjusted[..k] == cart[..k];
      assert adjusted[k+1..] == cart[k+1..];
    }
  }

  /** `updateQuantity` with an id not in a cart of positive lines is a no-op. */
  lemma UpdateAbsentKeepsCart(cart: Cart, id: Id, delta: int)
    requires PositiveQuantities(cart)
    requires !HasId(cart, id)
    ensures UpdateQuantity(cart, id, delta) == cart
  {
    var adjusted := Adjust(cart, id, delta);
    assert adjusted == cart;
    FilterKeepsAll(cart, InCart);
  }

  lemma UpdatePreservesValid(cart: Cart, id: Id, delta: int)
    requires Valid(cart)
    ensures Valid(UpdateQuantity(cart, id, delta))
  {
    if k :| 0 <= k < |cart| && cart[k].item.id == id {
      UpdateOnLine(cart, id, delta, k);
    } else {
      UpdateAbsentKeepsCart(cart, id, delta);
    }
  }

  /** Every store operation keeps the cart invariant. */
  lemma OperationsPreserveValid(cart: Cart, product: Item, id: Id, delta: int)
    requires Valid(cart)
    ensures Valid(AddToCart(cart, product))
    ensures Valid(RemoveFromCart(cart, id))
    ensures Valid(UpdateQuantity(cart, id, delta))
    ensures Valid(ClearCart(cart))
  {
    AddPreservesValid(cart, product);
    RemovePreservesValid(cart, id);
    UpdatePreservesValid(cart, id, delta);
  }

  /** After `clearCart` both totals are zero. */
  lemma ClearZeroesTotals(cart: Cart)
    ensures ClearCart(cart) == []
    ensures TotalPrice(ClearCart(cart)) == 0 && TotalWeight(ClearCart(cart)) == 0
  {
  }

  /** Adding a product whose line, k, stores that very product raises every
      total by exactly the product's unit. */
  lemma AddExistingRaisesTotals(cart: Cart, product: Item, k: int, m: Measure)
    requires UniqueIds(cart)
    requires 0 <= k < |cart| && cart[k].item == product
    ensures Sigma(AddToCart(cart, product), m) == Sigma(cart, m) + UnitOf(product, m)
  {
    AddExistingBumpsLine(cart, product, k);
    var line := cart[k].(quantity := cart[k].quantity + 1);
    SigmaPointUpdate(cart, k, line, m);
    MulSucc(UnitOf(product, m), cart[k].quantity);
  }

  /** Adding a product not yet in the cart raises every total by exactly the
      product's unit. */
  lemma AddNewRaisesTotals(cart: Cart, product: Item, m: Measure)
    requires !HasId(cart, product.id)
    ensures Sigma(AddToCart(cart, product), m) == Sigma(cart, m) + UnitOf(product, m)
  {
    SigmaAppend(cart, [CartLine(product, 1)], m);
    assert Sigma([CartLine(product, 1)], m) == UnitOf(product, m);
  }

  /** `addToCart(p)` raises every total by exactly p's unit, as long as a
      line already holding p's id stores p itself. */
  lemma AddRaisesTotals(cart: Cart, product: Item, m: Measure)
    requires UniqueIds(cart)
    requires forall i :: 0 <= i < |cart| && cart[i].item.id == product.id ==> cart[i].item == product
    ensures Sigma(AddToCart(cart, product), m) == Sigma(cart, m) + UnitOf(product, m)
  {
    if k :| 0 <= k < |cart| && cart[k].item.id == product.id {
      AddExistingRaisesTotals(cart, product, k, m);
    } else {
      AddNewRaisesTotals(cart, product, m);
    }
  }

  /** Removing a line takes its whole contribution off a total. */
  lemma RemoveLowersTotals(cart: Cart, id: Id, k: int, m: Measure)
    requires UniqueIds(cart)
    requires 0 <= k < |cart| && cart[k].item.id == id
    ensures Sigma(RemoveFromCart(cart, id), m) == Sigma(cart, m) - Contribution(cart[k], m)
  {
    RemoveDropsLine(cart, id, k);
    SigmaDropLine(cart, k, m);
  }

  /** While the line stays, `updateQuantity` changes a total by unit × delta. */
  lemma UpdateShiftsTotals(cart: Cart, id: Id, delta: int, k: int, m: Measure)
    requires Valid(cart)
    requires 0 <= k < |cart| && cart[k].item.id == id
    requires cart[k].quantity + delta > 0
    ensures Sigma(UpdateQuantity(cart, id, delta), m) == Sigma(cart, m) + UnitOf(cart[k].item, m) * delta
  {
    UpdateOnLine(cart, id, delta, k);
    var q := cart[k].quantity;
    var u := UnitOf(cart[k].item, m);
    var line := cart[k].(quantity := q + delta);
    SigmaPointUpdate(cart, k, line, m);
    assert Contribution(line, m) - Contribution(cart[k], m) == u * delta by {
      MulSub(u, q + delta, q);
    }
  }

  /** When the quantity is clamped to zero, `updateQuantity` takes the line's
      whole contribution off a total. */
  lemma UpdateDropsFromTotals(cart: Cart, id: Id, delta: int, k: int, m: Measure)
    requires Valid(cart)
    requires 0 <= k < |cart| && cart[k].item.id == id
    requires cart[k].quantity + delta <= 0
    ensures Sigma(UpdateQuantity(cart, id, delta), m) == Sigma(cart, m) - Contribution(cart[k], m)
  {
    UpdateOnLine(cart, id, delta, k);
    SigmaDropLine(cart, k, m);
  }
}
