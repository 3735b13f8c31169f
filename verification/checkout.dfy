/** `POST /api/checkout` (src/app/api/checkout/route.ts): reject an empty
    cart, otherwise echo the submitted order back as a SUCCESS transaction
    with a receipt id derived from a UUID. The UUID and the timestamp are
    inputs. */
module Checkout {
  import opened Optional
  import opened Store

  /** The request body: either JSON that does not parse, or the three fields
      the route destructures, each possibly absent. */
  datatype Body =
    | Unparseable
    | Json(items: Option<seq<CartLine>>, totalPrice: Option<int>, totalWeight: Option<int>)

  /** The logged and returned transaction record. */
  datatype Transaction = Transaction(
    receiptId: string,
    items: seq<CartLine>,
    totalPrice: Option<int>,
    totalWeight: Option<int>,
    timestamp: string,
    status: string)

  /** 400 "Cart is empty", 500 "Internal Server Error", or 200 with the transaction. */
  datatype Response = CartIsEmpty | InternalError | Success(transaction: Transaction)

  const SuccessStatus: string := "SUCCESS"
  const ReceiptPrefix: string := "REC-"

  function StatusCode(r: Response): (code: int)
    ensures code == 400 <==> r.CartIsEmpty?
    ensures code == 500 <==> r.InternalError?
    ensures code == 200 <==> r.Success?
  {
    match r
    case CartIsEmpty => 400
    case InternalError => 500
    case Success(_) => 200
  }

  /** `split('-')[0]`: everything before the first hyphen, or the whole
      string when there is none. */
  function FirstSegment(s: string): (r: string)
    ensures '-' !in r
    ensures r <= s
    ensures |r| < |s| ==> s[|r|] == '-'
  {
    if s == [] || s[0] == '-' then []
    else [s[0]] + FirstSegment(s[1..])
  }

  predicate IsLower(c: char) {
    'a' <= c <= 'z'
  }

  /** `toUpperCase` on one character, for the ASCII letters a UUID holds. */
  function UpperChar(c: char): char {
    if IsLower(c) then (c as int - 32) as char else c
  }

  /** `toUpperCase`: lower-case ASCII letters become upper-case, every other
      character is kept. */
  function ToUpper(s: string): (r: string)
    ensures |r| == |s|
    ensures forall i :: 0 <= i < |r| ==> !IsLower(r[i])
    ensures forall i :: 0 <= i < |s| && !IsLower(s[i]) ==> r[i] == s[i]
    ensures forall i :: 0 <= i < |s| && IsLower(s[i]) ==> r[i] as int == s[i] as int - 32
  {
    seq(|s|, i requires 0 <= i < |s| => UpperChar(s[i]))
  }

  /** `REC-` followed by the upper-cased first hyphen-separated segment of the UUID. */
  function ReceiptId(uuid: string): (r: string)
    ensures |r| >= |ReceiptPrefix| && r[..|ReceiptPrefix|] == ReceiptPrefix
    ensures '-' !in r[|ReceiptPrefix|..]
    ensures forall i :: |ReceiptPrefix| <= i < |r| ==> !IsLower(r[i])
  {
    var segment := ToUpper(FirstSegment(uuid));
    assert forall i :: 0 <= i < |segment| ==> segment[i] != '-' by {
      var raw := FirstSegment(uuid);
      forall i | 0 <= i < |segment| ensures segment[i] != '-' {
        assert raw[i] in raw;
      }
    }
    var r := ReceiptPrefix + segment;
    assert r[|ReceiptPrefix|..] == segment;
    r
  }

  /** The route handler. */
  function Post(body: Body, uuid: string, now: string): (r: Response)
    ensures r.InternalError? <==> body.Unparseable?
    ensures r.CartIsEmpty? <==> body.Json? && (body.items.None? || |body.items.value| == 0)
    ensures r.Success? ==>
              body.Json? && body.items.Some? &&
              r.transaction.items == body.items.value &&
              r.transaction.totalPrice == body.totalPrice &&
              r.transaction.totalWeight == body.totalWeight &&
              r.transaction.status == SuccessStatus &&
              r.transaction.receiptId == ReceiptId(uuid) &&
              r.transaction.timestamp == now
  {
    match body
    case Unparseable => InternalError
    case Json(items, totalPrice, totalWeight) =>
      if items.None? || |items.value| == 0 then CartIsEmpty
      else Success(Transaction(ReceiptId(uuid), items.value, totalPrice, totalWeight, now, SuccessStatus))
  }

  /** The segment before the first hyphen is recovered exactly. */
  lemma {:induction false} FirstSegmentOfJoin(head: string, rest: string)
    requires '-' !in head
    ensures FirstSegment(head + "-" + rest) == head
  {
    if head != [] {
      assert (head + "-" + rest)[1..] == head[1..] + "-" + rest;
      FirstSegmentOfJoin(head[1..], rest);
    }
  }

  /** Upper-casing twice is upper-casing once. */
  lemma ToUpperIdempotent(s: string)
    ensures ToUpper(ToUpper(s)) == ToUpper(s)
  {
  }

  /** For a UUID written `head-rest`, the receipt id is `REC-` and the
      upper-cased head; for a standard version-4 UUID, whose head has eight
      hex digits, it is twelve characters long. */
  lemma ReceiptIdOfUuid(head: string, rest: string)
    requires '-' !in head
    ensures ReceiptId(head + "-" + rest) == ReceiptPrefix + ToUpper(head)
    ensures |ReceiptId(head + "-" + rest)| == 4 + |head|
  {
    FirstSegmentOfJoin(head, rest);
  }

  /** The route echoes the submitted totals without checking them against
      the items: one chocolate submitted with a total price of 0 is accepted
      with that total. */
  lemma TotalsAreNotChecked(uuid: string, now: string)
    ensures var chocolate := Item(Str("1"), "Classic Milk Chocolate", 45, 100);
            var r := Post(Json(Some([CartLine(chocolate, 1)]), Some(0), Some(0)), uuid, now);
            r.Success? && r.transaction.totalPrice == Some(0) &&
            Sigma(r.transaction.items, Price) == 45
  {
    var chocolate := Item(Str("1"), "Classic Milk Chocolate", 45, 100);
    var items := [CartLine(chocolate, 1)];
    assert items[1..] == [];
  }

  /** A cart submitted with its own store totals comes back with totals equal
      to the sums over the echoed items. */
  lemma SubmittedCartTotalsMatch(cart: Cart, uuid: string, now: string)
    requires |cart| > 0
    ensures var r := Post(Json(Some(cart), Some(TotalPrice(cart)), Some(TotalWeight(cart))), uuid, now);
            r.Success? &&
            r.transaction.totalPrice == Some(Sigma(r.transaction.items, Price)) &&
            r.transaction.totalWeight == Some(Sigma(r.transaction.items, Weight))
  {
  }
}
