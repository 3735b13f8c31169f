/** The admin cash-collection flow (src/app/admin/page.tsx) as a pure state
    machine: idle → scanning → pending cash → processing → success → idle.
    The settlement timer is an event, and the record it writes is the one
    its closure captured when cash was confirmed. */
module AdminCash {
  import opened Optional

  datatype Status = PendingCash | Paid

  /** The status strings the page stores and compares. */
  function StatusText(s: Status): string {
    match s
    case PendingCash => "PENDING_CASH"
    case Paid => "SUCCESS"
  }

  datatype OrderItem = OrderItem(name: string, qty: int, price: int)

  /** The customer record the page builds from a decoded QR text. */
  datatype CustomerRecord = CustomerRecord(id: string, name: string, items: seq<OrderItem>, total: int, status: Status)

  /** `isScanning`, `scannedCustomer`, and the pending settlement: Some(c)
      while `isProcessingCash` is set, holding the record the timer's closure
      captured. The confirm button is disabled while it is set and the timer
      always clears it, so at most one timer is ever pending. */
  datatype State = State(isScanning: bool, scannedCustomer: Option<CustomerRecord>, processing: Option<CustomerRecord>)

  datatype Event =
    | OpenScanner          // "Open Scanner" and "Scan Customer QR"
    | CloseScanner         // the scanner overlay's close button
    | Decoded(text: string) // the camera's success callback, or the simulate button
    | ConfirmCash          // "Confirm Cash Received"
    | CashTimerFired       // the settlement delay ran out
    | Dismiss              // the modal's close button, or "Done"

  const Initial: State := State(false, None, None)

  const MockItems: seq<OrderItem> := [
    OrderItem("Classic Milk Chocolate", 2, 90),
    OrderItem("Organic Green Tea", 1, 250)
  ]

  const MockTotal: int := 340

  /** The sum of the listed item prices (each price is already the line's amount). */
  function SumPrices(items: seq<OrderItem>): int {
    if items == [] then 0 else items[0].price + SumPrices(items[1..])
  }

  /** A record whose total is the sum of its item prices. */
  predicate Consistent(c: CustomerRecord) {
    c.total == SumPrices(c.items)
  }

  /** The fixed order the page shows for any decoded text. */
  function MockOrder(text: string): (c: CustomerRecord)
    ensures c.id == text && c.status == PendingCash && c.total == 340
    ensures Consistent(c)
  {
    assert MockItems[1..][1..] == [];
    CustomerRecord(text, "Rahul Sharma", MockItems, MockTotal, PendingCash)
  }

  /** `onScanSuccess`: show the decoded customer's order awaiting cash and
      close the scanner. No guard: a decode at any time rewrites the record. */
  function OnScanSuccess(s: State, text: string): (r: State)
    ensures r.scannedCustomer.Some? && r.scannedCustomer.value.id == text
    ensures r.scannedCustomer.value.status == PendingCash && r.scannedCustomer.value.total == 340
    ensures !r.isScanning && r.processing == s.processing
  {
    s.(scannedCustomer := Some(MockOrder(text)), isScanning := false)
  }

  /** The confirm button is rendered for a record that is not yet paid and
      is disabled while a settlement is pending. */
  predicate ConfirmEnabled(s: State) {
    s.scannedCustomer.Some? && s.scannedCustomer.value.status != Paid && s.processing.None?
  }

  /** `handleCashReceived`, reached only through an enabled button: start
      processing, with the current record captured for the timer. */
  function HandleCashReceived(s: State): (r: State)
    ensures ConfirmEnabled(s) ==> r.processing == s.scannedCustomer && r.scannedCustomer == s.scannedCustomer
    ensures !ConfirmEnabled(s) ==> r == s
    ensures r.isScanning == s.isScanning
  {
    if ConfirmEnabled(s) then s.(processing := s.scannedCustomer) else s
  }

  /** The settlement timer: stop processing and write the captured record
      back with only its status replaced by SUCCESS, whatever is shown now. */
  function SettlementDone(s: State): (r: State)
    ensures s.processing.Some? ==>
              r.processing.None? &&
              r.scannedCustomer == Some(s.processing.value.(status := Paid))
    ensures s.processing.None? ==> r == s
    ensures r.isScanning == s.isScanning
  {
    match s.processing
    case None => s
    case Some(captured) => s.(processing := None, scannedCustomer := Some(captured.(status := Paid)))
  }

  /** One event on the admin page. Opening and closing the scanner change
      only the scanning flag; dismissing clears the shown record and leaves
      a pending settlement pending. */
  function Step(s: State, e: Event): (r: State)
    ensures e.OpenScanner? ==>
              r.isScanning && r.scannedCustomer == s.scannedCustomer && r.processing == s.processing
    ensures e.CloseScanner? ==>
              !r.isScanning && r.scannedCustomer == s.scannedCustomer && r.processing == s.processing
    ensures e.Dismiss? ==>
              r.scannedCustomer.None? && r.isScanning == s.isScanning && r.processing == s.processing
    ensures e.Decoded? ==> r == OnScanSuccess(s, e.text)
    ensures e.ConfirmCash? ==> r == HandleCashReceived(s)
    ensures e.CashTimerFired? ==> r == SettlementDone(s)
  {
    match e
    case OpenScanner => s.(isScanning := true)
    case CloseScanner => s.(isScanning := false)
    case Decoded(text) => OnScanSuccess(s, text)
    case ConfirmCash => HandleCashReceived(s)
    case CashTimerFired => SettlementDone(s)
    case Dismiss => s.(scannedCustomer := None)
  }

  function Run(s: State, events: seq<Event>): State
    decreases |events|
  {
    if events == [] then s else Run(Step(s, events[0]), events[1..])
  }

  /** What the modal shows. */
  datatype Modal = Hidden | PaymentConfirmed | CashPayment(confirmEnabled: bool)

  function Render(s: State): (m: Modal)
    ensures m.Hidden? <==> s.scannedCustomer.None?
    ensures m.PaymentConfirmed? <==> s.scannedCustomer.Some? && StatusText(s.scannedCustomer.value.status) == "SUCCESS"
    ensures m.CashPayment? ==> (m.confirmEnabled <==> s.processing.None?)
  {
    match s.scannedCustomer
    case None => Hidden
    case Some(c) => if c.status == Paid then PaymentConfirmed else CashPayment(s.processing.None?)
  }

  /** The invariant of every reachable state: each record, shown or
      captured, has a total equal to the sum of its item prices, and a
      captured record is still awaiting cash. */
  predicate Inv(s: State) {
    && (s.scannedCustomer.Some? ==> Consistent(s.scannedCustomer.value))
    && (s.processing.Some? ==> Consistent(s.processing.value) && s.processing.value.status == PendingCash)
  }

  lemma StepPreservesInv(s: State, e: Event)
    requires Inv(s)
    ensures Inv(Step(s, e))
  {
  }

  lemma {:induction false} RunPreservesInv(s: State, events: seq<Event>)
    requires Inv(s)
    ensures Inv(Run(s, events))
    decreases |events|
  {
    if events != [] {
      StepPreservesInv(s, events[0]);
      RunPreservesInv(Step(s, events[0]), events[1..]);
    }
  }

  /** The mock order's 340 is the sum of its listed prices, 90 + 250. */
  lemma MockTotalIsItemSum()
    ensures SumPrices(MockItems) == 90 + 250 == MockTotal
  {
    assert MockItems[1..][1..] == [];
  }

  /** Decoding the same text twice gives the state decoding it once gives. */
  lemma DecodeIdempotent(s: State, text: string)
    ensures Step(Step(s, Decoded(text)), Decoded(text)) == Step(s, Decoded(text))
  {
  }

  /** Confirming again while processing changes nothing. */
  lemma ConfirmDisabledWhileProcessing(s: State)
    requires s.processing.Some?
    ensures Step(s, ConfirmCash) == s
  {
  }

  /** The whole flow: open, decode, confirm, settle, done returns to idle,
      passing through scanning, the cash view, processing and the success view. */
  lemma HappyPath(text: string)
    ensures var s1 := Step(Initial, OpenScanner);
            var s2 := Step(s1, Decoded(text));
            var s3 := Step(s2, ConfirmCash);
            var s4 := Step(s3, CashTimerFired);
            && s1.isScanning && Render(s1).Hidden?
            && !s2.isScanning && Render(s2) == CashPayment(true)
            && s2.scannedCustomer.value.id == text
            && Render(s3) == CashPayment(false)
            && Render(s4).PaymentConfirmed? && s4.processing.None?
            && Run(Initial, [OpenScanner, Decoded(text), ConfirmCash, CashTimerFired, Dismiss]) == Initial
  {
    var s1 := Step(Initial, OpenScanner);
    var s2 := Step(s1, Decoded(text));
    var s3 := Step(s2, ConfirmCash);
    var s4 := Step(s3, CashTimerFired);
    var s5 := Step(s4, Dismiss);
    assert s5 == Initial;
    assert Run(s4, [Dismiss]) == s5 by {
      assert [Dismiss][1..] == [];
    }
    assert Run(s3, [CashTimerFired, Dismiss]) == s5 by {
      assert [CashTimerFired, Dismiss][1..] == [Dismiss];
    }
    assert Run(s2, [ConfirmCash, CashTimerFired, Dismiss]) == s5 by {
      assert [ConfirmCash, CashTimerFired, Dismiss][1..] == [CashTimerFired, Dismiss];
    }
    assert Run(s1, [Decoded(text), ConfirmCash, CashTimerFired, Dismiss]) == s5 by {
      assert [Decoded(text), ConfirmCash, CashTimerFired, Dismiss][1..] == [ConfirmCash, CashTimerFired, Dismiss];
    }
    assert [OpenScanner, Decoded(text), ConfirmCash, CashTimerFired, Dismiss][1..]
           == [Decoded(text), ConfirmCash, CashTimerFired, Dismiss];
  }

  /** Dismiss and Done clear the record and hide the modal; with no
      settlement pending this is the idle state again. */
  lemma DismissReturnsToIdle(s: State)
    requires !s.isScanning && s.processing.None?
    ensures Render(Step(s, Dismiss)).Hidden?
    ensures Step(s, Dismiss) == Initial
  {
  }

  /** Dismissing the modal while cash is processing does not stick: the
      timer writes the captured record back, now paid. */
  lemma DismissDuringProcessingReappears(text: string)
    ensures var s := Step(Step(Step(Step(Initial, Decoded(text)), ConfirmCash), Dismiss), CashTimerFired);
            s.scannedCustomer == Some(MockOrder(text).(status := Paid))
  {
  }

  /** A customer decoded while another's cash is processing is replaced,
      when the timer fires, by the earlier customer's paid record. */
  lemma DecodeDuringProcessingIsOverwritten(first: string, second: string)
    ensures var s := Step(Step(Step(Step(Initial, Decoded(first)), ConfirmCash), Decoded(second)), CashTimerFired);
            s.scannedCustomer.value.id == first && s.scannedCustomer.value.status == Paid
  {
  }
}
