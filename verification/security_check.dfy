/** The security exit check (src/app/security/page.tsx) as a pure state
    machine: scan a receipt, weigh the bag, show a verdict within a 50 g
    tolerance. The camera callback and the verification delay are events. */
module SecurityCheck {
  import opened Optional

  datatype Screen = ScanScreen | WeightScreen | ResultScreen

  datatype ReceiptItem = ReceiptItem(name: string, quantity: int)

  /** The receipt the page synthesizes for a decoded id. */
  datatype ReceiptData = ReceiptData(receiptId: string, expectedWeight: int, totalPrice: int, items: seq<ReceiptItem>)

  /** What the weight slider can produce: `parseInt` of a range input with
      min 0 and max 1000. */
  type SliderValue = x: int | 0 <= x <= 1000

  const CameraMessage: string := "Camera access required for verification."

  /** The page's `useState` values; a verification timer is pending exactly
      while `isVerifying` is set, since the button is disabled meanwhile and
      the timer clears it. */
  datatype State = State(step: Screen, receiptData: Option<ReceiptData>, actualWeight: int, isVerifying: bool, error: Option<string>)

  datatype Event =
    | Decoded(text: string)        // the camera's success callback, or the simulate button
    | CameraFailed                 // the camera's start promise rejected
    | SlideWeight(value: SliderValue)
    | VerifyPressed                // "Verify Weight"
    | VerifyTimerFired             // the verification delay ran out
    | NextCustomer                 // "Next Customer"

  const Initial: State := State(ScanScreen, None, 0, false, None)

  /** Grams allowed between the expected and the observed weight. */
  const Tolerance: int := 50

  function MockReceipt(text: string): (r: ReceiptData)
    ensures r.receiptId == text && r.expectedWeight == 450 && r.totalPrice == 340
  {
    ReceiptData(text, 450, 340, [ReceiptItem("Classic Milk Chocolate", 2), ReceiptItem("Organic Green Tea", 1)])
  }

  /** `receiptData?.expectedWeight || 0`. */
  function ExpectedWeight(receipt: Option<ReceiptData>): (w: int)
    ensures receipt.None? ==> w == 0
    ensures receipt.Some? ==> w == receipt.value.expectedWeight
  {
    match receipt
    case None => 0
    case Some(r) => r.expectedWeight
  }

  function Abs(x: int): int {
    if x < 0 then -x else x
  }

  /** `weightMismatch`: the observed weight lies outside the closed window of
      the tolerance around the expected weight. */
  function WeightMismatch(actual: int, receipt: Option<ReceiptData>): (m: bool)
    ensures !m <==> ExpectedWeight(receipt) - Tolerance <= actual <= ExpectedWeight(receipt) + Tolerance
  {
    Abs(actual - ExpectedWeight(receipt)) > Tolerance
  }

  datatype Verdict = Verified | Mismatch

  /** The verdict the result screen shows. */
  function VerdictOf(s: State): (v: Verdict)
    ensures v == Verified <==> !WeightMismatch(s.actualWeight, s.receiptData)
  {
    if WeightMismatch(s.actualWeight, s.receiptData) then Mismatch else Verified
  }

  /** `onScanSuccess`: load the mock receipt for the decoded id and move to
      the weight screen. No guard: a late decode reloads the receipt. */
  function OnScanSuccess(s: State, text: string): (r: State)
    ensures r.step == WeightScreen
    ensures r.receiptData.Some? && r.receiptData.value.receiptId == text
    ensures ExpectedWeight(r.receiptData) == 450
    ensures r.actualWeight == s.actualWeight && r.isVerifying == s.isVerifying
  {
    s.(receiptData := Some(MockReceipt(text)), step := WeightScreen)
  }

  /** `handleWeightVerification`, reached only through the weight screen's
      button, which is disabled while verifying. */
  function HandleWeightVerification(s: State): (r: State)
    ensures s.step == WeightScreen && !s.isVerifying ==> r.isVerifying && r.step == WeightScreen
    ensures !(s.step == WeightScreen && !s.isVerifying) ==> r == s
    ensures r.actualWeight == s.actualWeight && r.receiptData == s.receiptData
  {
    if s.step == WeightScreen && !s.isVerifying then s.(isVerifying := true) else s
  }

  /** The verification timer: stop verifying and show the result, with the
      weight and the receipt as they are. */
  function VerificationDone(s: State): (r: State)
    ensures s.isVerifying ==> r.step == ResultScreen && !r.isVerifying
    ensures !s.isVerifying ==> r == s
    ensures r.actualWeight == s.actualWeight && r.receiptData == s.receiptData
  {
    if s.isVerifying then s.(isVerifying := false, step := ResultScreen) else s
  }

  /** `reset`: back to the scan screen with nothing loaded. */
  function Reset(s: State): (r: State)
    ensures r.step == ScanScreen && r.receiptData.None? && r.actualWeight == 0 && r.error.None?
    ensures r.isVerifying == s.isVerifying
  {
    s.(step := ScanScreen, receiptData := None, actualWeight := 0, error := None)
  }

  /** One event on the security page. The slider acts only on the weight
      screen and "Next Customer" only on the result screen, where they are
      rendered; a camera failure only sets the error. */
  function Step(s: State, e: Event): (r: State)
    ensures e.SlideWeight? && s.step == WeightScreen ==>
              r.actualWeight == e.value && r.step == s.step && r.receiptData == s.receiptData &&
              r.isVerifying == s.isVerifying
    ensures e.SlideWeight? && s.step != WeightScreen ==> r == s
    ensures e.NextCustomer? && s.step == ResultScreen ==>
              r.step == ScanScreen && CameraActive(r) && r.receiptData.None? && r.actualWeight == 0 && r.error.None?
    ensures e.NextCustomer? && s.step != ResultScreen ==> r == s
    ensures e.CameraFailed? ==>
              r.error == Some(CameraMessage) && r.step == s.step && r.receiptData == s.receiptData &&
              r.actualWeight == s.actualWeight && r.isVerifying == s.isVerifying
    ensures e.Decoded? ==> r == OnScanSuccess(s, e.text)
    ensures e.VerifyPressed? ==> r == HandleWeightVerification(s)
    ensures e.VerifyTimerFired? ==> r == VerificationDone(s)
  {
    match e
    case Decoded(text) => OnScanSuccess(s, text)
    case CameraFailed => s.(error := Some(CameraMessage))
    case SlideWeight(v) => if s.step == WeightScreen then s.(actualWeight := v) else s
    case VerifyPressed => HandleWeightVerification(s)
    case VerifyTimerFired => VerificationDone(s)
    case NextCustomer => if s.step == ResultScreen then Reset(s) else s
  }

  function Run(s: State, events: seq<Event>): State
    decreases |events|
  {
    if events == [] then s else Run(Step(s, events[0]), events[1..])
  }

  /** The camera runs on the scan screen only. */
  predicate CameraActive(s: State) {
    s.step == ScanScreen
  }

  /** A difference of exactly 50 g passes; one more gram fails, on either side. */
  lemma ToleranceBoundary(receipt: Option<ReceiptData>)
    ensures var e := ExpectedWeight(receipt);
            !WeightMismatch(e + 50, receipt) && !WeightMismatch(e - 50, receipt) &&
            WeightMismatch(e + 51, receipt) && WeightMismatch(e - 51, receipt)
  {
  }

  /** With no receipt loaded the expected weight is 0, so any weight up to
      50 g passes. */
  lemma NoReceiptExpectsZero(actual: SliderValue)
    ensures WeightMismatch(actual, None) <==> actual > 50
  {
  }

  /** The documented scenario: scan a receipt, set the slider, verify, and
      wait; 460 g is VERIFIED and 600 g is a MISMATCH against 450 g. */
  lemma {:induction false} WeighingScenario(text: string, actual: SliderValue)
    ensures var s := Run(Initial, [Decoded(text), SlideWeight(actual), VerifyPressed, VerifyTimerFired]);
            s.step == ResultScreen && s.actualWeight == actual &&
            (actual == 460 ==> VerdictOf(s) == Verified) &&
            (actual == 600 ==> VerdictOf(s) == Mismatch)
  {
    var events := [Decoded(text), SlideWeight(actual), VerifyPressed, VerifyTimerFired];
    var s1 := Step(Initial, events[0]);
    var s2 := Step(s1, events[1]);
    var s3 := Step(s2, events[2]);
    var s4 := Step(s3, events[3]);
    assert Run(s3, events[3..]) == s4 by {
      assert events[3..][1..] == [];
    }
    assert Run(s2, events[2..]) == s4 by {
      assert events[2..][1..] == events[3..];
    }
    assert Run(s1, events[1..]) == s4 by {
      assert events[1..][1..] == events[2..];
    }
    assert Run(Initial, events) == s4;
  }

  /** The verification timer keeps the weight and the receipt. */
  lemma TimerKeepsWeightAndReceipt(s: State)
    requires s.step == WeightScreen && s.isVerifying
    ensures var r := Step(s, VerifyTimerFired);
            r.step == ResultScreen && r.actualWeight == s.actualWeight && r.receiptData == s.receiptData
  {
  }

  /** The invariant of every reachable state: the observed weight is a
      slider value. */
  predicate Inv(s: State) {
    0 <= s.actualWeight <= 1000
  }

  lemma StepPreservesInv(s: State, e: Event)
    requires Inv(s)
    ensures Inv(Step(s, e))
  {
  }

  lemma {:induction false} RunPreservesInv(s: State, events: seq<Event>)
    requires Inv(s)
    ensures Inv(Run(s, events))
    decreases |events|
  {
    if events != [] {
      StepPreservesInv(s, events[0]);
      RunPreservesInv(Step(s, events[0]), events[1..]);
    }
  }

  /** From the result screen, "Next Customer" returns to the initial state
      and turns the camera back on. */
  lemma NextCustomerRestarts(s: State)
    requires s.step == ResultScreen && !s.isVerifying
    ensures Step(s, NextCustomer) == Initial
    ensures CameraActive(Step(s, NextCustomer))
  {
  }
}
