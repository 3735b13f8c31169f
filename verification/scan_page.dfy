/** The customer scan page (src/app/customer/scan/page.tsx) as a pure state
    machine: camera decodes, the error timer, the manual-entry form and the
    product sheet are events, and the store's cart is part of the state. */
module ScanPage {
  import opened Optional
  import opened Store
  import Catalog

  /** The page's own barcode table, as written in the page; it is not the
      catalog (see TableDisagreesWithCatalog). Its ids are numbers. */
  const LocalTable: map<string, Item> := map[
    "8901234567890" := Item(Num(1), "Classic Milk Chocolate", 90, 100),
    "8901234567891" := Item(Num(2), "Organic Green Tea", 250, 50),
    "8901234567892" := Item(Num(3), "Greek Yogurt", 65, 200)
  ]

  datatype ScanError = ProductNotFound | CameraUnavailable

  function Message(e: ScanError): string {
    match e
    case ProductNotFound => "Product not found. Please try again."
    case CameraUnavailable => "Camera access denied or not found."
  }

  /** The page's `useState` values, the number of not-found timers still
      pending, and the store's cart. */
  datatype State = State(
    isScanning: bool,
    scannedProduct: Option<Item>,
    showManualInput: bool,
    manualBarcode: string,
    error: Option<ScanError>,
    pendingErrorTimers: nat,
    cart: Cart)

  datatype Event =
    | Decoded(text: string)          // the camera's success callback
    | CameraFailed                   // the camera's start promise rejected
    | ErrorTimerFired                // a not-found timer ran out
    | DismissError                   // the toast's close button
    | ToggleManualInput              // the keyboard button in the header
    | CancelManualInput              // the form's Cancel button
    | EditManualBarcode(text: string)
    | SubmitManual                   // the form's "Find Item"
    | AddToCartPressed               // the sheet's "Add to Cart"
    | CancelProduct                  // the sheet's Cancel button

  /** The page as it mounts over the store's current cart. */
  function Initial(cart: Cart): (s: State)
    ensures CameraActive(s) && s.cart == cart && s.error.None?
    ensures s.manualBarcode == "" && s.pendingErrorTimers == 0
  {
    State(true, None, false, "", None, 0, cart)
  }

  /** The effect's condition for starting the camera. */
  predicate CameraActive(s: State) {
    s.isScanning && !s.showManualInput && s.scannedProduct.None?
  }

  /** `handleProductLookup`: a table hit opens the product sheet and stops
      scanning; a miss shows the not-found error and starts its timer. */
  function HandleProductLookup(s: State, barcode: string): (r: State)
    ensures barcode in LocalTable ==>
              r.scannedProduct == Some(LocalTable[barcode]) && !r.isScanning &&
              r.error == s.error && r.pendingErrorTimers == s.pendingErrorTimers
    ensures barcode !in LocalTable ==>
              r.error == Some(ProductNotFound) && r.pendingErrorTimers == s.pendingErrorTimers + 1 &&
              r.scannedProduct == s.scannedProduct && r.isScanning == s.isScanning
    ensures r.cart == s.cart
    ensures r.showManualInput == s.showManualInput && r.manualBarcode == s.manualBarcode
  {
    if barcode in LocalTable then
      s.(scannedProduct := Some(LocalTable[barcode]), isScanning := false)
    else
      s.(error := Some(ProductNotFound), pendingErrorTimers := s.pendingErrorTimers + 1)
  }

  /** `handleManualSubmit`: an empty field does nothing; otherwise look the
      field up, then close the form and clear the field whatever the
      lookup found. */
  function HandleManualSubmit(s: State): (r: State)
    ensures s.manualBarcode == "" ==> r == s
    ensures s.manualBarcode != "" ==>
              !r.showManualInput && r.manualBarcode == "" &&
              r.scannedProduct == HandleProductLookup(s, s.manualBarcode).scannedProduct &&
              r.error == HandleProductLookup(s, s.manualBarcode).error &&
              r.isScanning == HandleProductLookup(s, s.manualBarcode).isScanning &&
              r.pendingErrorTimers == HandleProductLookup(s, s.manualBarcode).pendingErrorTimers
    ensures r.cart == s.cart
  {
    if s.manualBarcode == "" then s
    else HandleProductLookup(s, s.manualBarcode).(showManualInput := false, manualBarcode := "")
  }

  /** `handleAddToCart`: with a product on the sheet, add it to the cart
      once, close the sheet and scan again; without one, nothing. */
  function HandleAddToCart(s: State): (r: State)
    ensures s.scannedProduct.None? ==> r == s
    ensures s.scannedProduct.Some? ==>
              r.cart == AddToCart(s.cart, s.scannedProduct.value) &&
              r.scannedProduct.None? && r.isScanning &&
              r.showManualInput == s.showManualInput && r.error == s.error
  {
    match s.scannedProduct
    case None => s
    case Some(p) => s.(cart := AddToCart(s.cart, p), scannedProduct := None, isScanning := true)
  }

  /** The sheet's Cancel: close the sheet and scan again; the cart is untouched. */
  function CancelSheet(s: State): (r: State)
    ensures r.scannedProduct.None? && r.isScanning && r.cart == s.cart
    ensures r.showManualInput == s.showManualInput && r.manualBarcode == s.manualBarcode
    ensures r.error == s.error && r.pendingErrorTimers == s.pendingErrorTimers
    ensures CameraActive(r) <==> !s.showManualInput
  {
    s.(scannedProduct := None, isScanning := true)
  }

  /** A not-found timer clears whatever error is showing, even one raised
      after it was started. */
  function ErrorTimeout(s: State): (r: State)
    ensures s.pendingErrorTimers > 0 ==> r.error.None? && r.pendingErrorTimers == s.pendingErrorTimers - 1
    ensures s.pendingErrorTimers == 0 ==> r == s
    ensures r.cart == s.cart && r.scannedProduct == s.scannedProduct
    ensures r.isScanning == s.isScanning && r.showManualInput == s.showManualInput && r.manualBarcode == s.manualBarcode
  {
    if s.pendingErrorTimers > 0 then s.(error := None, pendingErrorTimers := s.pendingErrorTimers - 1)
    else s
  }

  /** One event on the scan page. The events without a handler of their own
      each set one field: the camera failure and the toast's close button
      set the error, the keyboard button and the form's Cancel open or close
      the manual form, and typing replaces the field. */
  function Step(s: State, e: Event): (r: State)
    ensures e.Decoded? ==> r == HandleProductLookup(s, e.text)
    ensures e.SubmitManual? ==> r == HandleManualSubmit(s)
    ensures e.AddToCartPressed? ==> r == HandleAddToCart(s)
    ensures e.CancelProduct? ==> r == CancelSheet(s)
    ensures e.ErrorTimerFired? ==> r == ErrorTimeout(s)
    ensures e.CameraFailed? ==>
              r.error == Some(CameraUnavailable) && r.pendingErrorTimers == s.pendingErrorTimers &&
              r.isScanning == s.isScanning && r.scannedProduct == s.scannedProduct &&
              r.showManualInput == s.showManualInput && r.manualBarcode == s.manualBarcode && r.cart == s.cart
    ensures e.DismissError? ==>
              r.error.None? && r.pendingErrorTimers == s.pendingErrorTimers &&
              r.isScanning == s.isScanning && r.scannedProduct == s.scannedProduct &&
              r.showManualInput == s.showManualInput && r.manualBarcode == s.manualBarcode && r.cart == s.cart
    ensures e.ToggleManualInput? ==>
              r.showManualInput == !s.showManualInput &&
              r.isScanning == s.isScanning && r.scannedProduct == s.scannedProduct &&
              r.manualBarcode == s.manualBarcode && r.error == s.error &&
              r.pendingErrorTimers == s.pendingErrorTimers && r.cart == s.cart
    ensures e.CancelManualInput? ==>
              !r.showManualInput && r.isScanning == s.isScanning && r.scannedProduct == s.scannedProduct &&
              r.manualBarcode == s.manualBarcode && r.error == s.error &&
              r.pendingErrorTimers == s.pendingErrorTimers && r.cart == s.cart
    ensures e.EditManualBarcode? ==>
              r.manualBarcode == e.text && r.showManualInput == s.showManualInput &&
              r.isScanning == s.isScanning && r.scannedProduct == s.scannedProduct &&
              r.error == s.error && r.pendingErrorTimers == s.pendingErrorTimers && r.cart == s.cart
  {
    match e
    case Decoded(text) => HandleProductLookup(s, text)
    case CameraFailed => s.(error := Some(CameraUnavailable))
    case ErrorTimerFired => ErrorTimeout(s)
    case DismissError => s.(error := None)
    case ToggleManualInput => s.(showManualInput := !s.showManualInput)
    case CancelManualInput => s.(showManualInput := false)
    case EditManualBarcode(text) => s.(manualBarcode := text)
    case SubmitManual => HandleManualSubmit(s)
    case AddToCartPressed => HandleAddToCart(s)
    case CancelProduct => CancelSheet(s)
  }

  function Run(s: State, events: seq<Event>): State
    decreases |events|
  {
    if events == [] then s else Run(Step(s, events[0]), events[1..])
  }

  /** Only "Add to Cart" with a product on the sheet changes the cart. */
  lemma CartChangesOnlyOnAdd(s: State, e: Event)
    ensures Step(s, e).cart != s.cart ==> e.AddToCartPressed? && s.scannedProduct.Some?
  {
  }

  /** Every event keeps the cart invariant. */
  lemma StepPreservesValidCart(s: State, e: Event)
    requires Valid(s.cart)
    ensures Valid(Step(s, e).cart)
  {
    if e.AddToCartPressed? && s.scannedProduct.Some? {
      AddPreservesValid(s.cart, s.scannedProduct.value);
    }
  }

  /** Any sequence of events keeps the cart invariant. */
  lemma {:induction false} RunPreservesValidCart(s: State, events: seq<Event>)
    requires Valid(s.cart)
    ensures Valid(Run(s, events).cart)
    decreases |events|
  {
    if events != [] {
      StepPreservesValidCart(s, events[0]);
      RunPreservesValidCart(Step(s, events[0]), events[1..]);
    }
  }

  /** An unknown barcode leaves the sheet and cart as they were, and the
      timer it starts later clears the error. */
  lemma UnknownBarcodeThenTimeout(s: State, barcode: string)
    requires barcode !in LocalTable
    ensures var t := Step(Step(s, Decoded(barcode)), ErrorTimerFired);
            t.error.None? && t.scannedProduct == s.scannedProduct && t.cart == s.cart &&
            t.pendingErrorTimers == s.pendingErrorTimers
  {
  }

  /** Decoding a known barcode twice is the same as decoding it once. */
  lemma DecodeKnownIdempotent(s: State, barcode: string)
    requires barcode in LocalTable
    ensures Step(Step(s, Decoded(barcode)), Decoded(barcode)) == Step(s, Decoded(barcode))
  {
  }

  /** Adding the pending product closes the sheet and restarts the camera,
      unless the manual form is open. */
  lemma AddRestartsCamera(s: State)
    requires s.scannedProduct.Some? && !s.showManualInput
    ensures CameraActive(Step(s, AddToCartPressed))
  {
  }

  /** The page's table disagrees with the catalog: barcode …892 names a
      different product, the chocolate costs 90 instead of 45, the tea
      weighs 50 g instead of 250 g, the apple's barcode is unknown, and no
      table id equals a catalog id. */
  lemma TableDisagreesWithCatalog()
    ensures Catalog.InitialProducts[2].barcode == "8901234567892"
    ensures LocalTable["8901234567892"].name == "Greek Yogurt"
    ensures Catalog.InitialProducts[2].name == "Whole Wheat Bread"
    ensures LocalTable["8901234567890"].price == 90 && Catalog.InitialProducts[0].price == 45
    ensures LocalTable["8901234567891"].weight == 50 && Catalog.InitialProducts[1].weight == 250
    ensures Catalog.InitialProducts[3].barcode !in LocalTable
    ensures forall b, p :: b in LocalTable && p in Catalog.InitialProducts ==> LocalTable[b].id != Catalog.AsItem(p).id
  {
  }

  /** Scanning a known barcode and pressing "Add to Cart" adds its table
      entry to the cart and leaves the page scanning again. */
  lemma ScanThenAdd(s: State, barcode: string)
    requires barcode in LocalTable
    ensures Run(s, [Decoded(barcode), AddToCartPressed])
            == s.(cart := AddToCart(s.cart, LocalTable[barcode]), scannedProduct := None, isScanning := true)
  {
    var p := LocalTable[barcode];
    var s1 := s.(scannedProduct := Some(p), isScanning := false);
    LookupHit(s, barcode);
    AddFromSheet(s1, p);
    RunTwo(s, Decoded(barcode), AddToCartPressed);
  }

  /** "Add to Cart" with a product on the sheet, as one step of the page. */
  lemma AddFromSheet(s: State, p: Item)
    requires s.scannedProduct == Some(p)
    ensures Step(s, AddToCartPressed) == s.(cart := AddToCart(s.cart, p), scannedProduct := None, isScanning := true)
  {
  }

  /** A table hit, as one step of the page. */
  lemma LookupHit(s: State, barcode: string)
    requires barcode in LocalTable
    ensures Step(s, Decoded(barcode)) == s.(scannedProduct := Some(LocalTable[barcode]), isScanning := false)
  {
  }

  /** A run of two events is the two steps. */
  lemma RunTwo(s: State, e1: Event, e2: Event)
    ensures Run(s, [e1, e2]) == Step(Step(s, e1), e2)
  {
    var s1 := Step(s, e1);
    assert Run(s1, [e2]) == Step(s1, e2) by {
      assert [e2][1..] == [];
    }
    assert [e1, e2][1..] == [e2];
  }

  /** Scanning two chocolates and one tea on this page and adding each gives
      a cart of 430 and 250 g, where the catalog's prices and weights give
      340 and 450 g. */
  lemma ScanChocolatesAndTea()
    ensures var events := [Decoded("8901234567890"), AddToCartPressed,
                           Decoded("8901234567890"), AddToCartPressed,
                           Decoded("8901234567891"), AddToCartPressed];
            var cart := Run(Initial(EmptyCart), events).cart;
            cart == [CartLine(LocalTable["8901234567890"], 2), CartLine(LocalTable["8901234567891"], 1)] &&
            TotalPrice(cart) == 430 && TotalWeight(cart) == 250
  {
    var chocolate := LocalTable["8901234567890"];
    var tea := LocalTable["8901234567891"];
    ScanTwiceThenOther("8901234567890", "8901234567891");
    AddTwiceThenOther(chocolate, tea, Price);
    AddTwiceThenOther(chocolate, tea, Weight);
  }

  /** Scanning one product twice and then a different one, adding each time,
      gives a line of two and a line of one, in scan order. */
  lemma ScanTwiceThenOther(a: string, b: string)
    requires a in LocalTable && b in LocalTable && LocalTable[a].id != LocalTable[b].id
    ensures Run(Initial(EmptyCart), [Decoded(a), AddToCartPressed, Decoded(a), AddToCartPressed, Decoded(b), AddToCartPressed]).cart
            == [CartLine(LocalTable[a], 2), CartLine(LocalTable[b], 1)]
  {
    var pa := LocalTable[a];
    var pb := LocalTable[b];
    var s0 := Initial(EmptyCart);
    ScanThreeTimes(s0, a, a, b);
    ScanThenAdd(s0, a);
    var s2 := Run(s0, [Decoded(a), AddToCartPressed]);
    assert s2.cart == AddToCart(EmptyCart, pa);
    ScanThenAdd(s2, a);
    var s4 := Run(s2, [Decoded(a), AddToCartPressed]);
    ScanThenAdd(s4, b);
    AddTwiceThenOther(pa, pb, Price);
  }

  /** Three scan-and-add rounds in one run are the rounds run one after the other. */
  lemma ScanThreeTimes(s: State, a: string, b: string, c: string)
    ensures Run(s, [Decoded(a), AddToCartPressed, Decoded(b), AddToCartPressed, Decoded(c), AddToCartPressed])
            == Run(Run(Run(s, [Decoded(a), AddToCartPressed]), [Decoded(b), AddToCartPressed]), [Decoded(c), AddToCartPressed])
  {
    var x := [Decoded(a), AddToCartPressed];
    var y := [Decoded(b), AddToCartPressed];
    var z := [Decoded(c), AddToCartPressed];
    RunAppend(s, x, y);
    RunAppend(s, x + y, z);
    assert x + y + z == [Decoded(a), AddToCartPressed, Decoded(b), AddToCartPressed, Decoded(c), AddToCartPressed];
  }


  lemma {:induction false} RunAppend(s: State, a: seq<Event>, b: seq<Event>)
    ensures Run(s, a + b) == Run(Run(s, a), b)
    decreases |a|
  {
    if a == [] {
      assert a + b == b;
    } else {
      assert (a + b)[1..] == a[1..] + b;
      RunAppend(Step(s, a[0]), a[1..], b);
    }
  }
}
