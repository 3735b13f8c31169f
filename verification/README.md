# Self-checkout front-end: a verified model of its cart and check flows

This project models, in Dafny, the sequential logic of a demo "scan-and-pay"
retail self-checkout web front-end. It covers:

- **Store** — the client-side cart store: an ordered list of cart lines keyed by product id, the four
  operations `addToCart`, `removeFromCart`, `updateQuantity` and `clearCart`, and the price and weight
  totals folded over the list.
- **Catalog** — the constant product catalog.
- **ProductLookup** — `GET /api/products?barcode=…`, the exact-match barcode lookup with its missing and
  not-found outcomes.
- **Checkout** — `POST /api/checkout`: empty-cart rejection and the receipt that echoes the submitted
  order with a `REC-` id derived from a UUID.
- **CartPage** — the customer cart page: its totals, the ±1 quantity buttons, the badge and the
  empty/non-empty display.
- **ScanPage** — the customer scan page as a state machine: camera decodes, manual entry, the product
  sheet, the not-found error and its timer, with the store's cart inside the state. The page's own
  barcode table is modelled as written.
- **AdminCash** — the admin cash-collection flow: scanner, pending cash, settlement timer, paid view.
- **SecurityCheck** — the security exit check: receipt scan, simulated weighing, and a verdict within
  a 50 g tolerance.

Everything is pure: carts are `seq<CartLine>`, the pages are step functions over an explicit state, and
every camera callback, `setTimeout` completion and button press is an `Event`. A `Run` function folds
a sequence of events. Where a button is disabled in the page, the corresponding event leaves the state
unchanged in that situation. Each total is modelled twice: `Store.Fold` is the literal left `reduce`
with an accumulator, and `Store.Sigma` is an independent reference sum of unit × quantity. The lemma
`Store.FoldIsSigma` connects them. The lookup route is a function of the barcode and the constant
catalog only, so repeated calls agree by construction.

Product ids are compared with JavaScript `===`. The catalog uses string ids ("1"…"4"), while the scan
page's table uses numeric ids (1…3). `Store.Id` therefore has two constructors that never compare
equal. In this repository the page's table also disagrees with the catalog on names, prices and
weights; `ScanPage.TableDisagreesWithCatalog` records the differences.

## Model

| member | source | states |
|---|---|---|
| Store.AddToCart | src/lib/store.ts:22-34 | the added id is always in the result; for an id already present, the length is kept, every line keeps its stored item and only matching lines gain exactly one unit; for a new id, the old lines are kept as a prefix and one line of quantity 1 holding the product is appended |
| Store.AddExistingBumpsLine | src/lib/store.ts:24-30 | with distinct ids, adding a product already on line k is exactly the update of line k's quantity to q + 1, with every other line and the order unchanged |
| Store.AddTwiceMakesOneLine | src/lib/store.ts:22-34 | adding the same new product twice yields the old cart plus a single line of quantity 2 |
| Store.AddTwiceThenOther | src/lib/store.ts:22-54 | adding product a twice then a different b to the empty cart gives the lines [a×2, b×1], and each total is twice a's unit plus b's |
| Store.AddPreservesValid | src/lib/store.ts:22-34 | adding keeps ids pairwise distinct and every quantity at least 1 |
| Store.RemoveFromCart | src/lib/store.ts:35-37 | no line with the id remains, and a line is in the result exactly when it was in the cart with a different id |
| Store.RemoveDropsLine | src/lib/store.ts:35-37 | with distinct ids, removing the id on line k yields the cart without line k, the others in their order |
| Store.RemoveAbsentKeepsCart | src/lib/store.ts:35-37 | removing an id that no line carries returns the cart unchanged |
| Store.RemoveKeepsOrder | src/lib/store.ts:35-37 | removal distributes over concatenation, so the remaining lines keep their relative order |
| Store.RemovePreservesValid | src/lib/store.ts:35-37 | removal keeps the cart invariant |
| Store.Adjust | src/lib/store.ts:42-44 | the map step keeps the length and every line's item, leaves lines of other ids identical, and sets each line of the id to q + delta when that is positive and to 0 otherwise |
| Store.UpdateQuantity | src/lib/store.ts:38-47 | after the update every line has quantity at least 1 and the cart is no longer than before |
| Store.UpdateQuantityFrame | src/lib/store.ts:38-47 | on any cart, lines of other ids are kept unless they were already non-positive (the filter drops every such line), and a surviving line of the id holds the old item with quantity old + delta |
| Store.UpdateOnLine | src/lib/store.ts:38-47 | on a valid cart, for the id on line k: if q + delta > 0 the result is line k set to q + delta; otherwise it is the cart without line k; nothing else changes |
| Store.UpdateAbsentKeepsCart | src/lib/store.ts:41-45 | an id not in a cart of positive lines leaves the cart unchanged |
| Store.UpdatePreservesValid | src/lib/store.ts:38-47 | updating keeps the cart invariant |
| Store.OperationsPreserveValid | src/lib/store.ts:22-48 | from a cart with distinct ids and positive quantities, each of the four operations yields such a cart again |
| Store.ClearCart | src/lib/store.ts:48 | the result is empty |
| Store.ClearZeroesTotals | src/lib/store.ts:48-54 | after clearing, the cart is empty and both totals are 0 |
| Store.FoldIsSigma | src/lib/store.ts:49-54 | the accumulator fold equals the accumulator plus the reference sum of unit × quantity |
| Store.TotalPrice | src/lib/store.ts:49-51 | the price total equals the sum of price × quantity over the lines |
| Store.TotalWeight | src/lib/store.ts:52-54 | the weight total equals the sum of weight × quantity over the lines |
| Store.AddExistingRaisesTotals | src/lib/store.ts:24-54 | adding a product whose line stores that same product raises each total by exactly the product's price (weight) |
| Store.AddNewRaisesTotals | src/lib/store.ts:31-54 | adding a product not yet in the cart raises each total by exactly the product's price (weight) |
| Store.AddRaisesTotals | src/lib/store.ts:22-54 | adding a product raises each total by exactly the product's price (weight), given that a line already holding its id stores that same product |
| Store.RemoveLowersTotals | src/lib/store.ts:35-54 | removing the id on line k lowers each total by that line's unit × quantity |
| Store.UpdateShiftsTotals | src/lib/store.ts:38-54 | when the line survives, an update moves each total by the line's unit × delta |
| Store.UpdateDropsFromTotals | src/lib/store.ts:38-54 | when q + delta is not positive, an update lowers each total by the whole line's unit × quantity |
| Catalog.AsItem | src/lib/mockData.ts:1-9 | the cart item built from a product carries its id as a string id and its name, price and weight |
| Catalog.CatalogWellFormed | src/lib/mockData.ts:11-48 | the catalog's ids and barcodes are pairwise distinct, and every price, weight and stock is positive |
| Catalog.AsItemKeepsIdsApart | src/lib/mockData.ts:1-9 | products with different ids give cart items with different ids |
| Catalog.ChocolatesAndTeaTotals | src/lib/mockData.ts:11-29 | two chocolates and one green tea added through the store give lines [chocolate×2, tea×1], price 340 and weight 450 |
| ProductLookup.StatusCode | src/app/api/products/route.ts:8-18 | 400 exactly for a missing barcode, 404 exactly for not found, 200 exactly for a found product |
| ProductLookup.FindByBarcode | src/app/api/products/route.ts:12 | none exactly when no product has the barcode; otherwise the product has that barcode and is the first in list order that does |
| ProductLookup.Get | src/app/api/products/route.ts:4-19 | missing exactly when the parameter is absent or empty; not found exactly when it is non-empty and no catalog product carries it; a found product carries the query barcode and is in the catalog |
| ProductLookup.LookupFindsEachProduct | src/app/api/products/route.ts:12-18 | every catalog product is found, itself, by its own barcode |
| ProductLookup.FoundIsUnique | src/app/api/products/route.ts:12 | a found product is the only catalog entry with the query barcode |
| Checkout.StatusCode | src/app/api/checkout/route.ts:8-30 | 400 exactly for an empty cart, 500 exactly for an internal error, 200 exactly for success |
| Checkout.FirstSegment | src/app/api/checkout/route.ts:13 | the first segment has no hyphen, is a prefix of the input, and is followed by a hyphen whenever it is shorter than the input |
| Checkout.ToUpper | src/app/api/checkout/route.ts:13 | the length is kept, no lower-case ASCII letter remains, other characters are kept, and each lower-case letter moves to its upper-case code |
| Checkout.ReceiptId | src/app/api/checkout/route.ts:13 | the id starts with "REC-", has no hyphen after the prefix and no lower-case letter |
| Checkout.Post | src/app/api/checkout/route.ts:3-31 | unparseable JSON exactly gives the 500 outcome; absent or empty items exactly give "Cart is empty"; a success echoes the items and both totals as submitted, with status SUCCESS, the receipt id of the UUID and the given timestamp |
| Checkout.FirstSegmentOfJoin | src/app/api/checkout/route.ts:13 | for a string head-rest with a hyphen-free head, the first segment is exactly head |
| Checkout.ToUpperIdempotent | src/app/api/checkout/route.ts:13 | upper-casing twice equals upper-casing once |
| Checkout.ReceiptIdOfUuid | src/app/api/checkout/route.ts:13 | for a UUID head-rest, the receipt id is "REC-" plus the upper-cased head, 4 + the head's length long |
| Checkout.TotalsAreNotChecked | src/app/api/checkout/route.ts:15-19 | a one-chocolate order submitted with total 0 succeeds with total 0 although its items sum to 45 |
| Checkout.SubmittedCartTotalsMatch | src/app/api/checkout/route.ts:15-19 | a non-empty cart submitted with its store totals comes back with totals equal to the sums over the echoed items |
| CartPage.Render | src/app/customer/cart/page.tsx:21-118 | the badge is the number of lines; the empty state is shown exactly for an empty cart; the totals bar shows the sums of price × quantity and weight × quantity over the lines |
| CartPage.Step | src/app/customer/cart/page.tsx:29-95 | minus is updateQuantity(id, -1), plus is updateQuantity(id, +1), both staying on the page; checkout navigates to payment and leaves the cart unchanged |
| CartPage.MinusOnSingleRemoves | src/app/customer/cart/page.tsx:88 | minus on a quantity-1 line removes that line and keeps the others in order |
| CartPage.PlusRaisesLine | src/app/customer/cart/page.tsx:95 | plus sets exactly that line's quantity to q + 1 |
| CartPage.PlusRaisesTotals | src/app/customer/cart/page.tsx:95 | plus raises each total by the line's unit |
| CartPage.PlusThenMinus | src/app/customer/cart/page.tsx:88-95 | on a valid cart, minus after plus on a line restores the cart |
| CartPage.MinusThenPlus | src/app/customer/cart/page.tsx:88-95 | on a line with quantity 2 or more, plus after minus restores the cart |
| CartPage.BadgeCountsLines | src/app/customer/cart/page.tsx:44 | the badge never exceeds the total units, and is strictly smaller once any line holds two or more |
| ScanPage.Initial | src/app/customer/scan/page.tsx:22-26 | the page mounts with the camera active, no error, an empty manual field and no pending timer, over the store's cart |
| ScanPage.HandleProductLookup | src/app/customer/scan/page.tsx:60-77 | a table key opens the sheet with its entry and clears the scanning flag; an unknown barcode sets the not-found error and starts one more timer, keeping the sheet and scanning flag; the cart and manual form are never touched |
| ScanPage.HandleManualSubmit | src/app/customer/scan/page.tsx:79-86 | an empty field changes nothing; otherwise the sheet, error, scanning flag and pending-timer count are those of the lookup (a hit stops scanning, a miss starts a timer), and the form is closed and cleared even when the barcode is unknown; the cart is untouched |
| ScanPage.HandleAddToCart | src/app/customer/scan/page.tsx:88-94 | with no pending product nothing changes; otherwise the cart becomes addToCart of that product, the sheet closes and scanning resumes |
| ScanPage.CancelSheet | src/app/customer/scan/page.tsx:216 | the sheet closes and scanning resumes; the cart, manual form, field, error and timers are unchanged; the camera runs again exactly when the manual form is closed |
| ScanPage.ErrorTimeout | src/app/customer/scan/page.tsx:75 | a pending timer clears whatever error is shown and is used up; with none pending nothing changes; the cart, sheet, scanning flag, manual form and field are kept |
| ScanPage.Step | src/app/customer/scan/page.tsx:39-243 | each event is its handler; a camera failure sets the camera error and the toast's close button clears the error, both leaving sheet, scanning, form, field, timers and cart alone; the keyboard button flips the manual form and the form's Cancel closes it, each keeping sheet, scanning flag, field, error, timers and cart; typing replaces the field only |
| ScanPage.LookupHit | src/app/customer/scan/page.tsx:68-72 | decoding a table key sets the sheet to its entry and stops scanning, nothing else |
| ScanPage.AddFromSheet | src/app/customer/scan/page.tsx:88-94 | "Add to Cart" with a product on the sheet adds it, closes the sheet and resumes scanning, nothing else |
| ScanPage.CartChangesOnlyOnAdd | src/app/customer/scan/page.tsx:88-94 | an event changes the cart only if it is "Add to Cart" with a product on the sheet |
| ScanPage.StepPreservesValidCart | src/app/customer/scan/page.tsx:88-94 | every event keeps the cart invariant |
| ScanPage.RunPreservesValidCart | src/app/customer/scan/page.tsx:52-94 | every event sequence keeps the cart invariant |
| ScanPage.UnknownBarcodeThenTimeout | src/app/customer/scan/page.tsx:73-76 | an unknown barcode followed by its timer leaves no error, the same sheet, cart and pending-timer count |
| ScanPage.DecodeKnownIdempotent | src/app/customer/scan/page.tsx:68-72 | decoding a known barcode twice equals decoding it once |
| ScanPage.AddRestartsCamera | src/app/customer/scan/page.tsx:30 | adding the pending product with the manual form closed makes the camera condition true again |
| ScanPage.TableDisagreesWithCatalog | src/app/customer/scan/page.tsx:62-66 | the page's barcode …892 names Greek Yogurt where the catalog has bread; the chocolate costs 90 not 45; the tea weighs 50 not 250; the apple's barcode is unknown; no table id equals a catalog id |
| ScanPage.ScanThenAdd | src/app/customer/scan/page.tsx:60-94 | decoding a known barcode then pressing "Add to Cart" adds its table entry to the cart and leaves the page scanning with no sheet |
| ScanPage.ScanTwiceThenOther | src/app/customer/scan/page.tsx:60-94 | scanning and adding one barcode twice then a different one gives the lines [first×2, second×1] |
| ScanPage.ScanChocolatesAndTea | src/app/customer/scan/page.tsx:62-94 | two chocolates and one tea scanned on this page give a cart of price 430 and weight 250, not the catalog's 340 and 450 |
| AdminCash.MockOrder | src/app/admin/page.tsx:52-61 | the decoded text becomes the id, the status is pending cash, the total is 340 and equals the sum of the listed prices |
| AdminCash.OnScanSuccess | src/app/admin/page.tsx:51-64 | a decode shows the customer record with id = text, pending cash, total 340, closes the scanner and leaves a pending settlement alone |
| AdminCash.HandleCashReceived | src/app/admin/page.tsx:66-67 | with the button enabled, processing starts with the shown record captured; with it disabled nothing changes |
| AdminCash.SettlementDone | src/app/admin/page.tsx:68-71 | the timer stops processing and shows the captured record with only its status set to SUCCESS, whatever was shown meanwhile |
| AdminCash.Render | src/app/admin/page.tsx:285-346 | the modal is hidden exactly with no record; the success view is shown exactly when the status is SUCCESS; the cash view's confirm is enabled exactly when nothing is processing |
| AdminCash.Step | src/app/admin/page.tsx:130-312 | Open Scanner sets and Close Scanner clears the scanning flag, keeping the record and any pending settlement; Dismiss and Done clear the shown record, keeping the scanner flag and a pending settlement; the other events are their handlers |
| AdminCash.StepPreservesInv | src/app/admin/page.tsx:51-72 | every event keeps each shown or captured record's total equal to its item sum, and a captured record pending cash |
| AdminCash.RunPreservesInv | src/app/admin/page.tsx:51-72 | every event sequence keeps that invariant |
| AdminCash.MockTotalIsItemSum | src/app/admin/page.tsx:55-59 | the mock order's 340 is 90 + 250, the sum of its listed prices |
| AdminCash.DecodeIdempotent | src/app/admin/page.tsx:51-64 | decoding the same text twice equals decoding it once |
| AdminCash.ConfirmDisabledWhileProcessing | src/app/admin/page.tsx:346 | confirming while processing changes nothing |
| AdminCash.DismissReturnsToIdle | src/app/admin/page.tsx:298 | dismiss hides the modal and, with the scanner closed and nothing processing, returns to the initial state |
| AdminCash.HappyPath | src/app/admin/page.tsx:51-72 | open, decode, confirm, timer, done passes through scanning, the enabled cash view, the disabled cash view and the success view, and ends in the initial state |
| AdminCash.DismissDuringProcessingReappears | src/app/admin/page.tsx:66-72 | dismissing while cash is processing does not stick: the timer shows the captured record again, now paid |
| AdminCash.DecodeDuringProcessingIsOverwritten | src/app/admin/page.tsx:66-72 | a second customer decoded while the first is processing is replaced, at the timer, by the first customer's paid record |
| SecurityCheck.MockReceipt | src/app/security/page.tsx:42-50 | the receipt carries the decoded id, expected weight 450 and total 340 |
| SecurityCheck.ExpectedWeight | src/app/security/page.tsx:70 | the expected weight is the receipt's, or 0 with no receipt |
| SecurityCheck.WeightMismatch | src/app/security/page.tsx:70 | there is no mismatch exactly when the actual weight lies within 50 g either side of the expected weight, bounds included |
| SecurityCheck.VerdictOf | src/app/security/page.tsx:215 | the verdict is VERIFIED exactly when there is no weight mismatch |
| SecurityCheck.OnScanSuccess | src/app/security/page.tsx:39-53 | a decode loads a receipt with that id and expected weight 450 and moves to the weight screen, keeping the slider weight |
| SecurityCheck.HandleWeightVerification | src/app/security/page.tsx:55-56 | on the weight screen with the button enabled, verifying starts; otherwise nothing changes; weight and receipt are kept |
| SecurityCheck.VerificationDone | src/app/security/page.tsx:57-60 | the timer stops verifying and moves to the result screen, keeping weight and receipt |
| SecurityCheck.Reset | src/app/security/page.tsx:63-68 | reset returns to the scan screen with no receipt, weight 0 and no error |
| SecurityCheck.Step | src/app/security/page.tsx:26-254 | the slider sets the weight on the weight screen and does nothing elsewhere; "Next Customer" on the result screen returns to the scan screen with the camera on, no receipt, weight 0 and no error, and does nothing elsewhere; a camera failure sets only the error; the other events are their handlers |
| SecurityCheck.ToleranceBoundary | src/app/security/page.tsx:70 | a difference of exactly 50 g passes on either side and 51 g fails on either side |
| SecurityCheck.NoReceiptExpectsZero | src/app/security/page.tsx:70 | with no receipt, a slider weight is a mismatch exactly when it exceeds 50 |
| SecurityCheck.WeighingScenario | src/app/security/page.tsx:39-70 | decode, slide, verify and the timer reach the result screen with the slid weight; 460 g is VERIFIED and 600 g is a MISMATCH |
| SecurityCheck.TimerKeepsWeightAndReceipt | src/app/security/page.tsx:57-60 | the verification timer moves weight to result without changing the weight or the receipt |
| SecurityCheck.StepPreservesInv | src/app/security/page.tsx:164-168 | every event keeps the actual weight within [0, 1000] |
| SecurityCheck.RunPreservesInv | src/app/security/page.tsx:164-168 | every event sequence keeps the actual weight within [0, 1000] |
| SecurityCheck.NextCustomerRestarts | src/app/security/page.tsx:63-68 | "Next Customer" on the result screen returns to the initial state, where the camera runs |

## Left out

- Camera plumbing: `Html5Qrcode` start and stop, `scannerRef`, and effect clean-up are foreign library calls. Only the decode callback (`Decoded`) and the start failure (`CameraFailed`) are modelled; the camera condition is a predicate on the state.
- Real timers: every `setTimeout` is an event, and the delays are not modelled. On the scan page, the number of pending not-found timers is kept as a counter.
- HTTP and runtime: `NextResponse`, `request.json()`, `crypto.randomUUID`, `new Date().toISOString()` and `console.log` are not modelled. Parse failure is the `Unparseable` body; the UUID and the timestamp are parameters of `Checkout.Post`.
- Checkout.Post: the body is modelled as a JSON object whose `items` is a list or absent. A non-array `items`, with a `length` of its own, is not modelled.
- Checkout.ToUpper: upper-cases ASCII letters only, which is all a UUID contains. Full Unicode case mapping is not modelled.
- The cart page's own `getTotalPrice` and `getTotalWeight` repeat the store's folds expression for expression, so `CartPage.Render` uses `Store.TotalPrice` and `Store.TotalWeight`.
- Routing and rendering: Next.js routing (`router.push`, `Link`), framer-motion, images and JSX layout are not modelled. The cart page's checkout is a `ToPayment` navigation result.
- Image URLs and the `image` field of products are not modelled.
- ScanPage.HandleProductLookup: the page indexes a plain object. Keys inherited from the object prototype, such as "constructor", would be truthy there; the model treats only the three listed barcodes as hits.
- Store.AddRaisesTotals: an increment keeps the line's stored fields rather than the added product's. The exact rise is stated only when the stored item equals the added product; the scan page's table and the catalog disagree on prices, so the rise can differ otherwise.
- Store.UpdateQuantity: its contract states only positivity and length. The full frame and the per-line result are in `Store.UpdateQuantityFrame` and `Store.UpdateOnLine`.
- When the cart is cleared: no code in these files calls `clearCart` after checkout, and the payment page it navigates to is not part of this model. `Store.ClearCart` is modelled as an operation only.
- The admin page has no re-entrancy guard in its code. A decode while a record is shown, or while cash is processing, simply rewrites the record; the model follows the code, and two lemmas show the consequences.
- The admin mobile menu, the sidebar tab state and the cosmetic stepper of the security page are not modelled.
- The profile and settings pages (src/app/customer/profile/page.tsx, src/app/customer/settings/page.tsx) are not part of this model. They call store members that src/lib/store.ts does not define.
- The static pages are not part of this model: landing, help, login, history, invoice, exit and the customer home. They show fixed data or navigate, with no checked logic.
- Numbers are unbounded integers. All prices, weights and quantities in the source are small integers, so no floating point or overflow behaviour is modelled.
