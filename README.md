# Areej Al Aqhwan flower shop — a verified Dafny model of its core

The shop is a bilingual (Arabic and English) storefront and back office on Next.js and
MongoDB. This project models its core in Dafny and proves properties of the model.

**Daily QR attendance.** This is the centre of the model:
- the token generator and the four-step validator (`QrAttendance`);
- the attendance route that records one check-in per worker and day (`AttendanceRoute`);
- the worker's scan page as a state machine (`ScanPage`);
- the two attendance views (`AdminAttendance`, `WorkerHome`) and their date display (`DateDisplay`).

**Loyalty-bearing routes.** These share one customer collection (`Customers`):
- the invoice route, with its counter-driven number allocation (`InvoicesRoute`);
- the order route (`OrdersRoute`).

**Client stores and pages:**
- the shopping cart (`CartStore`) and the language store (`LanguageStore`);
- the invoice form (`InvoiceForm`) and the invoice list with its WhatsApp link (`InvoicesPage`);
- the workers admin page (`WorkersPage`) and the worker sidebar (`WorkerLayout`);
- the footer's social and WhatsApp links (`Footer`).

**Server utilities:**
- the settings singleton (`SettingsRoute`), the workers route (`WorkersRoute`) and the upload route (`UploadRoute`);
- the shared helpers `cn`, `slugify`, `truncate` and the status tables (`Utils`).

**Shared modules.** `Text` and `Seqs` hold what the JavaScript standard library provides, written out:
- `split`, `startsWith`, `padStart`, `String(n)`, `toLowerCase`, `\d`/`\s`/`\w`;
- `filter`, `reverse`, `slice`.

**State.** Database collections are fields of classes, and each route handler is a method
on them:
- `AttendanceStore.records`;
- `InvoiceDb.invoices` and its counter;
- `OrderDb.orders`;
- `CustomerStore.customers`;
- `WorkerRegistry.workers`;
- `SettingsStore.docs`;
- `UploadDir.written`.

Client stores and pages that update fields in place are classes too: `Cart`,
`LanguageState`, `Form` and `Scanner`. The code that only computes is functions and lemmas.

**Values from outside.** Several inputs come from outside the code and are parameters:
- the clock: `today`, `time`, `now`, and the upload's per-file `clock`;
- the keyed hash `mac`, which has the secret folded in;
- `encodeURIComponent`, as `encode`;
- the password hash;
- new document ids;
- whether the database throws: `failAt`, `customerFault`.

Money is an exact `real`.

## Model

| member | source | states |
|---|---|---|
| QrAttendance.Digest | src/lib/qrAttendance.ts:6-8 | The digest is at most ten characters. For a keyed hash with 64-character lower-case hex output, it is exactly ten characters of `[a-f0-9]`. |
| QrAttendance.Generate | src/lib/qrAttendance.ts:5-10 | The token starts with `AREEJ-ATT-`, carries the date right after it, and has length prefix + date + 1 + digest. |
| QrAttendance.Parse | src/lib/qrAttendance.ts:16-22 | A match yields a `\d{4}-\d{2}-\d{2}` date group and a `[a-f0-9]{10}` digest group that serialise back to the input. |
| QrAttendance.ParseMatchesRegex | src/lib/qrAttendance.ts:16-18 | The parser succeeds exactly on the strings the anchored regular expression matches (both directions). |
| QrAttendance.ParseSerialize | src/lib/qrAttendance.ts:16-22 | Round trip: parsing a serialised well-shaped date and digest gives them back. |
| QrAttendance.GeneratedLastPiece | src/lib/qrAttendance.ts:23-24 | `split('-').pop()` of a generated token is exactly its digest, despite the hyphens inside the date. |
| QrAttendance.GenerateMatchesRegex | src/lib/qrAttendance.ts:5-18 | A generated token matches the validator's regex if and only if its date is `\d{4}-\d{2}-\d{2}`. It then parses to that date and digest. |
| QrAttendance.Validate | src/lib/qrAttendance.ts:12-33 | A missing or empty value gives the "invalid" message, and a non-matching one the "format" message, both with an empty date. A valid answer carries today's date and the success message. A non-empty reported date is well shaped and is the one in the token. |
| QrAttendance.ValidateForged | src/lib/qrAttendance.ts:21-27 | A well-shaped token with a wrong digest is rejected as incorrect and keeps its date. This check comes before the date check. |
| QrAttendance.ValidateExpired | src/lib/qrAttendance.ts:28-31 | A correctly signed token for another day is rejected as expired and reports its date. |
| QrAttendance.ValidateToday | src/lib/qrAttendance.ts:28-32 | Today's generated token is accepted with today's date. |
| QrAttendance.RoundTrip | src/lib/qrAttendance.ts:5-33 | The validator accepts a generated token exactly when the date is well formed and equals today, and then reports that date. |
| QrAttendance.Tamper | src/lib/qrAttendance.ts:21-27 | Changing one digest character of a generated token to another hex digit fails at the digest check, not the shape check. |
| QrAttendance.ValidateBadDigestShape | src/lib/qrAttendance.ts:16-20 | A digest of the wrong length or with a character outside `[a-f0-9]` is "malformed" with an empty date. |
| QrAttendance.ExpiredExample | src/lib/qrAttendance.ts:28-31 | A concrete case: on 2024-06-01 the correctly signed token for 2024-01-01 is expired, not forged. |
| AttendanceRoute.StoredMethod | src/app/api/attendance/route.ts:61 | `method \|\| 'qr'` is never empty, and it is the given method when one is given. |
| AttendanceRoute.AttendanceStore.constructor | src/models/Attendance.ts:3-9 | The store starts with the given workers and no records. |
| AttendanceRoute.AttendanceStore.FindExisting | src/app/api/attendance/route.ts:48 | The scan answers true exactly when a record exists for that worker and date. |
| AttendanceRoute.AttendanceStore.Post | src/app/api/attendance/route.ts:26-69 | In order: unknown worker gives 404; with `qr`, an invalid token gives 400 with the validator's message; an existing record for the worker and date gives 400 duplicate; a method outside `qr`/`manual` gives 500. Otherwise exactly one record is appended with the worker's current name, the check-in date, the time and the stored method. Every failure leaves the records unchanged, and at most one record per worker and day is kept. |
| AttendanceRoute.CheckInDateIsToday | src/app/api/attendance/route.ts:38-46 | Every accepted check-in is recorded under today's date. |
| AttendanceRoute.NonQrIgnoresToken | src/app/api/attendance/route.ts:38-46 | A method other than `qr` never looks at `qrValue`. A missing method is stored as `qr`. |
| AttendanceRoute.CheckInTwice | src/app/api/attendance/route.ts:48-51 | After a successful manual check-in, a second one the same day is refused. The store holds exactly one record for that worker and day. |
| AttendanceRoute.OnePerWorkerDayTail | src/app/api/attendance/route.ts:48-51 | The one-record-per-worker-and-day invariant holds for the tail of the collection. |
| AttendanceRoute.CountForAtMostOne | src/app/api/attendance/route.ts:48-51 | Under the invariant, each worker has one record or none for a date. |
| AttendanceRoute.Query | src/app/api/attendance/route.ts:11-18 | `GET` returns exactly the records matching the non-empty `date` and `workerId` filters. |
| AttendanceRoute.QueryUnfiltered | src/app/api/attendance/route.ts:14-18 | With no or empty filters, `GET` returns every record, newest first. |
| AttendanceRoute.QueryNewestFirst | src/app/api/attendance/route.ts:18 | A newly created matching record comes first in the listing. |
| ScanPage.GeneratedTokenSubmittable | src/app/worker/dashboard/scan/page.tsx:87 | Every generated token passes the page's prefix filter. |
| ScanPage.ParsedTokenSubmittable | src/app/worker/dashboard/scan/page.tsx:87 | Everything the validator's regex accepts passes the prefix filter. The converse fails: the bare prefix passes but does not parse. |
| ScanPage.ReplyOf | src/app/worker/dashboard/scan/page.tsx:103-118 | The page sees success exactly for a 201 and otherwise the route's error text. |
| ScanPage.RejectionMessage | src/app/worker/dashboard/scan/page.tsx:116 | `data.error \|\| fallback`: the route's message when non-empty, otherwise the fixed failure text. |
| ScanPage.Scanner.constructor | src/app/worker/dashboard/scan/page.tsx:23-28 | The page starts idle and settled, with no messages, no camera, no pending frame, no decoding, not processing and nothing outstanding. |
| ScanPage.Scanner.StopCamera | src/app/worker/dashboard/scan/page.tsx:30-36 | After the call no stream is held and no frame is pending. Calling it again is harmless. |
| ScanPage.Scanner.StartScanning | src/app/worker/dashboard/scan/page.tsx:40-46 | Up to the camera request: the page shows the scanner with messages cleared, and one more camera request is outstanding. A settled page stays settled. |
| ScanPage.Scanner.CameraSettled | src/app/worker/dashboard/scan/page.tsx:46-59 | When a camera request settles: if granted, the stream is held and the loop runs, whatever the page shows, and a stream already held becomes a stray one; if refused, the page goes idle with the camera error. A settled page stays settled. |
| ScanPage.Scanner.Tick | src/app/worker/dashboard/scan/page.tsx:62-83 | One scan-loop run up to the decoder load, which never sees the guard up because of its closure. With no run due, or a missing element or unready video, nothing changes (the run is rescheduled). A missing canvas context ends the loop. A captured frame ends this run and starts one decoding. A settled page stays settled. |
| ScanPage.Scanner.DecodeDone | src/app/worker/dashboard/scan/page.tsx:83-94 | For any decoding under way, whatever the page shows: a request is sent exactly when a decoded code has the `AREEJ-ATT-` prefix. The request carries the worker id, the code and `qr`; the camera is released and one more request is in flight. Otherwise, including when the decoder fails to load, the loop is scheduled again with the camera and guard as they were. A settled page stays settled. |
| ScanPage.Scanner.HandleQRDetected | src/app/worker/dashboard/scan/page.tsx:97-107 | When its closure sees the guard up, it does nothing. Otherwise it sets the guard, stops the camera, counts the request as in flight and produces it, whatever the page shows. |
| ScanPage.Scanner.CameraSettledCurrent | src/app/worker/dashboard/scan/page.tsx:40-60 | Corrected camera handling: a grant for a start made before the last reset holds nothing and starts no loop; a current one is handled like `CameraSettled`. |
| ScanPage.Scanner.Complete | src/app/worker/dashboard/scan/page.tsx:108-125 | For any request in flight: success shows the success message with the check-in time; a rejection shows the route's message or the fallback; a network failure shows the network message. The guard is cleared. A settled page stays settled. |
| ScanPage.Scanner.Reset | src/app/worker/dashboard/scan/page.tsx:128-134 | Back to idle, everything cleared, camera released. Outstanding camera requests, decodings and check-ins are not cancelled, and the page is settled only when none is outstanding. |
| ScanPage.Scanner.CompleteCurrent | src/app/worker/dashboard/scan/page.tsx:97-134 | Corrected reply handling: a reply to a request sent before the last reset leaves the page as it is; a current one is handled like `Complete`. |
| ScanPage.LateReplyAfterRestart | src/app/worker/dashboard/scan/page.tsx:97-134 | As written: stop while the check-in is in flight, start again, and the late reply shows success with the camera held and the loop running. |
| ScanPage.ResetDropsLateReply | src/app/worker/dashboard/scan/page.tsx:97-134 | Corrected: the same steps leave the page scanning with no message. |
| ScanPage.StopDuringCameraRequest | src/app/worker/dashboard/scan/page.tsx:40-60 | Stopping while the camera permission is pending leaves the camera held and the loop running on the idle page. Starting again from there leaves one stream whose tracks are never stopped. |
| ScanPage.StopDuringCameraRequestFixed | src/app/worker/dashboard/scan/page.tsx:40-60 | Corrected: the same steps leave the idle page with no camera and no loop, and no stray stream. |
| ScanPage.StopDuringDecode | src/app/worker/dashboard/scan/page.tsx:62-134 | Stopping while a frame is being decoded: with a token in the frame, the idle page sends the check-in and then shows success; without one, the loop is scheduled again with no camera held. |
| ScanPage.ScanTodaysToken | src/app/worker/dashboard/scan/page.tsx:62-126 | End to end: a camera frame showing today's token, for a known worker not yet checked in, ends in success. The store gains exactly that worker's record for today. |
| DateDisplay.FmtDatePieces | src/app/admin/dashboard/attendance/page.tsx:86-89 | Three hyphen-free pieces come back in reverse order, slash-separated. |
| DateDisplay.FmtDateIso | src/app/worker/dashboard/page.tsx:52-55 | `YYYY-MM-DD` becomes `DD/MM/YYYY`, ten characters with slashes at positions 2 and 5. |
| DateDisplay.FmtDateInjective | src/app/admin/dashboard/attendance/page.tsx:86-89 | Distinct ISO dates never display alike. |
| DateDisplay.FmtDateNoHyphen | src/app/admin/dashboard/attendance/page.tsx:86-89 | A string with no hyphen displays as `undefined/undefined/<s>`. |
| AdminAttendance.Filtered | src/app/admin/dashboard/attendance/page.tsx:78-80 | The search keeps exactly the records whose lower-cased worker name contains the lower-cased search. |
| AdminAttendance.FilteredEmptySearch | src/app/admin/dashboard/attendance/page.tsx:78-80 | An empty search shows every record, in order. |
| AdminAttendance.FilteredCaseInsensitive | src/app/admin/dashboard/attendance/page.tsx:79 | Lower-casing the search text changes nothing. |
| AdminAttendance.FilteredKeepsOrder | src/app/admin/dashboard/attendance/page.tsx:78-80 | Filtering distributes over concatenation, so the fetched order is kept. |
| AdminAttendance.MethodCounts | src/app/admin/dashboard/attendance/page.tsx:83-84 | QR plus manual never exceeds the list, and equals it when every method is from the schema's enum. |
| AdminAttendance.TodayCountIsWorkers | src/app/admin/dashboard/attendance/page.tsx:82 | Under one-record-per-worker-and-day, today's count is the number of distinct workers present. |
| AdminAttendance.TodayCountBounded | src/app/admin/dashboard/attendance/page.tsx:82 | Today's count never exceeds the number of workers. |
| AdminAttendance.WorkersOnCons | src/app/admin/dashboard/attendance/page.tsx:82 | The day's workers split into the oldest record's worker and the rest. |
| AdminAttendance.FirstNotLater | src/app/api/attendance/route.ts:48-51 | The oldest record's worker has no later record on the same day. |
| AdminAttendance.QueryParams | src/app/admin/dashboard/attendance/page.tsx:60-63 | The query string carries at most the two filters. |
| AdminAttendance.QueryParamsRoundTrip | src/app/admin/dashboard/attendance/page.tsx:60-66 | Each filter reaches the route exactly when non-empty. The listing is then the route's query with those filters. |
| WorkerHome.Load | src/app/worker/dashboard/page.tsx:39-44 | A non-array response leaves the empty list and the flag unset. Otherwise the first ten records are shown, and the flag is set exactly when some record is dated today. |
| WorkerHome.CountsBounded | src/app/worker/dashboard/page.tsx:107-115 | QR count ≤ total ≤ 10. |
| WorkerHome.TodayMarkedBeyondShown | src/app/worker/dashboard/page.tsx:41-42 | The flag looks past the ten shown: an eleventh record dated today sets it and hides the scan prompt. |
| WorkerHome.HomeReflectsStore | src/app/worker/dashboard/page.tsx:37-42 | Over the worker's own records, the flag is set exactly when the store holds a record for that worker today. |
| CartStore.AddQuantity | src/store/cartStore.ts:32-34 | Same length; the entry with the id gets its quantity raised by `q`; others are untouched. |
| CartStore.SetQuantity | src/store/cartStore.ts:46 | Same length; the entry with the id gets quantity `q`; others are untouched. |
| CartStore.Without | src/store/cartStore.ts:41 | Exactly the entries with another id remain. |
| CartStore.AddedShape | src/store/cartStore.ts:28-39 | A new id is appended at the end. A known id keeps the length and raises that entry's quantity. The id is present afterwards. |
| CartStore.AddedKeepsUnique | src/store/cartStore.ts:28-39 | Adding keeps ids unique. |
| CartStore.UpdatedKeepsUnique | src/store/cartStore.ts:43-47 | Updating keeps ids unique. |
| CartStore.WithoutKeepsUnique | src/store/cartStore.ts:40-42 | Removing keeps ids unique. |
| CartStore.CountAfterAdd | src/store/cartStore.ts:28-39 | `getCount` grows by the added item's quantity. |
| CartStore.CountAddQuantity | src/store/cartStore.ts:32-34 | Raising one unique entry by `q` raises the count by `q`. |
| CartStore.UpdatedAbsent | src/store/cartStore.ts:43-47 | Updating an id not in the cart changes nothing. |
| CartStore.WithoutKeepsOrder | src/store/cartStore.ts:41 | Removal keeps the relative order of the rest. |
| CartStore.Cart.constructor | src/store/cartStore.ts:25-26 | Empty and closed. |
| CartStore.Cart.SetOpen | src/store/cartStore.ts:27 | Only the drawer flag changes. |
| CartStore.Cart.AddItem | src/store/cartStore.ts:28-39 | The items become the merged-or-appended list, the drawer opens, and the count grows by the item's quantity. |
| CartStore.Cart.FindItem | src/store/cartStore.ts:29 | Found exactly when an entry has the id. |
| CartStore.Cart.RemoveItem | src/store/cartStore.ts:40-42 | The items are the list without the id; the drawer is untouched. |
| CartStore.Cart.UpdateQuantity | src/store/cartStore.ts:43-47 | A quantity ≤ 0 removes the entry; otherwise the entry takes the quantity. |
| CartStore.Cart.ClearCart | src/store/cartStore.ts:48-50 | Empty list, zero total and count; the drawer stays as it was. |
| Customers.TierThresholds | src/app/api/invoices/route.ts:18-23 | Each tier holds exactly in its band: ≥ 5000 platinum, [2000, 5000) gold, [500, 2000) silver, otherwise bronze. |
| Customers.TierMonotone | src/app/api/invoices/route.ts:18-23 | Spending more never lowers the tier. |
| Customers.OrElse | src/app/api/invoices/route.ts:68-77 | `s \|\| fallback`: the string when present and non-empty, otherwise the fallback. |
| Customers.FirstMatch | src/app/api/invoices/route.ts:62 | `findOne`: the first matching document in collection order, or none when nothing matches. |
| Customers.CustomerStore.constructor | src/models/Customer.ts:3-18 | An empty collection. |
| Customers.CustomerStore.FindOne | src/app/api/orders/route.ts:31 | The scan returns what `FirstMatch` specifies. |
| Customers.FirstMatchAt | src/app/api/invoices/route.ts:62 | The first match is at the first index that matches. |
| Customers.FirstMatchNone | src/app/api/invoices/route.ts:62 | Nothing matches, so nothing is found. |
| InvoicesRoute.Bump | src/app/api/invoices/route.ts:35-39 | The upsert leaves a document with a counter and keeps its prefix. |
| InvoicesRoute.AllocateFresh | src/app/api/invoices/route.ts:31-46 | Without a fault, the number is the body's own number or a candidate not already used. |
| InvoicesRoute.AllocateTaken | src/app/api/invoices/route.ts:34-46 | While candidates are taken, each attempt draws the counter after as many increments. After 20 taken candidates, the body's number is kept. |
| InvoicesRoute.BumpNShift | src/app/api/invoices/route.ts:35-39 | Increments compose. |
| InvoicesRoute.CounterRepeatsOne | src/app/api/invoices/route.ts:35-42 | On a fresh database the first two attempts both produce `INV-0001`, and the third produces `INV-0002`. |
| InvoicesRoute.CandidateInjective | src/app/api/invoices/route.ts:40-42 | Distinct counter values under one prefix give distinct candidates. |
| InvoicesRoute.PaddedValue | src/app/api/invoices/route.ts:42 | The padded number is all digits and denotes the counter value. |
| InvoicesRoute.InvoicePoints | src/app/api/invoices/route.ts:66 | `Math.floor(amount / 10)`: ten times the points is at most the amount's floor, and the next ten exceeds the amount. |
| InvoicesRoute.InvoiceCredit | src/app/api/invoices/route.ts:63-70 | One more order, amount and points added, and the tier recomputed from the new total. Name and email are replaced only when the body gives them; phone, city and address are kept. |
| InvoicesRoute.NewInvoiceCustomer | src/app/api/invoices/route.ts:71-83 | One order, the amount, and the tier the amount warrants. The name defaults to `عميل`. |
| InvoicesRoute.InvoiceCustomers | src/app/api/invoices/route.ts:56-84 | The collection grows by at most one. |
| InvoicesRoute.InvoiceCustomersTierNotAhead | src/app/api/invoices/route.ts:63-83 | No stored tier ends up above what its spending warrants. |
| InvoicesRoute.InvoiceWithPhoneRecordsCustomer | src/app/api/invoices/route.ts:57-83 | After an invoice with a phone, a customer with that phone exists. |
| InvoicesRoute.InvoiceWithoutPhoneCreatesNobody | src/app/api/invoices/route.ts:71 | Without a phone, no customer is created. |
| InvoicesRoute.InvoiceDb.constructor | src/models/Invoice.ts:11-24 | An empty collection with the given counter. |
| InvoicesRoute.InvoiceDb.AllocateNumber | src/app/api/invoices/route.ts:31-51 | The loop's number and counter are those `Allocate` specifies, including the `INV-<now>` fallback after a fault. |
| InvoicesRoute.InvoiceDb.Post | src/app/api/invoices/route.ts:25-94 | Invoice numbers stay unique. The invoice is created exactly when the allocated number is non-empty and unused, the name is given, every item has its quantity, unit price and total, the amounts are present, and the discount type is `fixed`, `percentage` or missing. Then the customers follow `InvoiceCustomers`, unless that update throws (then they are unchanged). Failure is 500 and changes nothing. |
| InvoicesRoute.RecordCustomer | src/app/api/invoices/route.ts:56-84 | The loyalty update leaves what `InvoiceCustomers` specifies. |
| OrdersRoute.OrderPoints | src/app/api/orders/route.ts:35 | `Math.floor(total)`. |
| OrdersRoute.OrderCredit | src/app/api/orders/route.ts:32-39 | One more order, the total and points added. The tier follows the thresholds from 500 on; below 500 it is kept. |
| OrdersRoute.NewOrderCustomer | src/app/api/orders/route.ts:40-51 | Bronze, one order, the total and its points. Email, city and address default to empty. |
| OrdersRoute.OrderCustomers | src/app/api/orders/route.ts:31-51 | The collection grows by at most one. |
| OrdersRoute.OrderTierRule | src/app/api/orders/route.ts:36-38 | The order route's tier agrees with the invoice route's function from 500 on and keeps the stored tier below. |
| OrdersRoute.OrderCreditTierNotAhead | src/app/api/orders/route.ts:32-39 | For non-negative totals, the stored tier never gets ahead of spending. |
| OrdersRoute.NegativeTotalKeepsTier | src/app/api/orders/route.ts:34-38 | A negative total can leave gold above what the spending warrants. |
| OrdersRoute.NewOrderCustomerBronze | src/app/api/orders/route.ts:41-50 | A new customer from a large order is bronze, below the tier its total warrants. |
| OrdersRoute.OrderPointsTenfold | src/app/api/orders/route.ts:35 | For the same amount, an order earns ten times the invoice route's `InvoicePoints`, plus at most nine. |
| OrdersRoute.MatchedByPhoneOnly | src/app/api/orders/route.ts:31 | A customer with the same name but another phone is not credited; a new one is created. |
| OrdersRoute.StatusFilter | src/app/api/orders/route.ts:13 | A missing, empty or `all` status applies no filter. |
| OrdersRoute.ListOrders | src/app/api/orders/route.ts:6-15 | Exactly the orders matching the status and order-number filters. |
| OrdersRoute.ListOrdersNewestFirst | src/app/api/orders/route.ts:15 | A newly created matching order comes first, ahead of the earlier matches in their listed order. |
| OrdersRoute.StatusAllIsUnfiltered | src/app/api/orders/route.ts:13 | `all` lists the same as no status. |
| OrdersRoute.OrderDb.constructor | src/models/Order.ts:12-34 | An empty collection. |
| OrdersRoute.OrderDb.Post | src/app/api/orders/route.ts:23-58 | Created exactly when the schema accepts the body and the number is unused. The schema asks for the customer's name and phone, a name, price and quantity on every item, both amounts, and a known status. Then the order is appended, with status `pending` by default, and the customers follow `OrderCustomers`. Otherwise 500 and nothing changes. |
| InvoiceForm.Edited | src/app/admin/dashboard/invoices/create/page.tsx:50-61 | A name edit keeps the line total. A quantity or price edit makes it quantity × price. A consistent line stays consistent. |
| InvoiceForm.TotalFormula | src/app/admin/dashboard/invoices/create/page.tsx:63-67 | Without VAT the total is the discounted subtotal. With VAT it is raised by the rate, 15% when the rate is zero. |
| InvoiceForm.NegativeTotal | src/app/admin/dashboard/invoices/create/page.tsx:64-67 | A fixed discount above the subtotal gives a negative total; nothing clamps it. |
| InvoiceForm.SubtotalIsPriceSum | src/app/admin/dashboard/invoices/create/page.tsx:63 | With consistent lines the subtotal is the sum of quantity × price. |
| InvoiceForm.SavedBodyInsertable | src/app/admin/dashboard/invoices/create/page.tsx:69-82 | A form that passes its checks posts a body the route inserts exactly when the number it ends up with is non-empty and unused. Its items are always complete and its discount type is always known. |
| InvoiceForm.Form.constructor | src/app/admin/dashboard/invoices/create/page.tsx:28-37 | One blank item, no discount (fixed), settings not loaded. |
| InvoiceForm.Form.AddItem | src/app/admin/dashboard/invoices/create/page.tsx:43 | One blank item appended. |
| InvoiceForm.Form.RemoveItem | src/app/admin/dashboard/invoices/create/page.tsx:45-48 | Refused while one item is left; otherwise exactly the item at the index is dropped. |
| InvoiceForm.Form.UpdateItem | src/app/admin/dashboard/invoices/create/page.tsx:50-61 | Only the edited item changes, as `Edited` says. |
| InvoiceForm.RemoveAll | src/app/admin/dashboard/invoices/create/page.tsx:45-48 | No sequence of removals empties the list. |
| InvoicesPage.NormalizePhone | src/app/admin/dashboard/invoices/page.tsx:42-43 | The result is all digits. |
| InvoicesPage.NormalizePhoneCases | src/app/admin/dashboard/invoices/page.tsx:42-43 | A local leading `0` is exchanged for `966`; otherwise the digits pass through. The result never starts with `0`. |
| InvoicesPage.NormalizePhoneIdempotent | src/app/admin/dashboard/invoices/page.tsx:42-43 | Normalising twice is normalising once. |
| InvoicesPage.MessageFields | src/app/admin/dashboard/invoices/page.tsx:41 | The message holds the number, the name and the total, each right after its caption. |
| InvoicesPage.WhatsAppUrlShape | src/app/admin/dashboard/invoices/page.tsx:40-47 | The link addresses the normalised number, or no number when it is empty, and ends with the encoded message. |
| InvoicesPage.AfterDelete | src/app/admin/dashboard/invoices/page.tsx:29-38 | Of the list the handler captured when the button was pressed: unchanged unless confirmed and successful; then exactly the rows with another id remain. |
| InvoicesPage.DeleteRemovesOne | src/app/admin/dashboard/invoices/page.tsx:33 | With unique ids, the one row is removed and the order is kept. |
| InvoicesPage.OverlappingDeletesRestore | src/app/admin/dashboard/invoices/page.tsx:29-38 | As written: when a second delete is pressed before the first reply, both replies filter the captured list, so the second reply shows the first deleted row again. |
| InvoicesPage.DeletesFromCurrentList | src/app/admin/dashboard/invoices/page.tsx:29-38 | Corrected: filtering the list shown when each reply arrives leaves exactly the rows carrying neither id, whichever reply comes first. |
| LanguageStore.Code | src/store/languageStore.ts:4 | The locale is `ar` or `en`. |
| LanguageStore.Toggled | src/store/languageStore.ts:12 | Toggling always changes the locale. |
| LanguageStore.ToggleTwice | src/store/languageStore.ts:12 | Toggling is its own inverse. |
| LanguageStore.LanguageState.constructor | src/store/languageStore.ts:10 | Starts in Arabic. |
| LanguageStore.LanguageState.SetLocale | src/store/languageStore.ts:11 | Sets the locale. |
| LanguageStore.LanguageState.ToggleLocale | src/store/languageStore.ts:12 | Arabic becomes English and English becomes Arabic. |
| LanguageStore.ToggleTwiceRestores | src/store/languageStore.ts:12 | Two toggles restore the store. |
| SettingsRoute.Known | src/models/Settings.ts:3-30 | Exactly the body's schema fields are kept, unchanged. |
| SettingsRoute.Merge | src/app/api/settings/route.ts:27 | `Object.assign` over schema fields: body fields win; other fields of the document stay. |
| SettingsRoute.DefaultsWellTyped | src/models/Settings.ts:3-30 | The defaults have every field, each with its declared type. |
| SettingsRoute.DefaultValues | src/models/Settings.ts:12-14 | VAT on at 15, currency SAR, default language Arabic. |
| SettingsRoute.MergeWellTyped | src/app/api/settings/route.ts:23-29 | An acceptable body keeps the document well typed, and each field is the body's when given. |
| SettingsRoute.MergeIdempotent | src/app/api/settings/route.ts:27 | Writing the same body twice is writing it once. |
| SettingsRoute.DefaultVat | src/app/admin/dashboard/invoices/create/page.tsx:66 | With the defaults the invoice form adds 15% VAT. |
| SettingsRoute.SettingsStore.constructor | src/app/api/settings/route.ts:8 | No document yet. |
| SettingsRoute.SettingsStore.Get | src/app/api/settings/route.ts:5-17 | Returns the single document, creating the defaults when none exists. |
| SettingsRoute.SettingsStore.Put | src/app/api/settings/route.ts:19-35 | A body the schema refuses gives 500 and changes nothing. Otherwise the single document becomes the merge onto the stored one, or onto the defaults when none exists. |
| SettingsRoute.GetThenPut | src/app/api/settings/route.ts:5-35 | A `GET` then a `PUT` leaves one document, the defaults merged with the body. |
| Footer.SocialUrlShape | src/components/Footer.tsx:100 | A handle starting with `http` is used as is. Otherwise the link is the base URL followed by the handle. |
| Footer.Links | src/components/Footer.tsx:95-108 | Every rendered icon comes from a visible network, and every visible network is rendered with its URL. |
| Footer.LinkShownIff | src/components/Footer.tsx:96-99 | A network is shown exactly when it is enabled and has a handle. |
| Footer.WhatsAppLinkShape | src/components/Footer.tsx:37-39 | The icon is shown exactly when the link is not `#`. The link then addresses the phone's digits, in order. |
| Footer.NoCountryCode | src/components/Footer.tsx:37-39 | A local number starting with `0` gets no `966`. It addresses a different number from the invoice list's link. |
| Footer.NothingShownBeforeFetch | src/components/Footer.tsx:31-35 | The empty document shows no icon and a `#` WhatsApp link. |
| Footer.NothingShownByDefault | src/models/Settings.ts:8-28 | The schema defaults show no icon and no WhatsApp link. |
| Footer.SocialIconsByKey | src/components/Footer.tsx:20-26 | The table has one entry per key. |
| UploadRoute.Selected | src/app/api/upload/route.ts:9-13 | `files` when non-empty, else the single `file`, else nothing. |
| UploadRoute.Folder | src/app/api/upload/route.ts:14 | `type`, else `folder`, else `products`; never empty. |
| UploadRoute.Sanitize | src/app/api/upload/route.ts:29 | Same length; every character outside `[a-zA-Z0-9.-]` becomes `_`. |
| UploadRoute.SanitizeIdempotent | src/app/api/upload/route.ts:29 | Sanitizing is idempotent and leaves only safe characters and `_`. |
| UploadRoute.LastIndex | src/app/api/upload/route.ts:30 | The last occurrence of the character, or none. |
| UploadRoute.Extname | src/app/api/upload/route.ts:30 | The extension is no longer than the name. |
| UploadRoute.ExtnameShape | src/app/api/upload/route.ts:30 | Empty, or a dot-led suffix of the name with no other dot, not covering a leading dot. |
| UploadRoute.UpperCaseExtensionKept | src/app/api/upload/route.ts:30-37 | As written, an image with an upper-case extension keeps that extension before `.webp`. |
| UploadRoute.PhotoJpgExample | src/app/api/upload/route.ts:30-37 | `photo.JPG` is stored as `<ts>-photo.JPG.webp` as written and as `<ts>-photo.webp` when corrected. |
| UploadRoute.StemExtname | src/app/api/upload/route.ts:30-37 | The stem followed by the extension is the name. |
| UploadRoute.StoredName | src/app/api/upload/route.ts:35-46 | Corrected naming: images become `<ts>-<stem>.webp`, anything else `<ts>-<name>`. |
| UploadRoute.StoredNameShape | src/app/api/upload/route.ts:35-46 | Corrected: an image name ends in `.webp` with its extension removed, whatever its case. Others keep the sanitized name after the timestamp. |
| UploadRoute.LowerCaseExtensionAgrees | src/app/api/upload/route.ts:30-46 | For lower-case extensions the corrected naming is the route's naming. |
| UploadRoute.StoredNames | src/app/api/upload/route.ts:25-46 | One name per file, as the route builds it, each from that file's clock reading. |
| UploadRoute.StoredNameAsWrittenShape | src/app/api/upload/route.ts:29-46 | The route's name starts with the timestamp. An image ends in `.webp`, which either replaces its extension or follows the whole name. Any other file keeps its sanitised name. |
| UploadRoute.Urls | src/app/api/upload/route.ts:50 | One `/uploads/<folder>/<name>` URL per name. |
| UploadRoute.UploadDir.constructor | src/app/api/upload/route.ts:20-21 | Nothing written. |
| UploadRoute.UploadDir.WriteAll | src/app/api/upload/route.ts:25-51 | The loop returns one URL per name, in order, and records exactly those writes. |
| UploadRoute.UploadDir.Post | src/app/api/upload/route.ts:6-53 | No file gives 400 and writes nothing. Otherwise every file is written in order under the route's own naming, and the response carries all URLs and the first. |
| Utils.Texts | src/lib/utils.ts:25 | Each kept argument prints as `join` prints it. |
| Utils.SplitJoin | src/lib/utils.ts:25 | Splitting a join of separator-free pieces gives the pieces back. |
| Utils.CnPieces | src/lib/utils.ts:24-26 | `cn` keeps the truthy arguments in order, separated by single spaces. |
| Utils.CnDropsFalsy | src/lib/utils.ts:25 | A falsy argument anywhere leaves no trace. |
| Utils.Collapse | src/lib/utils.ts:41 | No two hyphens in a row. Every character is a hyphen or a non-separator from the input. |
| Utils.TrimStart | src/lib/utils.ts:42 | The result is a suffix without a leading hyphen; only hyphens were removed. |
| Utils.TrimEnd | src/lib/utils.ts:42 | The result is a prefix without a trailing hyphen; only hyphens were removed. |
| Utils.SlugifyIsSlug | src/lib/utils.ts:37-43 | The result holds only `[a-z0-9-]`, with no leading, trailing or doubled hyphen. |
| Utils.SlugifyDropsOthers | src/lib/utils.ts:39-40 | Text with no `[\w\s-]` character (Arabic, punctuation), no ASCII capital and neither the Kelvin sign nor the dotted capital I, which lower-case to ASCII letters, slugifies to the empty string. |
| Utils.SlugIsFixed | src/lib/utils.ts:37-43 | A slug slugifies to itself. |
| Utils.SlugifyIdempotent | src/lib/utils.ts:37-43 | Slugifying twice is slugifying once. |
| Utils.SliceTo | src/lib/utils.ts:47 | `slice(0, end)`: a prefix whose length counts a negative end from the back. |
| Utils.TruncateShape | src/lib/utils.ts:45-48 | Text that fits is returned as is. Otherwise the result is the first `length` characters plus `...`. |
| Utils.TruncateNegative | src/lib/utils.ts:46-47 | A negative length cuts from the back. |
| Utils.StatusColorKnown | src/lib/utils.ts:50-60 | Exactly the six order statuses get a colour other than gray. |
| Utils.StatusColorDistinct | src/lib/utils.ts:50-60 | No two statuses share a colour. |
| Utils.StatusLabelKnown | src/lib/utils.ts:62-72 | The six statuses get labels that are not status names. Anything else is shown as itself. |
| Utils.StatusLabelDistinct | src/lib/utils.ts:62-72 | No two statuses share a label. |
| WorkerLayout.MappedKeysCount | src/app/worker/dashboard/layout.tsx:61 | One page item per known key. |
| WorkerLayout.NavItemsShape | src/app/worker/dashboard/layout.tsx:58-62 | Home and scan come first, plus one item per known key. |
| WorkerLayout.MappedKeysAppend | src/app/worker/dashboard/layout.tsx:61 | Mapping distributes over concatenation, so the order of the keys is kept. |
| WorkerLayout.MappedKeysDropsUnknown | src/app/worker/dashboard/layout.tsx:61 | An unknown key is dropped without a trace. |
| WorkerLayout.MappedKnownKeys | src/app/worker/dashboard/layout.tsx:18-24 | With only known keys, the i-th item is the i-th key's page. |
| WorkerLayout.IsActiveRule | src/app/worker/dashboard/layout.tsx:103 | Home is active only on its own path. Any other item is active on any path starting with its link. |
| WorkerLayout.IsActiveTextualPrefix | src/app/worker/dashboard/layout.tsx:103 | The prefix is textual: `/orders` is active on `/ordersX`. |
| WorkersPage.OpenCreate | src/app/admin/dashboard/workers/page.tsx:25-46 | The empty form (no access, active) and no worker being edited. |
| WorkersPage.OpenEdit | src/app/admin/dashboard/workers/page.tsx:48-52 | The worker's fields with a blank password. |
| WorkersPage.TogglePage | src/app/admin/dashboard/workers/page.tsx:54-59 | The key's membership flips; every other key's is kept. |
| WorkersPage.TogglePageKeepsOthers | src/app/admin/dashboard/workers/page.tsx:57 | The other keys keep their order. |
| WorkersPage.TogglePageTwice | src/app/admin/dashboard/workers/page.tsx:57 | Two toggles restore the set of keys. |
| WorkersPage.TogglePageTwiceReorders | src/app/admin/dashboard/workers/page.tsx:57 | Two toggles can reorder the keys: the toggled key moves to the end. |
| WorkersPage.SaveError | src/app/admin/dashboard/workers/page.tsx:61-69 | The required-fields message exactly when name, phone or email is blank. The password message exactly when those are filled, the form is for a new worker and the password is blank. |
| WorkersPage.CreateAcceptedFields | src/app/admin/dashboard/workers/page.tsx:61-77 | A new worker the page lets through has every field the route requires, and the route stores its access and active flag. |
| WorkersPage.MarkAttendanceRequest | src/app/admin/dashboard/workers/page.tsx:101-108 | The worker's id, method `manual`, no token. |
| WorkersPage.MarkAttendanceIsManual | src/app/admin/dashboard/workers/page.tsx:101-108 | A manual check-in is never token-checked, is dated today and is stored as `manual`. |
| WorkersRoute.Public | src/app/api/workers/route.ts:39 | Every field but the password. |
| WorkersRoute.PublicAll | src/app/api/workers/route.ts:9 | The password is dropped from each document. |
| WorkersRoute.Listing | src/app/api/workers/route.ts:9 | Every worker without the password, newest first. |
| WorkersRoute.NewWorker | src/app/api/workers/route.ts:31-37 | The password is hashed. Access defaults to none and the active flag to true. |
| WorkersRoute.WorkerRegistry.constructor | src/models/Worker.ts:3-10 | No workers. |
| WorkersRoute.WorkerRegistry.FindByEmail | src/app/api/workers/route.ts:26 | Found exactly when the email is taken. |
| WorkersRoute.WorkerRegistry.Post | src/app/api/workers/route.ts:17-45 | A missing field gives 400; a taken email gives 400; otherwise the new worker is appended and returned without the password. Emails stay unique. |
| WorkersRoute.ListingAfterCreate | src/app/api/workers/route.ts:9 | The new worker comes first in the listing. |
| WorkersRoute.RegisterTwice | src/app/api/workers/route.ts:26-29 | Registering one email twice creates at most one worker; the second call is refused. |
| Text.ToLower | src/app/admin/dashboard/attendance/page.tsx:79 | `toLowerCase` on ASCII letters, character by character. |
| Text.ToLowerIdempotent | src/app/admin/dashboard/attendance/page.tsx:79 | Lower-casing twice is lower-casing once. |
| Text.KeepDigits | src/app/admin/dashboard/invoices/page.tsx:42 | `replace(/[^0-9]/g, '')` gives only digits, no longer than the input, and leaves digit strings alone. |
| Text.Split | src/lib/qrAttendance.ts:24 | `split` never returns an empty list. |
| Text.LastPieceAfter | src/lib/qrAttendance.ts:24 | The last piece after a final separator is whatever follows it. |
| Text.SplitThree | src/app/admin/dashboard/attendance/page.tsx:87 | Three separator-free pieces split back apart. |
| Text.NatToString | src/app/api/invoices/route.ts:42 | `String(n)`: digits with no leading zero. |
| Text.NatToStringValue | src/app/api/invoices/route.ts:42 | The digits denote `n`. |
| Text.LeadingZerosValue | src/app/api/invoices/route.ts:42 | Leading zeros do not change the value. |
| Text.PadStartShape | src/app/api/invoices/route.ts:42 | `padStart(w, '0')` has width at least `w`, ends with the input, and starts with zeros only. |
| Seqs.Filter | src/app/api/attendance/route.ts:18 | Exactly the elements satisfying the test, in order. |
| Seqs.FilterAppend | src/app/admin/dashboard/attendance/page.tsx:78 | `filter` distributes over concatenation. |
| Seqs.FilterFilter | src/app/admin/dashboard/invoices/page.tsx:33 | Two `filter`s in a row keep exactly what passes both tests, in order. |
| Seqs.Reverse | src/app/api/attendance/route.ts:18 | Newest first: the i-th element from the back, as a permutation. |
| Seqs.ReverseSnoc | src/app/api/attendance/route.ts:18 | The last appended comes first. |
| Seqs.Take | src/app/worker/dashboard/page.tsx:41 | `slice(0, n)`: the first `min(n, length)` elements. |

## Left out

- I/O that is outside the model:
  - HMAC-SHA256 and the secret (`QR_SECRET` or its built-in fallback) are the parameter `mac`. The model assumes only that its hex output is 64 lower-case hex characters.
  - Server clocks (`toLocaleDateString('en-CA')`, `toLocaleTimeString`, `Date.now()`) are the parameters `today`, `time`, `now` and `clock`. Upload names are computed from the clock readings before the writes, so the order of writes is kept but not their interleaving with the clock.
  - `encodeURIComponent` is the parameter `encode`, and bcrypt is the parameter `hash`.
- MongoDB and Mongoose:
  - Connections are not modelled, nor atomicity of `findOneAndUpdate`, nor concurrent requests. Two simultaneous check-ins or order inserts may both pass their checks in the real system.
  - The unique indexes are modelled as preconditions on insert.
  - Schema casting of values of the wrong type is not modelled. `Acceptable` and `Insertable` stand for the validations that make an insert fail.
- InvoicesRoute.Allocate: `invoicePrefix` and `invoiceNextNumber` are not declared in the Settings schema. The counter is modelled as the route's code reads it, and Mongoose's strict-mode stripping of undeclared update paths is not modelled. A fault during an attempt is taken to leave the counter as it was.
- InvoicesRoute.Invoice and OrdersRoute.Order: the stored documents keep only the fields the routes and pages read. Items, the discount type and the other optional fields are checked on insert but not stored.
- OrdersRoute.OrderDb.Post: a throw during the customer update comes after the order insert. In the source that gives 500 with the order stored; the model's customer update does not throw.
- UploadRoute.UploadDir.Post:
  - File contents, the WebP conversion and the directory creation are not modelled, and nor is the 500 when `sharp` fails on data that is not an image.
  - The `type` folder is not sanitised by the source; it is carried through as given.
  - Video extensions behave like other files and are not distinguished.
- The scan page:
  - The camera, `requestAnimationFrame` and jsQR are abstract `Frame` and `Decoding` values.
  - Several scan-loop chains can run at once when a camera request settles while a stream is already held (`StopDuringCameraRequest`). The model's `framePending` is one flag and `decodesPending` one count, and they merge them.
  - Once jsQR is loaded, its continuation runs as a microtask, before any click. The model lets any event come between `Tick` and `DecodeDone`, so it also admits orders that only the first load of the decoder allows.
  - `toast` notifications and the `video` element's playback are not modelled.
- Floating point: amounts are exact reals, and JavaScript number formatting of totals in messages is a string field.
- UploadRoute.Sanitize: works on Dafny characters. The source's regex has no `u` flag and replaces each UTF-16 code unit, so a character outside the Basic Multilingual Plane (such as an emoji) gives `__` in the source and `_` in the model.
- AttendanceRoute.AttendanceStore.Post: a `workerId` that is not a valid ObjectId makes `findById` throw, and the source answers 500 `Failed to record attendance` (src/app/api/attendance/route.ts:31, 65-67). The model has no ObjectId syntax and answers such an id with the 404 for an unknown worker.
- Utils.Slugify: lower-cases with the ASCII-only `ToLower`. In JavaScript the Kelvin sign (U+212A) lower-cases to `k` and the dotted capital I (U+0130) to `i` and a combining dot, so `slugify` keeps an ASCII letter for each where the model drops the character. `SlugifyDropsOthers` excludes both.
- AdminAttendance.Filtered: a non-ASCII capital, such as `É`, is not lower-cased, so the model's search does not match `é` against `É` where the page's does.
- Text:
  - `toLowerCase` is modelled on ASCII letters only. Other letters keep their case, so the model differs from JavaScript for any non-ASCII capital.
  - `truncate` counts Dafny characters, not UTF-16 code units.
- `labels[status]` and `PAGE_MAP[key]` can reach prototype properties such as `constructor` in JavaScript. The model treats only the declared keys as present.
- Footer.Handle: a settings value that is not a string reads as the empty string. The source would use it, or throw in `replace` for a numeric phone.
- The Pinterest fields exist in the settings schema but the footer has no icon for them, and the model follows the footer.
- Authentication routes and middleware, product and category routes, the customers and invoice detail pages, and presentational components are not part of this model.

## Findings

| source | as written | input that shows it | evidently intended | confidence | as-written member | corrected member |
|---|---|---|---|---|---|---|
| src/app/api/upload/route.ts:30-37 | the extension is lower-cased before `path.basename(originalName, ext)`, so an upper-case image extension no longer matches the name's suffix and is not removed | a file named `photo.JPG` is stored as `<ts>-photo.JPG.webp` | `<ts>-photo.webp`, the extension replaced by `.webp` | high, by proof; not executed | UploadRoute.UpperCaseExtensionKept | UploadRoute.StoredNameShape |
| src/app/worker/dashboard/scan/page.tsx:97-134 | the stop button stays enabled while the check-in request is in flight, and `reset` does not cancel it, so its reply is applied to whatever page is showing | scan a token, press stop before the reply, press start and grant the camera; the reply then shows success with the camera held and the scan loop running | a reply to a request abandoned by `reset` is ignored | medium; not executed | ScanPage.LateReplyAfterRestart | ScanPage.ResetDropsLateReply |
| src/app/worker/dashboard/scan/page.tsx:40-60 | the stop button stays enabled while the camera permission is pending, and the continuation after `getUserMedia` does not check that the page is still scanning | press start, press stop before granting the camera, then grant it; the idle page holds the camera and runs the scan loop, and starting again leaves a stream whose tracks are never stopped | a stream granted for an abandoned start is stopped at once | medium; not executed | ScanPage.StopDuringCameraRequest | ScanPage.StopDuringCameraRequestFixed |
| src/app/admin/dashboard/invoices/page.tsx:29-38 | `handleDelete` filters the `invoices` array captured by the render in which the button was pressed, and the delete buttons stay enabled while a delete is pending | delete invoice A, then invoice B before A's reply arrives; A's reply shows the list without A, and B's reply shows the original list without B, so A is listed again although it is deleted on the server | each reply removes its invoice from the list shown when it arrives (a functional state update) | medium; not executed | InvoicesPage.OverlappingDeletesRestore | InvoicesPage.DeletesFromCurrentList |
