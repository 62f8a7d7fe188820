# Healthy-food shop: order, payment and menu rules in Dafny

This project models the core of a small take-away food shop. A FastAPI back
end keeps products, orders and Stripe payment transactions in MongoDB. A React
front end shows the menu, takes the customer's contact details and pickup time
at checkout, starts the Stripe or PayPal payment, and confirms the payment when
the customer returns.

There is one Dafny module per part of the program:

- `Wrappers` (wrappers.dfy) holds `Option` and `Result`.
- `Text` (text.dfy) holds the JavaScript string operations the pages use:
  - `trim` with JavaScript's whitespace set;
  - `toLowerCase`;
  - `includes`;
  - `Array.prototype.filter`.

  Each is given a reference meaning and lemmas linking the two.
- `PaymentSuccess` (payment_success.dfy) is the payment-confirmation page.
  - The return URL selects a path on entry.
  - The polling routine is a step function over `PollState` (status, attempts, requests issued), with `Settle` iterating it.
  - The `Poller` class holds the page's fields. Its methods are proved to follow the step function.
- `OrderStore` (server.dfy) is the back end.
  - Each handler is a pure operation on the three collections (`Db`).
  - The `Store` class holds the collections as maps: products and orders keyed by their id, payment transactions by their Stripe session id. Its methods are proved to perform exactly those operations. Its invariant `Valid` keeps every record under its key and every order's payment session linked to a transaction that names the order back.
  - Money is held in integer cents.
- `Checkout` (checkout.dfy) is the checkout page:
  - form validation, including the email regular expression;
  - the pickup-time slots;
  - the order payload;
  - the order and payment handlers.

  The page's state is the `Page` value. Each handler is a function on it, and the `CheckoutPage` class's methods are proved to match those functions. Requests the page sends are recorded in the state, and the server's answers are parameters.
- `Menu` (menu.dfy) is the menu's category-and-search filter.

## Model

| member | source | states |
|---|---|---|
| Text.BlankIffAllWhitespace | frontend/src/pages/Checkout.js:57 | `!s.trim()` holds exactly when every character of `s` is JavaScript whitespace |
| Text.ToLower | frontend/src/pages/Menu.js:49 | lower-casing keeps the length and maps each character through ASCII lower-casing |
| Text.TrimStart | frontend/src/pages/Checkout.js:57-60 | `trimStart` never lengthens the string and leaves no whitespace at its front |
| Text.TrimEnd | frontend/src/pages/Checkout.js:57-60 | `trimEnd` never lengthens the string and leaves no whitespace at its end |
| Text.Trim | frontend/src/pages/Checkout.js:57-60 | definition of `s.trim()` as `TrimEnd` after `TrimStart`; its contract is stated by `TrimSlice` and `TrimEnds` |
| Text.TrimSlice | frontend/src/pages/Checkout.js:57-60 | `trim` returns a slice of the string with only whitespace cut before and after it |
| Text.TrimEnds | frontend/src/pages/Checkout.js:57-60 | a non-empty trimmed string neither starts nor ends with whitespace |
| Text.Includes | frontend/src/pages/Menu.js:51-52 | the computed `includes` is true exactly when the term occurs at some position of the string |
| Text.Filter | frontend/src/pages/Menu.js:45 | the result is an order-preserving subsequence of the input, holding exactly the elements the predicate accepts, each as many times as it occurs in the input |
| Text.FilterAll | frontend/src/pages/Menu.js:45 | a filter that accepts every element returns the input unchanged |
| Text.SubsequenceTransitive | frontend/src/pages/Menu.js:41-56 | chaining two order-preserving filters gives an order-preserving filter |
| PaymentSuccess.Entry | frontend/src/pages/PaymentSuccess.js:16-27 | PayPal marker ⇒ success; otherwise a non-empty session id ⇒ checking; otherwise error; each path is taken exactly under its condition, with no request made |
| PaymentSuccess.PollWith | frontend/src/pages/PaymentSuccess.js:29-57 | definition of one poll given the attempt count the bound test reads; its contract is stated by `Next` (the current count) and `AsWrittenPollsForever` (the count captured as 0) |
| PaymentSuccess.Next | frontend/src/pages/PaymentSuccess.js:29-57 | a poll at the bound turns checking into pending without a request; below it one request is made and paid ⇒ success, expired ⇒ error, failure ⇒ error, anything else ⇒ one more attempt; settled states are left alone |
| PaymentSuccess.NextPreservesInv | frontend/src/pages/PaymentSuccess.js:29-57 | every poll keeps attempts and requests within 5, one attempt per unsettled request |
| PaymentSuccess.NextDecreases | frontend/src/pages/PaymentSuccess.js:32-52 | each poll from checking makes progress towards a settled status |
| PaymentSuccess.Settle | frontend/src/pages/PaymentSuccess.js:48-52 | re-polling until settled keeps the invariant |
| PaymentSuccess.SettleTerminates | frontend/src/pages/PaymentSuccess.js:30-35 | whatever the server answers, polling settles on success, pending or error after at most 5 status requests |
| PaymentSuccess.NeverSettledEndsPending | frontend/src/pages/PaymentSuccess.js:30-52 | a session that never becomes paid or expired ends as pending after exactly 5 requests |
| PaymentSuccess.ImmediatePaid | frontend/src/pages/PaymentSuccess.js:40-42 | a first answer of paid gives success after one request |
| PaymentSuccess.FirstRequestFails | frontend/src/pages/PaymentSuccess.js:53-56 | a failed first request gives error, with no retry |
| PaymentSuccess.NextAsWritten | frontend/src/pages/PaymentSuccess.js:29-52 | definition of one poll as written, the bound test reading the captured count 0; its contract is stated by `AsWrittenPollsForever` |
| PaymentSuccess.PollAsWritten | frontend/src/pages/PaymentSuccess.js:29-52 | definition of n polls as written from a fresh session; its contract is stated by `AsWrittenPollsForever` |
| PaymentSuccess.AsWrittenPollsForever | frontend/src/pages/PaymentSuccess.js:29-52 | as written, the bound test never fires: after any number n of unsettled answers the page is still checking, having sent n requests |
| PaymentSuccess.Poller.constructor | frontend/src/pages/PaymentSuccess.js:13-27 | the page's fields after mounting are the entry state |
| PaymentSuccess.Poller.Step | frontend/src/pages/PaymentSuccess.js:29-57 | one run of the polling routine updates the fields as `Next` says and keeps the invariant |
| PaymentSuccess.Poller.Run | frontend/src/pages/PaymentSuccess.js:48-52 | polling until settled leaves the fields at `Settle` of the initial state, terminal, with at most 5 requests |
| OrderStore.NewProduct | backend/server.py:46-58 | a product built from creation data keeps every given field and gets the 10% default tax rate |
| OrderStore.InitialSeeds | backend/server.py:290-300 | the initial products, in order, each under its fixed id |
| OrderStore.SeedWith | backend/server.py:290-303 | definition of the seeding loop over a list of seeds; its contract is stated by `SeedWithSpec` and `SeedingPresentIsNoOp` |
| OrderStore.SeedWithSpec | backend/server.py:290-302 | the seeding loop adds exactly the seeds' missing ids, never touches an existing product, and stores seeds under their own ids |
| OrderStore.SeedingPresentIsNoOp | backend/server.py:292-294 | when every fixed id is already present, seeding inserts nothing |
| OrderStore.Seeded | backend/server.py:285-306 | after start-up all nine fixed ids are present, existing products are unchanged, new ones are initial products |
| OrderStore.SeedingIdempotent | backend/server.py:285-306 | restarting the server seeds nothing more |
| OrderStore.SeededWellKeyed | backend/server.py:291-302 | seeding keeps every product stored under its own id |
| OrderStore.Store.Startup | backend/server.py:285-306 | start-up leaves the products at `Seeded` of the old ones, still each under its own id; orders and transactions untouched |
| OrderStore.Store.SeedProducts | backend/server.py:291-302 | the loop over the seeds leaves the products at `SeedWith` of the old ones; orders and transactions untouched |
| OrderStore.BuildQuery | backend/server.py:313-317 | a category filter only for a non-empty category; the availability filter as requested |
| OrderStore.Select | backend/server.py:310-319 | exactly the products matching the query, unchanged |
| OrderStore.UnfilteredQuerySelectsAll | backend/server.py:310-319 | no category and `available_only` off returns every product |
| OrderStore.Store.GetProducts | backend/server.py:310-323 | the handler returns `Select` of the query it builds |
| OrderStore.ApplyUpdate | backend/server.py:350-352 | each field given in the update is overwritten, each absent one kept; id and tax rate never change |
| OrderStore.EmptyUpdateIsIdentity | backend/server.py:350-352 | an update with no fields leaves the product as it was |
| OrderStore.UpdateIdempotent | backend/server.py:350-352 | applying an update twice is applying it once |
| OrderStore.UpdateProductOp | backend/server.py:344-358 | unknown id ⇒ 404 and no change; otherwise the merged product is stored and returned |
| OrderStore.Store.UpdateProduct | backend/server.py:344-358 | the handler acts as `UpdateProductOp`, touching only the products |
| OrderStore.DeleteProductOp | backend/server.py:360-373 | initial id ⇒ 403 and no change; unknown id ⇒ 404; otherwise exactly that product is removed; the initial products can never be removed |
| OrderStore.Store.DeleteProduct | backend/server.py:360-373 | the handler acts as `DeleteProductOp` |
| OrderStore.OrderTotalAppend | backend/server.py:380 | the order total, Σ price × quantity, is additive over concatenated item lists |
| OrderStore.OrderTotal | backend/server.py:380 | items with non-negative prices and quantities have a non-negative total |
| OrderStore.NewOrder | backend/server.py:377-396 | a new order is pending, unpaid, totals price × quantity over its items (one unit of one product costs its price), copies the contact fields, and stores missing notes as "" |
| OrderStore.Store.CreateOrder | backend/server.py:377-396 | the new order is stored under its fresh id and nothing else changes |
| OrderStore.SetStatusOp | backend/server.py:421-432 | an unknown status ⇒ 400 before the lookup; unknown order ⇒ 404; otherwise only that order's status changes; success exactly when both are valid |
| OrderStore.Store.UpdateOrderStatus | backend/server.py:421-432 | the handler acts as `SetStatusOp`, touching only the orders |
| OrderStore.RStripSlash | backend/server.py:452 | the result is the origin with all trailing slashes removed, and nothing else |
| OrderStore.UrlsIgnoreTrailingSlash | backend/server.py:452-454 | success and cancel URLs are the same whether or not the origin ends in a slash |
| OrderStore.SuccessUrl | backend/server.py:452-453 | the success URL is the origin without its trailing slashes followed by `/payment-success?session_id={CHECKOUT_SESSION_ID}` |
| OrderStore.CancelUrl | backend/server.py:452-454 | the cancel URL is the origin without its trailing slashes followed by `/checkout?order_id=` and the order id |
| OrderStore.CancelUrlCarriesOrderId | backend/server.py:454 | the cancel URL ends with `/checkout?order_id=` followed by the order id |
| OrderStore.SessionRequestFor | backend/server.py:452-468 | Stripe is asked for the order's total in euros, with the success and cancel URLs and the order id |
| OrderStore.RecordSession | backend/server.py:470-489 | a pending Stripe transaction for the order's total is stored under the session id, and the order records the session and the method |
| OrderStore.Store.CreateStripeCheckout | backend/server.py:436-491 | unknown order ⇒ 404, no Stripe call, no change; Stripe failure ⇒ 500, no change; otherwise the store is `RecordSession` of the old one |
| OrderStore.MarkPaid | backend/server.py:501-512 | an existing unpaid transaction and every order carrying that session become paid, each with all its other fields unchanged; otherwise nothing changes; other orders and transactions are untouched |
| OrderStore.SessionOnOneOrder | backend/server.py:486-489 | with the sessions linked, two orders carrying the same session are the same order |
| OrderStore.RecordSessionKeepsLinks | backend/server.py:470-489 | recording a fresh session keeps every record under its key and every order's session linked to a transaction naming that order |
| OrderStore.MarkPaidKeepsLinks | backend/server.py:503-512 | marking a session paid keeps every record under its key and the sessions linked |
| OrderStore.MarkPaidChangesOneOrder | backend/server.py:511-512 | with the sessions linked, marking a session paid changes at most the one order its transaction names, as `update_one` does |
| OrderStore.MarkPaidIdempotent | backend/server.py:503-504 | a repeated paid report changes nothing more |
| OrderStore.PaidSessionPaysItsOrder | backend/server.py:436-512 | once a checkout was recorded for an order, a paid report for its session marks both the order and the transaction paid |
| OrderStore.Store.GetCheckoutStatus | backend/server.py:493-524 | a Stripe failure ⇒ 400 and no change; a paid report ⇒ `MarkPaid`; any other report changes nothing |
| OrderStore.SumTotalsRemove | backend/server.py:576 | the revenue sum can take out any order first |
| OrderStore.SumTotalsNonNegative | backend/server.py:576 | a sum of non-negative order totals is non-negative |
| OrderStore.Revenue | backend/server.py:575-576 | the revenue is non-negative when every order total is |
| OrderStore.RevenueStep | backend/server.py:575-576 | counting one more order adds its total exactly when it is paid or completed |
| OrderStore.RevenueGainsPaidOrder | backend/server.py:575-576 | marking a non-earning order paid adds exactly its total to the revenue |
| OrderStore.RevenueIgnoresOtherStatuses | backend/server.py:575-576 | moving a non-earning order to another non-earning status leaves the revenue unchanged |
| OrderStore.Store.GetAdminStats | backend/server.py:566-584 | counts of products, orders, pending and paid orders, and revenue equal to Σ total over paid and completed orders |
| Checkout.WithField | frontend/src/pages/Checkout.js:51-54 | the named field takes the new value and every other field keeps its value |
| Checkout.IndexOf | frontend/src/pages/Checkout.js:59 | the position found holds the character and no earlier position does; none means the character is absent |
| Checkout.EmailPattern | frontend/src/pages/Checkout.js:59 | an accepted email has at least five characters, an `@`, and does not start with `@` |
| Checkout.EmailPatternIsRegex | frontend/src/pages/Checkout.js:59 | the split-at-first-`@` check accepts exactly the strings X@Y.Z with X, Y, Z non-empty runs without whitespace or `@` |
| Checkout.AcceptedEmailShape | frontend/src/pages/Checkout.js:59 | an accepted email has exactly one `@`, no whitespace, and a `.` with characters on both sides after the `@` |
| Checkout.ValidateForm | frontend/src/pages/Checkout.js:56-63 | definition of `validateForm`; its contract is stated by `ValidateFormFirstFailure` |
| Checkout.ValidateFormFirstFailure | frontend/src/pages/Checkout.js:56-63 | each message is returned exactly when its check is the first to fail, in the order name, email, email pattern, phone, pickup time; "" exactly when all pass |
| Checkout.ValidFormShape | frontend/src/pages/Checkout.js:56-63 | a form that passes has a single-`@` email and a non-whitespace character in name and phone |
| Checkout.EmptyFormNeedsName | frontend/src/pages/Checkout.js:15-21 | the initial empty form fails on the name first |
| Checkout.FirstSlot | frontend/src/pages/Checkout.js:32 | the first slot is on a quarter hour, between 30 and 44 minutes from now |
| Checkout.SlotMinute | frontend/src/pages/Checkout.js:35 | slot i is a minute of the day, wrapping past midnight |
| Checkout.ClockText | frontend/src/pages/Checkout.js:36-38 | the text of a time is five characters with `:` in the middle |
| Checkout.SlotsSpaced | frontend/src/pages/Checkout.js:34-35 | consecutive slots are 15 minutes apart on the 24-hour clock |
| Checkout.SlotsDistinct | frontend/src/pages/Checkout.js:34-39 | the eight slots are eight different times |
| Checkout.ClockTextRoundTrip | frontend/src/pages/Checkout.js:36-38 | every `HH:MM` text read back gives its minute of the day |
| Checkout.GenerateTimeOptions | frontend/src/pages/Checkout.js:29-41 | eight options, the i-th being the clock text of slot i, each reading back as that slot |
| Checkout.OrderItems | frontend/src/pages/Checkout.js:77-82 | one order item per cart line, in order, with product id, name, price and quantity |
| Checkout.OrderPayload | frontend/src/pages/Checkout.js:76-84 | the order body is the cart's items plus every form field |
| Checkout.StoredOrderMatchesCart | frontend/src/pages/Checkout.js:76-86 | the order the server stores for the payload has the cart's total, the form's notes, status pending, and one item per line |
| Checkout.Mount | frontend/src/pages/Checkout.js:15-25 | the page starts with an empty form, no error, no requests, and the `order_id` parameter (or "") as order id |
| Checkout.GuardOp | frontend/src/pages/Checkout.js:45-49 | an empty cart with no order id sends the browser to `/menu`; otherwise nothing happens |
| Checkout.CreateOrderOp | frontend/src/pages/Checkout.js:65-96 | an invalid form sets its message and sends nothing; otherwise one order request with the cart and the form, then the returned id is kept or the failure message shown |
| Checkout.SendOrderOp | frontend/src/pages/Checkout.js:73-95 | definition of the order request and its reply once the form passed; its contract is stated by `CreateOrderOp` |
| Checkout.StripeOrderId | frontend/src/pages/Checkout.js:99-104 | the order paid for is never empty; it is the held order id when there is one; otherwise it is the id of an order just created from a valid form |
| Checkout.StripeOp | frontend/src/pages/Checkout.js:98-124 | definition of `handleStripePayment` on the page state; its contract is stated by `StripeEffects`, `FirstPressCreates`, `SecondPressReuses` and `RetryReusesOrder` |
| Checkout.StripeEffects | frontend/src/pages/Checkout.js:98-124 | an order is created only when none is held; no checkout request without an order id; the cart is cleared and the browser sent away only when a URL comes back; a failed checkout request shows the payment error |
| Checkout.PayWith | frontend/src/pages/Checkout.js:106-123 | one checkout request for the order; a reply with a URL clears the cart and sends the browser there; a failure shows the payment error; order requests, order id and form never change |
| Checkout.FirstPressCreates | frontend/src/pages/Checkout.js:98-112 | a first press with a valid form and no held id creates the order, keeps it, and sends one checkout request for it |
| Checkout.SecondPressReuses | frontend/src/pages/Checkout.js:99-112 | a press with a held id sends no order request and one checkout request for the held id |
| Checkout.RetryReusesOrder | frontend/src/pages/Checkout.js:98-104 | after a press that created an order but failed to pay, a second press sends no new order and pays for the same order |
| Checkout.PayPalCreateOp | frontend/src/pages/Checkout.js:336-345 | the PayPal callback always runs `createOrder` and lets the widget go on only when a non-empty id came back |
| Checkout.PayPalRecreatesOrder | frontend/src/pages/Checkout.js:336-337 | unlike the Stripe path, the PayPal path sends a new order request even when an order id is already held |
| Checkout.PayPalApproveOp | frontend/src/pages/Checkout.js:126-130 | approval clears the cart and goes to `/payment-success?method=paypal`, with no request |
| Checkout.CheckoutPage.constructor | frontend/src/pages/Checkout.js:15-25 | the fields after mounting are `Mount` |
| Checkout.CheckoutPage.Guard | frontend/src/pages/Checkout.js:45-49 | the effect updates the fields as `GuardOp` |
| Checkout.CheckoutPage.Input | frontend/src/pages/Checkout.js:51-54 | only the form changes, as `WithField` says |
| Checkout.CheckoutPage.CreateOrder | frontend/src/pages/Checkout.js:65-96 | fields and result as `CreateOrderOp` |
| Checkout.CheckoutPage.SendOrder | frontend/src/pages/Checkout.js:73-95 | the order request and the handling of its reply, once the form passed |
| Checkout.CheckoutPage.HandleStripePayment | frontend/src/pages/Checkout.js:98-124 | fields as `StripeOp` |
| Checkout.CheckoutPage.Pay | frontend/src/pages/Checkout.js:106-123 | fields as `PayWith` |
| Checkout.CheckoutPage.PayPalCreateOrder | frontend/src/pages/Checkout.js:336-345 | fields and result as `PayPalCreateOp` |
| Checkout.CheckoutPage.HandlePayPalApprove | frontend/src/pages/Checkout.js:126-130 | fields as `PayPalApproveOp` |
| Menu.FilterProducts | frontend/src/pages/Menu.js:41-57 | an order-preserving subsequence of the products holding exactly those in the selected category (any for `all`) whose lower-cased name or description contains the lower-cased term (any for an empty term), each as many times as it appears |
| Menu.ShowAll | frontend/src/pages/Menu.js:41-57 | category `all` and an empty term return the whole list unchanged |
| Menu.CategoryOnly | frontend/src/pages/Menu.js:44-46 | when every product is in the selected category, the category filter keeps them all, in order |
| Menu.SearchMeaning | frontend/src/pages/Menu.js:48-53 | a non-empty term matches exactly when it occurs, lower-cased, in the lower-cased name or description |
| Menu.SearchIgnoresCase | frontend/src/pages/Menu.js:49 | the result does not depend on the case of the search term |
| Menu.SearchNarrows | frontend/src/pages/Menu.js:48-54 | a search only narrows the category's products, keeping their order |

## Left out

- The cart store (`useCart`: its items, `total` and `clearCart`) is a parameter. frontend/src/context/CartContext.js is not part of this model.
- The PayPal order amount (`total.toFixed(2)`) and the PayPal SDK's own order creation are not modelled. They come from the cart store and the PayPal widget.
- Network requests, Stripe's SDK, MongoDB and navigation become parameters or recorded values:
  - the answers to `axios` calls and to Stripe;
  - the bodies of the requests the checkout page sends;
  - the location the browser is sent to.
- The `loading` flags are not modelled. They show that a request is in flight, and they also disable the Stripe button while it is (frontend/src/pages/Checkout.js:315), which guards against a second press during a request. The model lets presses follow one another only after each has finished.
- The 2-second timer between status polls is not modelled. One `Step` is one run of the polling routine, and requests are answered in order.
- Concurrency is not modelled: overlapping button presses, and two server requests interleaving.
- The current time is a parameter, given as minutes since midnight. Seconds and daylight-saving changes are not modelled.
- Logging and `console.error` are not modelled.
- `created_at` timestamps are left out.
- Fresh identifiers are parameters. `Store.CreateOrder` requires the fresh order id to be unused, and `Store.CreateStripeCheckout` requires Stripe's new session id to be unused.
- Money is exact integer cents, and ingredient quantities and costs are exact reals. Python floats, `round(total, 2)` and `float(order['total'])` are not modelled.
- Text.ToLower: only ASCII letters are lower-cased. JavaScript's full Unicode case mapping is not modelled.
- OrderStore.Select: `GET /api/products` returns a map keyed by id. The `to_list(100)` cap and the database's result order are not modelled.
- OrderStore.Store.GetAdminStats: the revenue query's `to_list(1000)` cap and the final `round` are not modelled.
- Products and orders are modelled as keyed by their `id`, and payment transactions by their `session_id`, the field every lookup of them uses. The code's `find_one`, `update_one` and `delete_one` act on the first match; with unique keys that is the only match.
- A payment transaction's own `id` (a fresh UUID, backend/server.py:111) is not modelled; no handler reads it back. Its `metadata` dict, whose only entry is the customer's email (backend/server.py:478), is modelled by the transaction's `customerEmail` field.
- `GET /api/products` takes `available_only` with a default of true (backend/server.py:311). The menu page calls it with no parameters (frontend/src/pages/Menu.js:32), so it is shown only available products; `Store.GetProducts` takes the flag as a parameter and the menu's caller passes true.
- OrderStore.MarkPaid marks every order that carries the session, where `update_one` marks the first. The two agree on every store the handlers can reach: `Store.Valid` includes `SessionsLinked`, under which no two orders carry the same session (`SessionOnOneOrder`) and `MarkPaid` changes only the order the session's transaction names (`MarkPaidChangesOneOrder`).
- `GET /products/{id}`, `POST /products`, `GET /orders`, `GET /orders/{id}`, the Stripe webhook, admin login and the root route are outside this model.
- The server's request validation (pydantic types) is left out. Only well-typed bodies are modelled.
- How the success page's query string is parsed (`useSearchParams`) is left out. `Entry` takes the `method` and `session_id` values directly.

## Findings

| source | as written | input that shows it | evidently intended | confidence | as-written member | corrected member |
|---|---|---|---|---|---|---|
| frontend/src/pages/PaymentSuccess.js:32 | the bound test reads `attempts` from the closure created on the first render, where it is 0. The increment at line 50 updates React state but never reaches that closure | a status endpoint that keeps answering `payment_status` "unpaid", `status` "open": the page polls every 2 seconds forever and never shows pending | stop after 5 unsettled attempts and show pending | not executed | PaymentSuccess.AsWrittenPollsForever | PaymentSuccess.NeverSettledEndsPending |

The rest of the model uses the corrected machine (`Next`, `Settle`, `Poller`), where the bound test reads the current count.
