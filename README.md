# Fresh Blooms checkout and order reconciliation, in Dafny

This project models the server of a small flower shop (`index.js`) and its browser cart
(`cart.js`), and proves properties of that model.

The server has two endpoints:

- `/api/create-checkout-session` refuses a request without items. Otherwise it builds
  one payment line per cart item and tags each line's product with the internal product
  id (`metadata.product_id = String(id)`). It creates the hosted payment session, then
  tries to record a `pending` order. A failed insert does not change the answer: the
  response is always the session's URL.
- `/webhook` authenticates the notification body, either by signature check or, when no
  signing secret is configured, by parsing it unchecked. The model takes that body to be
  the raw request bytes (see "Left out"). For a `checkout.session.completed`
  event it retrieves the session's line items and runs one database transaction:
  - It looks up the order by the session id. If one exists it marks it `paid` with the
    new total; otherwise it inserts a new `paid` order.
  - It writes one `order_items` row per line item.
  - For an item whose product metadata carries a truthy `parseInt`ed `product_id`, it also
    runs `stock = GREATEST(stock - qty, 0)` on that product.
  - Any throwing call rolls the whole transaction back.

  Every authenticated delivery answers `{received: true}`.

The cart is a list of entries keyed by `id`. `addToCart` bumps the quantity of the
matching entry or appends a copy of the item with quantity 1. The total is the sum of
`price_in_paise * qty`. `getCartForCheckout` projects each entry onto four fields.

Modules (one file each):

- `Wrappers`: `Option` and `Result`.
- `JsNumbers`: the JavaScript semantics the server depends on: `String(n)`,
  `parseInt(s, 10)` (white space, sign, digit prefix, NaN), and how strings and numbers
  behave under `||` and `if`.
- `Tables`: the three tables as a value `Db`, one function per SQL statement, the
  invariant `Valid`, and the `Store` class. `Store` holds the tables as fields, and each
  of its methods runs one statement in place.
- `Webhook`: the reconciliation specification `ReconcileSpec`, and the transaction as
  imperative methods over a `Store`. `WriteOrder`, `WriteItem` and `WriteItems` do the
  loop; `Reconcile` adds the rollback. `HandleWebhook` is the endpoint.
- `CheckoutSession`: the session-creation endpoint, the line-item projection, the pending
  insert, and the product-id round trip between the two endpoints.
- `Cart`: `cart.js`, with the stored cart held in a `CartStorage` object.

Payment-provider calls are parameters of the handlers. `create` maps the creation
request to a created session or an error. `verify` and `parse` return an event or an
error. `retrieve` maps a session id to its line items or an error. A database failure
is a parameter too: `fault` is the number of the database call that throws, with calls
numbered getConnection 0, beginTransaction 1, SELECT 2, the order write 3, then the
loop's inserts and stock updates, then COMMIT.

Behaviour of the code that the model keeps as written:

- **Repeat deliveries.** The upsert is keyed on the order only. A second delivery of
  the same completed session finds the order and rewrites it; it does not check for order
  items already written. `Webhook.RedeliveryRepeatsItemWrites` proves what happens.
  The number of orders and their ids stay the same. The order's total is rewritten with the
  event's `amount_total`, so a null total stored as 0 by the first delivery becomes null.
  Every line item's row is appended a second time. Each linked product's stock is
  clamped again by every linked quantity.
- **Failed transactions.** A rollback or a retrieval failure is only logged; an event
  of another type is dropped silently (index.js:93 has no `else`). The response is still `{received: true}`, and so is `HandleWebhook`'s.
- **Empty carts.** The rejection is `400 {error: 'No items'}`.
- **The paid-update total.** It writes `amount_total` as it comes (no `|| 0`), so an
  order's total is nullable in the model. Both inserts write `amount_total || 0`.
- **Which session fields are used.** The session id, total and email used for the order
  come from the event's object. Only the line items come from retrieval.
- **The session-id key.** The source ships no database schema. The model assumes a
  UNIQUE key on `orders.stripe_session_id`, so an insert for a recorded session fails.

## Model

| member | source | states |
|---|---|---|
| `JsNumbers.ParseIntDecimal` | index.js:125 | `parseInt(String(n), 10)` gives back `n` for every integer `n`, and still does when non-digit text follows |
| `JsNumbers.ParseIntNoDigits` | index.js:125 | a metadata string containing no digit at all parses to NaN |
| `JsNumbers.TrimStartDropsSpace` | index.js:125 | what `parseInt` skips before the number is JavaScript white space |
| `JsNumbers.SignStrippedDropsSign` | index.js:125 | exactly one leading `-` or `+` is taken as the sign, and nothing is dropped otherwise |
| `JsNumbers.ParseIntSkipsSpace` | index.js:125 | leading white space does not change what `parseInt` returns |
| `JsNumbers.ParseIntSpaceDigits` | index.js:125 | white space, then the digits `d`, then a non-digit or the end, parses to the value of `d` |
| `JsNumbers.ParseIntSpaceSignDigits` | index.js:125 | white space, a `-` or `+`, then the digits `d` and a non-digit or the end, parses to the value of `d`, negated for `-` |
| `JsNumbers.ParseIntSpaceNoNumber` | index.js:125 | white space followed by nothing, or by a character that is neither a digit nor a sign, parses to NaN |
| `JsNumbers.ParseIntSpaceSignNoDigit` | index.js:125 | white space and a sign not followed by a digit parse to NaN |
| `JsNumbers.DecimalStringShape` | index.js:41 | `String(n)` is a non-empty digit string, preceded by `-` exactly when `n` is negative |
| `Tables.FirstWithSession` | index.js:109 | the SELECT by session id finds the first order with that session id, and finds none exactly when no order has it |
| `Tables.LookupOrder` | index.js:109-111 | `existing[0].id` is the id of an order carrying the session id; there is none exactly when no order carries it |
| `Tables.AddOrder` | index.js:114 | the insert appends one row under the next auto-increment id and advances the counter; order items and stock are unchanged |
| `Tables.OrderInserted` | index.js:59-62 | an order insert is refused exactly when the session id is already recorded (the UNIQUE key) |
| `Tables.MarkPaid` | index.js:112 | the paid-update sets status `paid` and the new total on the rows with that id, and leaves every other row and table as it was |
| `Tables.Clamp` | index.js:134 | `GREATEST(stock - qty, 0)` is never negative; it is `stock - qty` unless that is negative, and then 0 |
| `Tables.StockDecremented` | index.js:134 | the stock update clamps only the named product, changes no other product, and adds or removes no product |
| `Tables.ItemInserted` | index.js:132 | an order-item insert appends the row at the end and changes no other table |
| `Tables.InsertOrderPreservesValid` | index.js:113-116 | a successful insert keeps one order per session, distinct order ids and owned order items, and the new id names an order |
| `Tables.MarkPaidPreservesValid` | index.js:112 | the paid-update keeps the invariant and the set of order ids |
| `Tables.Store.SelectOrderId` | index.js:109 | the SELECT returns the lookup over the current tables and changes nothing |
| `Tables.Store.InsertOrder` | index.js:114-115 | `insertId` is the next id and the tables gain that order; a duplicate session id leaves the tables unchanged |
| `Tables.Store.UpdateOrderPaid` | index.js:112 | the tables become those after the paid-update |
| `Tables.Store.InsertItem` | index.js:132 | the order-items table gains exactly that row at its end |
| `Tables.Store.DecrementStock` | index.js:134 | the tables become those after the clamped stock update |
| `Tables.Store.Rollback` | index.js:145 | the tables return to the saved state |
| `Webhook.LinkedProduct` | index.js:122-130 | an item never links to product 0 |
| `Webhook.LinkedProductReadsProductId` | index.js:122-130 | an item links to a product exactly when its metadata has a `product_id` (as `ProductIdText` reads it through the `li.price.product.metadata` chain of index.js:124) whose `parseInt` is a number other than 0, and then to that number |
| `Webhook.NameSnapshot` | index.js:137 | the row's name is never empty |
| `Webhook.FalsyProductIdIsUnlinked` | index.js:130 | a `product_id` that parses to 0 or NaN takes the unlinked path |
| `Webhook.ParsedProductIdLinks` | index.js:124-130 | a `product_id` that `parseInt` reads as `n` links to product `n`, and to nothing when `n` is 0 |
| `Webhook.DecimalProductIdLinks` | index.js:124-130 | a `product_id` written as `String(n)` links to product `n`, and to nothing when `n` is 0 |
| `Webhook.UpsertOrder` | index.js:108-116 | a recorded session reuses its order id and keeps the order count and the id counter. An unrecorded one appends one `paid` order with the session id, the email or null and the total or 0 under the next id, and bumps the counter. Either way the item and stock tables are unchanged |
| `Webhook.UpsertOrderMarksPaid` | index.js:108-116 | after the upsert, the order under the id it returns carries the session id and is `paid` |
| `Webhook.ReconcileSpec` | index.js:107-140 | a committed reconciliation adds an order exactly when the session was unrecorded, and adds exactly one item row per line item |
| `Webhook.ApplyItems` | index.js:119-140 | the line-item loop leaves the orders table, the id counter and the set of products alone, and grows the order-items table by one row per line item |
| `Webhook.ApplyItemsRows` | index.js:119-139 | the loop keeps every earlier row and appends exactly one row per line item, in line-item order |
| `Webhook.ApplyItemsStock` | index.js:130-134 | each product's stock goes through one clamp per line item linked to it, in order |
| `Webhook.ClampAllIsFloorOfSum` | index.js:134 | clamping a non-negative stock by non-negative quantities q1..qn gives max(stock - (q1+..+qn), 0), which is never negative |
| `Webhook.UnlinkedProductKeepsStock` | index.js:130-139 | a product that no line item links to has no quantity taken from it |
| `Webhook.ApplyItem` | index.js:120-139 | one iteration appends that item's row at the end, keeps the orders, the id counter and the set of products, and changes no stock when the item is unlinked |
| `Webhook.ReconcileReusesOrder` | index.js:110-112 | for a recorded session, its order id is reused, that order becomes `paid` with `amount_total`, no order row is added and the other orders are unchanged |
| `Webhook.ReconcileInsertsOrder` | index.js:113-116 | for an unrecorded session, exactly one `paid` order is appended with the session id, the email (null when empty) and the total (0 when null) |
| `Webhook.ReconcileRows` | index.js:119-139 | each line item yields one new row (`RowFor`, the values inserted at index.js:132 and 138) on the order used, with its product link, name snapshot, unit amount and quantity; earlier rows are kept |
| `Webhook.ReconcileStock` | index.js:130-134 | no product appears or disappears; a product's stock is clamped once per linked item and is unchanged when no item links it |
| `Webhook.ReconcilePreservesValid` | index.js:107-140 | a committed reconciliation keeps one order per session, distinct ids, owned rows and non-negative stock |
| `Webhook.ReconciledSessionFound` | index.js:108-116 | after reconciliation, the SELECT for the session finds exactly the order it used |
| `Webhook.RedeliveryRepeatsItemWrites` | index.js:107-140 | a second delivery of the same session keeps the number of orders and their ids, appends the same rows a second time, and clamps each product's stock again by its linked quantities |
| `Webhook.WriteItem` | index.js:130-139 | one iteration succeeds exactly when neither of its calls throws, and then applies that item's row and stock writes |
| `Webhook.WriteItems` | index.js:119-140 | the loop succeeds exactly when every item has a price and no call throws, and then the tables are those of the specification |
| `Webhook.WriteOrder` | index.js:108-116 | the order step leaves the tables and the order id exactly as the upsert specification gives them |
| `Webhook.Reconcile` | index.js:103-149 | the transaction commits exactly when every item has a price and no call up to COMMIT throws. On commit the tables are `ReconcileSpec` of the old tables; otherwise they are unchanged |
| `Webhook.Authenticate` | index.js:82-91 | with a non-empty signing secret the event is the signature check's result; with no secret, or an empty one, it is the unchecked parse of the body |
| `Webhook.UnsignedIgnoresSignature` | index.js:83-87 | without a non-empty secret the signature header plays no part, and an empty secret acts as an absent one |
| `Webhook.DeliveryEffect` | index.js:93-153 | a delivery changes the tables only if it authenticates as a completed event, its line items are retrieved, and the transaction commits |
| `Webhook.DeliveryPreservesValid` | index.js:93-153 | every delivery, whatever its outcome, keeps the database invariant |
| `Webhook.HandleWebhook` | index.js:77-156 | failed authentication answers 400 `Webhook Error: ...` and leaves the store alone. Otherwise the answer is `{received: true}`, and only a completed, retrieved and committed session changes the tables |
| `CheckoutSession.BuildLineItems` | index.js:36-46 | one line per cart item, same length and order, with `unit_amount = price_in_paise`, `quantity = qty`, currency `inr`, the item's name, and metadata `product_id = String(id)` (`IdString`: the decimal form of a numeric id, a string id as it is) |
| `CheckoutSession.SessionRequest` | index.js:48-55 | the creation request has the built lines, card payment in `payment` mode, the email only when non-empty, and the success and cancel pages under the domain |
| `CheckoutSession.PendingEffect` | index.js:58-66 | the pending insert touches only the orders table. A fault or a recorded session leaves the tables unchanged. Otherwise one order is added, and the session id then finds it under the next id |
| `CheckoutSession.CreateCheckoutSession` | index.js:30-73 | a missing, non-array or empty `items` (the negation of `HasItems`, index.js:33) answers 400 `No items` and writes nothing; a failed creation answers 500; otherwise the answer is the session URL and the tables are those after the best-effort pending insert |
| `CheckoutSession.PendingOrderRecorded` | index.js:58-62 | for a new session, the pending insert appends exactly one `pending` order with the total (0 when null) and the email (null when empty), and touches no other table |
| `CheckoutSession.PendingPreservesValid` | index.js:58-66 | the pending insert, whether it succeeds or fails, keeps the database invariant |
| `CheckoutSession.ProductIdRoundTrip` | index.js:41 | a cart item whose `String(id)` is the decimal form of the integer `n` is linked back to product `n` at reconciliation (unlinked for 0), with its price, quantity and name |
| `CheckoutSession.ParsedIdRoundTrip` | index.js:41 | the same for any cart id whose `String(id)` `parseInt` reads as `n`, such as the string ids `"07"`, `" 7"` or `"7 roses"` for 7 |
| `CheckoutSession.RoseBouquetScenario` | index.js:58-139 | two bouquets of product 7 at 49900: pending order of 99800, then paid, one row (7, 49900, 2), and stock `max(S - 2, 0)` |
| `Cart.IndexOf` | cart.js:9 | `cart.find` gives the first entry with the id, or none exactly when no entry has it |
| `Cart.WithItemAdded` | cart.js:7-12 | the cart grows by one entry exactly when the id was absent; earlier entries keep their id, name and price, and the item's id is then present |
| `Cart.CartStorage.AddToCart` | cart.js:7-12 | the saved cart becomes the cart with the item added |
| `Cart.AddExistingBumpsQty` | cart.js:9-10 | for an id already present, the length is unchanged, that entry's `qty` goes up by 1 and every other entry is unchanged |
| `Cart.AddNewAppends` | cart.js:10 | for a new id, exactly one entry is appended at the end: a copy of the item with `qty = 1` |
| `Cart.AddKeepsIdsUnique` | cart.js:8-11 | if ids were unique before, they are unique after, and the item's id is in the cart |
| `Cart.TotalAfterAdd` | cart.js:25 | adding raises the total by one unit price: the stored entry's when present, else the item's |
| `Cart.CartTotal` | cart.js:25 | the cart total is 0 for an empty cart, and non-negative when no price or quantity is negative |
| `Cart.ForCheckout` | cart.js:55-57 | same length and order, keeping exactly `id`, `name`, `price_in_paise` and `qty` of each entry |
| `Cart.CheckoutTotalMatches` | checkout.js:12 | the checkout page's total over the projected cart equals the cart's total |
| `Cart.CheckoutTotal` | checkout.js:12 | the checkout page's total is non-negative when no price or quantity is negative |

## Left out

- Payment-provider calls: signature verification (`constructEvent`), `sessions.create` and `sessions.retrieve` (index.js:48, 84, 97) are foreign network calls. They are parameters of the handlers. `CheckoutSession.Reported` states what the provider is assumed to report back for a created line: its name as description, and the same price, quantity and metadata.
- Express wiring, static files, CORS, body parsing and `app.listen` (index.js:9-16, 158): these are I/O plumbing.
- `HandleWebhook` takes the raw request bytes as `body`. In this wiring, `bodyParser.json()` is installed for every route (index.js:16) ahead of the route's `bodyParser.raw` (index.js:77). An `application/json` delivery may therefore reach the handler already parsed. Then the signature check and `JSON.parse(req.body.toString())` both fail, and every delivery gets the 400. The model assumes the raw bytes arrive and does not model middleware order.
- The product listing query (index.js:19-27): a plain read behind the database.
- db.js (the connection pool), `NOW()` timestamps, SQL text, `conn.release()` and the `order_items` id column are not modelled. No database schema is part of the source. The UNIQUE key on `stripe_session_id` is a modelling assumption. Foreign keys are not modelled.
- Auto-increment: MySQL does not roll back its counter, but `Store.Rollback` restores `nextOrderId` with the rest. InnoDB can also use up a value on an insert that the duplicate key refuses, as the pending insert of index.js:59 is for a session already recorded, while `Store.InsertOrder` and `PendingEffect` keep the counter there. Order ids assigned after a rollback or a refused insert may therefore differ from the real server's.
- Concurrency: two deliveries racing on SELECT-then-INSERT are not modelled. Each delivery runs alone, start to finish.
- JavaScript numbers are modelled as unbounded integers. `parseInt` of more than 15 digits and totals above 2^53 are exact here but rounded in JavaScript. Fractional ids and prices are not modelled.
- Malformed input outside the handled cases is not modelled: a missing `req.body`, an event without `data.object` (index.js:94, outside the try), a null `quantity` or `unit_amount`, and cart items with non-numeric fields. A null `li.price` is modelled: it throws inside the transaction and rolls back.
- DOM rendering, `toFixed` rupee formatting, fetch and redirect in cart.js, checkout.js and shop.js: UI and floating-point display.
- Local-storage JSON parsing and serialisation (cart.js:3, 5): the stored cart is the `saved` sequence. A value that does not parse reads as the empty cart.
- The extra fields copied by `{...item}` are modelled as a string-to-string map.
- Console logging.
