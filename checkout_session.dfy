/**
  The `/api/create-checkout-session` endpoint: reject a request without items, build one
  payment line per cart item carrying the internal product id as metadata, create the
  payment session, and record a `pending` order for it on a best-effort basis.
 */
module CheckoutSession {
  import opened Wrappers
  import opened JsNumbers
  import opened Tables
  import Webhook

  /** A cart item's `id` as the browser sent it: a JSON number or a string. */
  datatype IdValue = NumId(n: int) | StrId(s: string)

  datatype RequestItem = RequestItem(id: IdValue, name: string, priceInPaise: int, qty: int)

  /** `req.body.items`: missing or falsy, some other non-array value, or an array. */
  datatype ItemsField = Absent | NotArray | ItemList(items: seq<RequestItem>)

  datatype RequestBody = RequestBody(items: ItemsField, customerEmail: Option<string>)

  datatype ProductData = ProductData(name: string, metadata: map<string, string>)

  datatype PriceData = PriceData(currency: string, productData: ProductData, unitAmount: int)

  /** One entry of `line_items` in the session-creation request. */
  datatype LineItemParam = LineItemParam(priceData: PriceData, quantity: int)

  /** The session-creation request. */
  datatype SessionParams = SessionParams(
    paymentMethodTypes: seq<string>, lineItems: seq<LineItemParam>, mode: string,
    customerEmail: Option<string>, successUrl: string, cancelUrl: string)

  /** The created session: its id, its redirect URL and its total. */
  datatype CreatedSession = CreatedSession(id: string, url: string, amountTotal: Option<int>)

  /** `400 {error: 'No items'}`, `500 {error: err.message}` or `{url}`. */
  datatype CreateResponse = BadRequest(error: string) | ServerError(error: string) | Redirect(url: string)

  /** `String(it.id)`. */
  function IdString(id: IdValue): (s: string)
  {
    match id
    case NumId(n) => DecimalString(n)
    case StrId(s) => s
  }

  /** The check at the top of the handler: `items` is present, an array, and not empty. */
  predicate HasItems(f: ItemsField)
  {
    f.ItemList? && |f.items| > 0
  }

  function LineItemParamOf(it: RequestItem): (p: LineItemParam)
  {
    LineItemParam(PriceData("inr", ProductData(it.name, map[Webhook.ProductIdKey := IdString(it.id)]), it.priceInPaise), it.qty)
  }

  /** `items.map(...)`: one priced line per cart item, in cart order. */
  function BuildLineItems(items: seq<RequestItem>): (r: seq<LineItemParam>)
    ensures |r| == |items|
    ensures forall i :: 0 <= i < |items| ==>
      && r[i].quantity == items[i].qty
      && r[i].priceData.unitAmount == items[i].priceInPaise
      && r[i].priceData.currency == "inr"
      && r[i].priceData.productData.name == items[i].name
      && r[i].priceData.productData.metadata == map[Webhook.ProductIdKey := IdString(items[i].id)]
  {
    seq(|items|, i requires 0 <= i < |items| => LineItemParamOf(items[i]))
  }

  /**
    The session-creation request: card payment of the built lines, the customer's email
    only when it is non-empty, and the success and cancel pages under `domain`.
   */
  function SessionRequest(items: seq<RequestItem>, customerEmail: Option<string>, domain: string): (r: SessionParams)
    ensures r.lineItems == BuildLineItems(items) && |r.lineItems| == |items|
    ensures r.paymentMethodTypes == ["card"] && r.mode == "payment"
    ensures r.customerEmail.Some? <==> customerEmail.Some? && customerEmail.value != ""
    ensures r.customerEmail.Some? ==> r.customerEmail == customerEmail
    ensures r.successUrl == domain + "/checkout.html?session_id={CHECKOUT_SESSION_ID}" && r.cancelUrl == domain + "/cart.html"
  {
    SessionParams(
      ["card"], BuildLineItems(items), "payment", OrNull(customerEmail),
      domain + "/checkout.html?session_id={CHECKOUT_SESSION_ID}", domain + "/cart.html")
  }

  /**
    The best-effort pending insert: a `pending` order keyed by the new session id, with
    total `amount_total || 0` and email `customer_email || null`. When the insert fails
    (`fault`, or the UNIQUE key on the session id) the tables are as before.
   */
  function PendingEffect(db: Db, session: CreatedSession, customerEmail: Option<string>, fault: bool): (r: Db)
    ensures r.items == db.items && r.stock == db.stock
    ensures fault || LookupOrder(db, session.id).Some? ==> r == db
    ensures !fault && LookupOrder(db, session.id).None? ==>
      |r.orders| == |db.orders| + 1 && LookupOrder(r, session.id) == Some(db.nextOrderId)
  {
    if fault then db
    else match OrderInserted(db, session.id, OrNull(customerEmail), OrZero(session.amountTotal), Pending)
      case Some(db') =>
        FirstWithSessionAt(db'.orders, session.id, |db.orders|);
        db'
      case None => db
  }

  /**
    The handler. A request without items is refused before the payment provider or the
    database is reached; a failed session creation answers 500 and writes nothing; otherwise
    the answer is the session's URL whether or not the pending insert succeeded.
   */
  method CreateCheckoutSession(
    store: Store, body: RequestBody, domain: string,
    create: SessionParams -> Result<CreatedSession, string>, pendingFault: bool) returns (response: CreateResponse)
    modifies store
    ensures !HasItems(body.items) ==> response == BadRequest("No items") && store.Snapshot() == old(store.Snapshot())
    ensures HasItems(body.items) ==>
      match create(SessionRequest(body.items.items, body.customerEmail, domain))
      case Failure(message) => response == ServerError(message) && store.Snapshot() == old(store.Snapshot())
      case Success(session) =>
        (response == Redirect(session.url) &&
         store.Snapshot() == PendingEffect(old(store.Snapshot()), session, body.customerEmail, pendingFault))
  {
    if !HasItems(body.items) {
      return BadRequest("No items");
    }
    var created := create(SessionRequest(body.items.items, body.customerEmail, domain));
    if created.Failure? {
      return ServerError(created.error);
    }
    var session := created.value;
    if !pendingFault {
      var id := store.InsertOrder(session.id, OrNull(body.customerEmail), OrZero(session.amountTotal), Pending);
    }
    return Redirect(session.url);
  }

  /** The pending insert appends exactly one pending order for a new session, and touches nothing else. */
  lemma PendingOrderRecorded(db: Db, session: CreatedSession, customerEmail: Option<string>)
    requires LookupOrder(db, session.id).None?
    ensures var r := PendingEffect(db, session, customerEmail, false);
      && r.orders == db.orders + [Order(db.nextOrderId, session.id, OrNull(customerEmail), Some(OrZero(session.amountTotal)), Pending)]
      && r.items == db.items && r.stock == db.stock
  {
  }

  lemma PendingPreservesValid(db: Db, session: CreatedSession, customerEmail: Option<string>, fault: bool)
    requires Valid(db)
    ensures Valid(PendingEffect(db, session, customerEmail, fault))
  {
    InsertOrderPreservesValid(db, session.id, OrNull(customerEmail), OrZero(session.amountTotal), Pending);
  }

  /** The line item the payment provider reports back for a line of the request. */
  function Reported(p: LineItemParam): (li: Webhook.LineItem)
  {
    Webhook.LineItem(
      p.quantity, Some(p.priceData.productData.name),
      Some(Webhook.Price(p.priceData.unitAmount,
        Some(Webhook.StripeProduct(Some(p.priceData.productData.name), Some(p.priceData.productData.metadata))))))
  }

  /**
    The product-id convention between the two endpoints: a cart item whose `String(id)` is
    the decimal form of the integer `n` comes back, after payment, linked to product `n` (unlinked when `n` is 0),
    with its price and quantity.
   */
  lemma ProductIdRoundTrip(items: seq<RequestItem>, i: nat, n: int)
    requires i < |items|
    requires IdString(items[i].id) == DecimalString(n)
    ensures var li := Reported(BuildLineItems(items)[i]);
      && Webhook.LinkedProduct(li) == (if n != 0 then Some(n) else None)
      && li.price.Some? && li.price.value.unitAmount == items[i].priceInPaise
      && li.quantity == items[i].qty
      && Webhook.NameSnapshot(li) == (if items[i].name != "" then items[i].name else "Unknown")
  {
    var li := Reported(BuildLineItems(items)[i]);
    Webhook.DecimalProductIdLinks(li, n);
  }

  /**
    The same for any id whose `String(id)` `parseInt` reads as `n`: besides `String(n)` itself,
    a string id such as `"07"`, `" 7"` or `"7 roses"` comes back linked to product 7.
   */
  lemma ParsedIdRoundTrip(items: seq<RequestItem>, i: nat, n: int)
    requires i < |items|
    requires ParseInt(IdString(items[i].id)) == Num(n)
    ensures var li := Reported(BuildLineItems(items)[i]);
      && Webhook.LinkedProduct(li) == (if n != 0 then Some(n) else None)
      && li.price.Some? && li.price.value.unitAmount == items[i].priceInPaise
      && li.quantity == items[i].qty
      && Webhook.NameSnapshot(li) == (if items[i].name != "" then items[i].name else "Unknown")
  {
    var li := Reported(BuildLineItems(items)[i]);
    Webhook.ParsedProductIdLinks(li, IdString(items[i].id), n);
  }

  /**
    The scenario of one bouquet bought twice: the pending order is created with total
    99800, and the completion turns it paid, writes one row for product 7 and takes 2 from
    its stock, floored at 0.
   */
  lemma RoseBouquetScenario(stock7: int)
    requires stock7 >= 0
    ensures
      var cart := [RequestItem(NumId(7), "Rose Bouquet", 49900, 2)];
      var session := CreatedSession("cs_test_1", "https://checkout.example/cs_test_1", Some(99800));
      var db0 := Db([], [], map[7 := stock7], 1);
      var db1 := PendingEffect(db0, session, None, false);
      var completed := Webhook.EventSession(session.id, Some(99800), None);
      var db2 := Webhook.ReconcileSpec(db1, completed, [Reported(BuildLineItems(cart)[0])]);
      && db1.orders == [Order(1, "cs_test_1", None, Some(99800), Pending)]
      && db2.orders == [Order(1, "cs_test_1", None, Some(99800), Paid)]
      && db2.items == [OrderItem(1, Some(7), "Rose Bouquet", 49900, 2)]
      && db2.stock == map[7 := Clamp(stock7, 2)]
  {
    var cart := [RequestItem(NumId(7), "Rose Bouquet", 49900, 2)];
    var li := Reported(BuildLineItems(cart)[0]);
    ProductIdRoundTrip(cart, 0, 7);
    assert Webhook.RowFor(1, li) == OrderItem(1, Some(7), "Rose Bouquet", 49900, 2);
    var session := CreatedSession("cs_test_1", "https://checkout.example/cs_test_1", Some(99800));
    var db1 := PendingEffect(Db([], [], map[7 := stock7], 1), session, None, false);
    assert db1 == Db([Order(1, "cs_test_1", None, Some(99800), Pending)], [], map[7 := stock7], 2);
    RoseBouquetPaid(db1, li, stock7);
  }

  /** The completion step of the scenario, over any line item that links to product 7. */
  lemma RoseBouquetPaid(db1: Db, li: Webhook.LineItem, stock7: int)
    requires db1 == Db([Order(1, "cs_test_1", None, Some(99800), Pending)], [], map[7 := stock7], 2)
    requires li.price.Some? && li.quantity == 2 && Webhook.LinkedProduct(li) == Some(7)
    requires Webhook.RowFor(1, li) == OrderItem(1, Some(7), "Rose Bouquet", 49900, 2)
    ensures
      var db2 := Webhook.ReconcileSpec(db1, Webhook.EventSession("cs_test_1", Some(99800), None), [li]);
      && db2.orders == [Order(1, "cs_test_1", None, Some(99800), Paid)]
      && db2.items == [OrderItem(1, Some(7), "Rose Bouquet", 49900, 2)]
      && db2.stock == map[7 := Clamp(stock7, 2)]
  {
    var completed := Webhook.EventSession("cs_test_1", Some(99800), None);
    assert LookupOrder(db1, "cs_test_1") == Some(1);
    var paid := MarkPaid(db1, 1, Some(99800));
    assert Webhook.UpsertOrder(db1, completed) == (paid, 1);
    assert paid.orders == [Order(1, "cs_test_1", None, Some(99800), Paid)];
    var items := [li];
    assert items[..0] == [];
    var db2 := Webhook.ReconcileSpec(db1, completed, items);
    assert db2 == Webhook.ApplyItems(paid, 1, items);
    assert Webhook.ApplyItems(paid, 1, items[..0]) == paid;
    assert db2 == Webhook.ApplyItem(paid, 1, li);
    assert db2 == StockDecremented(ItemInserted(paid, OrderItem(1, Some(7), "Rose Bouquet", 49900, 2)), 7, 2);
  }
}
