/**
  The `/webhook` endpoint: authenticate the notification, and for a completed checkout
  upsert the order, write one order item per resolved line item, and decrement the
  stock of linked products, all in one database transaction.
 */
module Webhook {
  import opened Wrappers
  import opened JsNumbers
  import opened Tables

  const CompletedKind := "checkout.session.completed"

  /** The metadata key the checkout handler stores the internal product id under. */
  const ProductIdKey := "product_id"

  /** `li.price.product` once expanded: its name and its metadata (string values). */
  datatype StripeProduct = StripeProduct(name: Option<string>, metadata: Option<map<string, string>>)

  /** `li.price`; an unexpanded or missing product is None. */
  datatype Price = Price(unitAmount: int, product: Option<StripeProduct>)

  /** A line item of the retrieved session. */
  datatype LineItem = LineItem(quantity: int, description: Option<string>, price: Option<Price>)

  /** `event.data.object`: the fields of the completed session the handler reads. */
  datatype EventSession = EventSession(id: string, amountTotal: Option<int>, customerEmail: Option<string>)

  datatype Event = Event(kind: string, session: EventSession)

  datatype Outcome = Committed(orderId: nat) | RolledBack

  /** `400 Webhook Error: <message>` or `{received: true}`. */
  datatype WebhookResponse = Rejected(message: string) | Received

  /** `li.price.product.metadata.product_id`, when each step of that chain is present. */
  function ProductIdText(li: LineItem): (r: Option<string>)
  {
    if li.price.Some? && li.price.value.product.Some? && li.price.value.product.value.metadata.Some?
       && ProductIdKey in li.price.value.product.value.metadata.value
    then Some(li.price.value.product.value.metadata.value[ProductIdKey])
    else None
  }

  /**
    The internal product id a line item links to: its product's metadata carries a
    truthy `product_id`, and `parseInt` of it is a number other than 0.
   */
  function LinkedProduct(li: LineItem): (r: Option<int>)
    ensures r.Some? ==> r.value != 0
  {
    match ProductIdText(li)
    case Some(text) => if text != "" then TruthyNumber(ParseInt(text)) else None
    case None => None
  }

  /**
    An item links to a product exactly when its metadata carries a `product_id` that
    `parseInt` reads as a number other than 0, and then it links to that number.
   */
  lemma LinkedProductReadsProductId(li: LineItem)
    ensures LinkedProduct(li).Some? <==>
      ProductIdText(li).Some? && ParseInt(ProductIdText(li).value).Num? && ParseInt(ProductIdText(li).value).value != 0
    ensures LinkedProduct(li).Some? ==> ParseInt(ProductIdText(li).value) == Num(LinkedProduct(li).value)
  {
    if ProductIdText(li).Some? && ProductIdText(li).value == "" {
      assert ParseInt("") == NaN;
    }
  }

  /** `li.description || li.price.product.name || 'Unknown'`. */
  function NameSnapshot(li: LineItem): (name: string)
    ensures name != ""
  {
    if TruthyString(li.description) then li.description.value
    else if li.price.Some? && li.price.value.product.Some? && TruthyString(li.price.value.product.value.name)
    then li.price.value.product.value.name.value
    else "Unknown"
  }

  predicate AllPriced(items: seq<LineItem>)
  {
    forall i :: 0 <= i < |items| ==> items[i].price.Some?
  }

  /** The order item row written for `li` on order `oid`. */
  function RowFor(oid: nat, li: LineItem): (row: OrderItem)
    requires li.price.Some?
  {
    OrderItem(oid, LinkedProduct(li), NameSnapshot(li), li.price.value.unitAmount, li.quantity)
  }

  /** The writes of one loop iteration: the row, then for a linked item the stock update. */
  function ApplyItem(db: Db, oid: nat, li: LineItem): (r: Db)
    requires li.price.Some?
    ensures r.items == db.items + [RowFor(oid, li)]
    ensures r.orders == db.orders && r.nextOrderId == db.nextOrderId && r.stock.Keys == db.stock.Keys
    ensures LinkedProduct(li).None? ==> r.stock == db.stock
  {
    var db' := ItemInserted(db, RowFor(oid, li));
    match LinkedProduct(li)
    case Some(p) => StockDecremented(db', p, li.quantity)
    case None => db'
  }

  /** The writes of the whole line-item loop, in order. */
  function ApplyItems(db: Db, oid: nat, items: seq<LineItem>): (r: Db)
    requires AllPriced(items)
    ensures r.orders == db.orders && r.nextOrderId == db.nextOrderId && r.stock.Keys == db.stock.Keys
    ensures |r.items| == |db.items| + |items|
  {
    if items == [] then db
    else ApplyItem(ApplyItems(db, oid, items[..|items| - 1]), oid, items[|items| - 1])
  }

  /** The order step: mark the existing order paid, or insert a new paid order; and the order id used. */
  function UpsertOrder(db: Db, s: EventSession): (r: (Db, nat))
    ensures r.0.items == db.items && r.0.stock == db.stock
    ensures LookupOrder(db, s.id).Some? ==>
      r.1 == LookupOrder(db, s.id).value && |r.0.orders| == |db.orders| && r.0.nextOrderId == db.nextOrderId
    ensures LookupOrder(db, s.id).None? ==>
      && r.1 == db.nextOrderId && r.0.nextOrderId == db.nextOrderId + 1
      && r.0.orders == db.orders + [Order(db.nextOrderId, s.id, OrNull(s.customerEmail), Some(OrZero(s.amountTotal)), Paid)]
  {
    match LookupOrder(db, s.id)
    case Some(oid) => (MarkPaid(db, oid, s.amountTotal), oid)
    case None => (AddOrder(db, s.id, OrNull(s.customerEmail), OrZero(s.amountTotal), Paid), db.nextOrderId)
  }

  /** Either way, the order the upsert uses carries the session id and is `paid`. */
  lemma UpsertOrderMarksPaid(db: Db, s: EventSession)
    ensures var r := UpsertOrder(db, s);
      exists i :: 0 <= i < |r.0.orders| && r.0.orders[i].id == r.1 && r.0.orders[i].sessionId == s.id && r.0.orders[i].status == Paid
  {
    var r := UpsertOrder(db, s);
    match LookupOrder(db, s.id)
    case Some(oid) => {
      var k := FirstWithSession(db.orders, s.id).value;
      assert r.0.orders[k].id == r.1 && r.0.orders[k].sessionId == s.id && r.0.orders[k].status == Paid;
    }
    case None => {
      assert r.0.orders[|db.orders|].id == r.1 && r.0.orders[|db.orders|].sessionId == s.id;
    }
  }

  /** The tables after a committed reconciliation of session `s` with line items `items`. */
  function ReconcileSpec(db: Db, s: EventSession, items: seq<LineItem>): (r: Db)
    requires AllPriced(items)
    ensures |r.orders| == |db.orders| + (if LookupOrder(db, s.id).Some? then 0 else 1)
    ensures |r.items| == |db.items| + |items|
  {
    var upsert := UpsertOrder(db, s);
    ApplyItems(upsert.0, upsert.1, items)
  }

  /** The database calls one line item issues: an insert, and a stock update when linked. */
  function ItemCalls(li: LineItem): (n: nat)
  {
    if li.price.None? then 0 else if LinkedProduct(li).Some? then 2 else 1
  }

  function LoopCalls(items: seq<LineItem>): (n: nat)
  {
    if items == [] then 0 else LoopCalls(items[..|items| - 1]) + ItemCalls(items[|items| - 1])
  }

  /**
    Database calls are numbered getConnection 0, beginTransaction 1, the SELECT 2, the
    order update or insert 3, then the loop's calls, then COMMIT. `fault` is the number of
    the call that throws, if any. The transaction commits when every item has a price
    (`li.price.unit_amount` throws otherwise) and no call up to COMMIT throws.
   */
  predicate Commits(items: seq<LineItem>, fault: Option<nat>)
  {
    AllPriced(items) && (fault.None? || fault.value > 4 + LoopCalls(items))
  }

  // ---------------------------------------------------------------------------
  // Properties of the reconciliation

  /** The loop appends exactly one row per line item, in order, and keeps all earlier rows. */
  lemma {:induction false} ApplyItemsRows(db: Db, oid: nat, items: seq<LineItem>)
    requires AllPriced(items)
    ensures |ApplyItems(db, oid, items).items| == |db.items| + |items|
    ensures ApplyItems(db, oid, items).items[..|db.items|] == db.items
    ensures forall i :: 0 <= i < |items| ==> ApplyItems(db, oid, items).items[|db.items| + i] == RowFor(oid, items[i])
  {
    if items != [] {
      var init := items[..|items| - 1];
      ApplyItemsRows(db, oid, init);
      var mid := ApplyItems(db, oid, init);
      assert ApplyItem(mid, oid, items[|items| - 1]).items == mid.items + [RowFor(oid, items[|items| - 1])];
      forall i | 0 <= i < |items| - 1 ensures ApplyItems(db, oid, items).items[|db.items| + i] == RowFor(oid, items[i]) {
        assert init[i] == items[i];
      }
    }
  }

  /** The quantities of the line items linked to product `p`, in order. */
  function LinkedQuantities(p: int, items: seq<LineItem>): (qs: seq<int>)
  {
    if items == [] then []
    else
      var last := items[|items| - 1];
      LinkedQuantities(p, items[..|items| - 1]) + (if LinkedProduct(last) == Some(p) then [last.quantity] else [])
  }

  /** Successive `GREATEST(stock - q, 0)` updates. */
  function ClampAll(stock: int, qs: seq<int>): (r: int)
  {
    if qs == [] then stock else Clamp(ClampAll(stock, qs[..|qs| - 1]), qs[|qs| - 1])
  }

  function Sum(qs: seq<int>): (r: int)
  {
    if qs == [] then 0 else Sum(qs[..|qs| - 1]) + qs[|qs| - 1]
  }

  /** Every product keeps its row; a product's stock goes through one clamp per line item linked to it. */
  lemma {:induction false} ApplyItemsStock(db: Db, oid: nat, items: seq<LineItem>, p: int)
    requires AllPriced(items) && p in db.stock
    ensures p in ApplyItems(db, oid, items).stock
    ensures ApplyItems(db, oid, items).stock[p] == ClampAll(db.stock[p], LinkedQuantities(p, items))
  {
    if items != [] {
      var init := items[..|items| - 1];
      var last := items[|items| - 1];
      ApplyItemsStock(db, oid, init, p);
      var qs := LinkedQuantities(p, items);
      if LinkedProduct(last) == Some(p) {
        assert qs[..|qs| - 1] == LinkedQuantities(p, init);
      } else {
        assert qs == LinkedQuantities(p, init);
      }
    }
  }

  /** Repeated clamping of a non-negative stock by non-negative quantities is `max(stock - sum, 0)`. */
  lemma {:induction false} ClampAllIsFloorOfSum(stock: int, qs: seq<int>)
    requires stock >= 0
    requires forall i :: 0 <= i < |qs| ==> qs[i] >= 0
    ensures ClampAll(stock, qs) >= 0
    ensures ClampAll(stock, qs) == if stock - Sum(qs) > 0 then stock - Sum(qs) else 0
  {
    if qs != [] {
      ClampAllIsFloorOfSum(stock, qs[..|qs| - 1]);
    }
  }

  /** A product no line item links to keeps its stock. */
  lemma {:induction false} UnlinkedProductKeepsStock(p: int, items: seq<LineItem>)
    requires forall i :: 0 <= i < |items| ==> LinkedProduct(items[i]) != Some(p)
    ensures LinkedQuantities(p, items) == []
  {
    if items != [] {
      UnlinkedProductKeepsStock(p, items[..|items| - 1]);
    }
  }

  /** `product_id` values that `parseInt` reads as 0 or NaN take the unlinked path. */
  lemma FalsyProductIdIsUnlinked(li: LineItem)
    requires li.price.Some? && li.price.value.product.Some? && li.price.value.product.value.metadata.Some?
    requires ProductIdKey in li.price.value.product.value.metadata.value
    requires ParseInt(li.price.value.product.value.metadata.value[ProductIdKey]) in {NaN, Num(0)}
    ensures LinkedProduct(li).None?
  {
  }

  /** A `product_id` that `parseInt` reads as `n` links the item to product `n`, unless `n` is 0. */
  lemma ParsedProductIdLinks(li: LineItem, text: string, n: int)
    requires li.price.Some? && li.price.value.product.Some?
    requires li.price.value.product.value.metadata == Some(map[ProductIdKey := text])
    requires ParseInt(text) == Num(n)
    ensures LinkedProduct(li) == if n != 0 then Some(n) else None
  {
    assert ProductIdText(li) == Some(text);
    assert ParseInt("") == NaN;
  }

  /** A `product_id` written as `String(n)` links the item to product `n`, unless `n` is 0. */
  lemma DecimalProductIdLinks(li: LineItem, n: int)
    requires li.price.Some? && li.price.value.product.Some?
    requires li.price.value.product.value.metadata == Some(map[ProductIdKey := DecimalString(n)])
    ensures LinkedProduct(li) == if n != 0 then Some(n) else None
  {
    var text := DecimalString(n);
    assert ParseInt(text) == Num(n) by {
      ParseIntDecimal(n, "");
      assert text + "" == text;
    }
    ParsedProductIdLinks(li, text, n);
  }

  /** For a session already recorded, its order is reused, marked paid with the new total, and no order is added. */
  lemma ReconcileReusesOrder(db: Db, s: EventSession, items: seq<LineItem>, oid: nat)
    requires AllPriced(items)
    requires LookupOrder(db, s.id) == Some(oid)
    ensures UpsertOrder(db, s).1 == oid
    ensures |ReconcileSpec(db, s, items).orders| == |db.orders|
    ensures ReconcileSpec(db, s, items).nextOrderId == db.nextOrderId
    ensures forall i :: 0 <= i < |db.orders| ==>
      ReconcileSpec(db, s, items).orders[i] ==
        (if db.orders[i].id == oid then db.orders[i].(status := Paid, total := s.amountTotal) else db.orders[i])
  {
  }

  /** For a session with no order yet, exactly one paid order is appended under the next id. */
  lemma ReconcileInsertsOrder(db: Db, s: EventSession, items: seq<LineItem>)
    requires AllPriced(items)
    requires LookupOrder(db, s.id).None?
    ensures UpsertOrder(db, s).1 == db.nextOrderId
    ensures ReconcileSpec(db, s, items).orders ==
      db.orders + [Order(db.nextOrderId, s.id, OrNull(s.customerEmail), Some(OrZero(s.amountTotal)), Paid)]
    ensures ReconcileSpec(db, s, items).nextOrderId == db.nextOrderId + 1
  {
  }

  /**
    One row per line item on the reconciled order: unit price and quantity copied, the name
    snapshot, and the product link exactly when the item links.
   */
  lemma ReconcileRows(db: Db, s: EventSession, items: seq<LineItem>)
    requires AllPriced(items)
    ensures |ReconcileSpec(db, s, items).items| == |db.items| + |items|
    ensures ReconcileSpec(db, s, items).items[..|db.items|] == db.items
    ensures forall i :: 0 <= i < |items| ==>
      ReconcileSpec(db, s, items).items[|db.items| + i] == OrderItem(
        UpsertOrder(db, s).1, LinkedProduct(items[i]), NameSnapshot(items[i]),
        items[i].price.value.unitAmount, items[i].quantity)
  {
    var upsert := UpsertOrder(db, s);
    var oid := upsert.1;
    var r := ReconcileSpec(db, s, items);
    assert r == ApplyItems(upsert.0, oid, items);
    ApplyItemsRows(upsert.0, oid, items);
    forall i | 0 <= i < |items|
      ensures r.items[|db.items| + i] == OrderItem(oid, LinkedProduct(items[i]), NameSnapshot(items[i]),
        items[i].price.value.unitAmount, items[i].quantity)
    {
      assert r.items[|db.items| + i] == RowFor(oid, items[i]);
    }
  }

  /**
    Stock after reconciliation: no product appears or disappears; each product's stock is
    clamped once per line item linked to it, so it stays non-negative when any item links it,
    and it is unchanged when none does.
   */
  lemma ReconcileStock(db: Db, s: EventSession, items: seq<LineItem>, p: int)
    requires AllPriced(items)
    ensures p in ReconcileSpec(db, s, items).stock <==> p in db.stock
    ensures p in db.stock ==> ReconcileSpec(db, s, items).stock[p] == ClampAll(db.stock[p], LinkedQuantities(p, items))
    ensures p in db.stock && (forall i :: 0 <= i < |items| ==> LinkedProduct(items[i]) != Some(p)) ==>
      ReconcileSpec(db, s, items).stock[p] == db.stock[p]
  {
    var (db', oid) := UpsertOrder(db, s);
    assert db'.stock == db.stock;
    if p in db.stock {
      ApplyItemsStock(db', oid, items, p);
      if forall i :: 0 <= i < |items| ==> LinkedProduct(items[i]) != Some(p) {
        UnlinkedProductKeepsStock(p, items);
      }
    }
  }

  lemma {:induction false} ApplyItemsPreservesValid(db: Db, oid: nat, items: seq<LineItem>)
    requires AllPriced(items) && Valid(db) && oid in OrderIds(db.orders)
    ensures Valid(ApplyItems(db, oid, items))
  {
    if items != [] {
      var init := items[..|items| - 1];
      ApplyItemsPreservesValid(db, oid, init);
      var mid := ApplyItems(db, oid, init);
      var li := items[|items| - 1];
      InsertItemPreservesValid(mid, RowFor(oid, li));
      if LinkedProduct(li).Some? {
        DecrementStockPreservesValid(ItemInserted(mid, RowFor(oid, li)), LinkedProduct(li).value, li.quantity);
      }
    }
  }

  /** A committed reconciliation keeps the database invariant: in particular one order per session. */
  lemma ReconcilePreservesValid(db: Db, s: EventSession, items: seq<LineItem>)
    requires AllPriced(items) && Valid(db)
    ensures Valid(ReconcileSpec(db, s, items))
  {
    match LookupOrder(db, s.id)
    case Some(o) => {
      var db' := MarkPaid(db, o, s.amountTotal);
      MarkPaidPreservesValid(db, o, s.amountTotal);
      var k := FirstWithSession(db.orders, s.id).value;
      assert db.orders[k].id == o;
      assert o in OrderIds(db'.orders);
      ApplyItemsPreservesValid(db', o, items);
    }
    case None => {
      var db' := AddOrder(db, s.id, OrNull(s.customerEmail), OrZero(s.amountTotal), Paid);
      assert OrderInserted(db, s.id, OrNull(s.customerEmail), OrZero(s.amountTotal), Paid) == Some(db');
      InsertOrderPreservesValid(db, s.id, OrNull(s.customerEmail), OrZero(s.amountTotal), Paid);
      ApplyItemsPreservesValid(db', db.nextOrderId, items);
    }
  }

  /** After a reconciliation the session's order is the one it used. */
  lemma ReconciledSessionFound(db: Db, s: EventSession, items: seq<LineItem>)
    requires AllPriced(items)
    ensures LookupOrder(ReconcileSpec(db, s, items), s.id) == Some(UpsertOrder(db, s).1)
  {
    var r := ReconcileSpec(db, s, items);
    match LookupOrder(db, s.id)
    case Some(oid) => {
      ReconcileReusesOrder(db, s, items, oid);
      var k := FirstWithSession(db.orders, s.id).value;
      assert forall j :: 0 <= j < |db.orders| ==> r.orders[j].sessionId == db.orders[j].sessionId;
      FirstWithSessionAt(r.orders, s.id, k);
    }
    case None => {
      ReconcileInsertsOrder(db, s, items);
      FirstWithSessionAt(r.orders, s.id, |db.orders|);
    }
  }

  /**
    A second delivery of the same completed session adds no order, but writes the line
    items' rows a second time and decrements the linked stock again: the handler is
    idempotent for orders only.
   */
  lemma RedeliveryRepeatsItemWrites(db: Db, s: EventSession, items: seq<LineItem>)
    requires AllPriced(items) && Valid(db)
    ensures var once := ReconcileSpec(db, s, items);
      var twice := ReconcileSpec(once, s, items);
      && |twice.orders| == |once.orders| && OrderIds(twice.orders) == OrderIds(once.orders)
      && |once.items| == |db.items| + |items|
      && twice.items == once.items + once.items[|db.items|..]
      && (forall p :: p in db.stock ==>
            p in twice.stock && twice.stock[p] == ClampAll(once.stock[p], LinkedQuantities(p, items)))
  {
    var once := ReconcileSpec(db, s, items);
    var oid := UpsertOrder(db, s).1;
    ReconciledSessionFound(db, s, items);
    ReconcileReusesOrder(once, s, items, oid);
    ReconcileRows(db, s, items);
    ReconcileRows(once, s, items);
    var twice := ReconcileSpec(once, s, items);
    assert UpsertOrder(once, s).1 == oid;
    var firstRows := once.items[|db.items|..];
    assert twice.items[..|once.items|] == once.items;
    forall i | 0 <= i < |items| ensures twice.items[|once.items| + i] == firstRows[i] {
      assert twice.items[|once.items| + i] == RowFor(oid, items[i]);
      assert once.items[|db.items| + i] == RowFor(oid, items[i]);
    }
    assert twice.items == twice.items[..|once.items|] + twice.items[|once.items|..];
    assert twice.items[|once.items|..] == firstRows;
    ReconcilePreservesValid(db, s, items);
    MarkPaidPreservesValid(once, oid, s.amountTotal);
    assert twice.orders == MarkPaid(once, oid, s.amountTotal).orders;
    forall p | p in db.stock
      ensures p in twice.stock && twice.stock[p] == ClampAll(once.stock[p], LinkedQuantities(p, items))
    {
      ReconcileStock(db, s, items, p);
      ReconcileStock(once, s, items, p);
    }
  }

  // ---------------------------------------------------------------------------
  // The transaction and the endpoint

  lemma {:induction false} LoopCallsPrefix(items: seq<LineItem>, i: nat)
    requires i <= |items|
    ensures LoopCalls(items[..i]) <= LoopCalls(items)
    decreases |items|
  {
    if i < |items| {
      assert items[..|items| - 1][..i] == items[..i];
      LoopCallsPrefix(items[..|items| - 1], i);
    } else {
      assert items[..i] == items;
    }
  }

  lemma PrefixStep(db: Db, oid: nat, items: seq<LineItem>, i: nat)
    requires i < |items| && AllPriced(items[..i]) && items[i].price.Some?
    ensures AllPriced(items[..i + 1])
    ensures LoopCalls(items[..i + 1]) == LoopCalls(items[..i]) + ItemCalls(items[i])
    ensures ApplyItems(db, oid, items[..i + 1]) == ApplyItem(ApplyItems(db, oid, items[..i]), oid, items[i])
  {
    assert items[..i + 1][..i] == items[..i];
  }

  /**
    One iteration of the line-item loop: the row insert (call `calls`) and, for a linked
    item, the stock update (call `calls + 1`), written to `store` in place. It stops with
    `false` at the call numbered `fault`.
   */
  method WriteItem(store: Store, orderId: nat, li: LineItem, fault: Option<nat>, calls: nat) returns (ok: bool)
    modifies store
    requires li.price.Some?
    requires fault.None? || fault.value >= calls
    ensures ok <==> fault.None? || fault.value >= calls + ItemCalls(li)
    ensures ok ==> store.Snapshot() == ApplyItem(old(store.Snapshot()), orderId, li)
  {
    if fault == Some(calls) {
      return false;
    }
    ghost var before := store.Snapshot();
    store.InsertItem(RowFor(orderId, li));
    var linked := LinkedProduct(li);
    if linked.None? {
      assert ItemCalls(li) == 1;
      assert ApplyItem(before, orderId, li) == store.Snapshot();
      return true;
    }
    assert ItemCalls(li) == 2;
    if fault == Some(calls + 1) {
      return false;
    }
    ghost var inserted := store.Snapshot();
    store.DecrementStock(linked.value, li.quantity);
    assert ApplyItem(before, orderId, li) == StockDecremented(inserted, linked.value, li.quantity);
    return true;
  }

  /**
    The line-item loop over `items`, in order. It stops with `false` at the first item
    without a price (`li.price.unit_amount` throws) or at the call numbered `fault`; the
    loop's calls are numbered from `first`.
   */
  method WriteItems(store: Store, orderId: nat, items: seq<LineItem>, fault: Option<nat>, first: nat) returns (ok: bool)
    modifies store
    requires fault.None? || fault.value >= first
    ensures ok <==> AllPriced(items) && (fault.None? || fault.value >= first + LoopCalls(items))
    ensures ok ==> store.Snapshot() == ApplyItems(old(store.Snapshot()), orderId, items)
  {
    ghost var start := store.Snapshot();
    var calls := first;
    var i := 0;
    while i < |items|
      invariant 0 <= i <= |items|
      invariant AllPriced(items[..i])
      invariant calls == first + LoopCalls(items[..i])
      invariant fault.None? || fault.value >= calls
      invariant store.Snapshot() == ApplyItems(start, orderId, items[..i])
    {
      LoopCallsPrefix(items, i + 1);
      if items[i].price.None? {
        return false;
      }
      PrefixStep(start, orderId, items, i);
      ok := WriteItem(store, orderId, items[i], fault, calls);
      if !ok {
        return false;
      }
      calls := calls + ItemCalls(items[i]);
      i := i + 1;
    }
    assert items[..i] == items;
    return true;
  }

  /** The order step of the transaction: the SELECT, then the paid-update or the insert. */
  method WriteOrder(store: Store, s: EventSession) returns (orderId: nat)
    modifies store
    ensures (store.Snapshot(), orderId) == UpsertOrder(old(store.Snapshot()), s)
  {
    var existing := store.SelectOrderId(s.id);
    if existing.Some? {
      orderId := existing.value;
      store.UpdateOrderPaid(orderId, s.amountTotal);
    } else {
      var inserted := store.InsertOrder(s.id, OrNull(s.customerEmail), OrZero(s.amountTotal), Paid);
      orderId := inserted.value;
    }
  }

  /** After the order step, COMMIT is reached and succeeds exactly when the transaction commits. */
  lemma CommitAfterLoop(items: seq<LineItem>, fault: Option<nat>, ok: bool)
    requires fault.None? || fault.value >= 4
    requires ok <==> AllPriced(items) && (fault.None? || fault.value >= 4 + LoopCalls(items))
    ensures (ok && fault != Some(4 + LoopCalls(items))) <==> Commits(items, fault)
  {
  }

  /**
    The transaction of index.js: every write goes to `store` in place; when any call
    throws, the tables are rolled back to the state the transaction began from, otherwise
    the order id is returned.
   */
  method Reconcile(store: Store, s: EventSession, items: seq<LineItem>, fault: Option<nat>) returns (outcome: Outcome)
    modifies store
    ensures outcome.Committed? <==> Commits(items, fault)
    ensures outcome.Committed? ==> store.Snapshot() == ReconcileSpec(old(store.Snapshot()), s, items)
    ensures outcome.Committed? ==> outcome.orderId == UpsertOrder(old(store.Snapshot()), s).1
    ensures outcome.RolledBack? ==> store.Snapshot() == old(store.Snapshot())
  {
    var saved := store.Snapshot();
    if fault.Some? && fault.value < 4 {
      assert !Commits(items, fault);
      store.Rollback(saved);
      return RolledBack;
    }
    ghost var upsert := UpsertOrder(saved, s);
    var orderId := WriteOrder(store, s);
    ghost var mid := store.Snapshot();
    assert mid == upsert.0 && orderId == upsert.1;
    var ok := WriteItems(store, orderId, items, fault, 4);
    CommitAfterLoop(items, fault, ok);
    if !ok || fault == Some(4 + LoopCalls(items)) {
      store.Rollback(saved);
      return RolledBack;
    }
    assert store.Snapshot() == ApplyItems(mid, orderId, items);
    return Committed(orderId);
  }

  /**
    Authentication: with a (truthy) signing secret the event comes from the signature check
    over the raw body; without one the raw body is parsed as the event, unchecked.
   */
  function Authenticate(
    secret: Option<string>, body: seq<bv8>, signature: Option<string>,
    verify: (seq<bv8>, Option<string>, string) -> Result<Event, string>,
    parse: seq<bv8> -> Result<Event, string>): (r: Result<Event, string>)
    ensures TruthyString(secret) ==> r == verify(body, signature, secret.value)
    ensures !TruthyString(secret) ==> r == parse(body)
  {
    if TruthyString(secret) then verify(body, signature, secret.value) else parse(body)
  }

  /** Without a signing secret (unset or empty) the signature header plays no part: any header gives the same event. */
  lemma UnsignedIgnoresSignature(
    secret: Option<string>, body: seq<bv8>, sig1: Option<string>, sig2: Option<string>,
    verify: (seq<bv8>, Option<string>, string) -> Result<Event, string>,
    parse: seq<bv8> -> Result<Event, string>)
    requires !TruthyString(secret)
    ensures Authenticate(secret, body, sig1, verify, parse) == Authenticate(secret, body, sig2, verify, parse)
    ensures Authenticate(secret, body, sig1, verify, parse) == Authenticate(None, body, sig1, verify, parse)
  {
  }

  /** The tables after one delivery of the endpoint, whatever happens inside it. */
  function DeliveryEffect(
    db: Db, auth: Result<Event, string>, retrieve: string -> Result<seq<LineItem>, string>, fault: Option<nat>): (r: Db)
    ensures r != db ==>
      && auth.Success? && auth.value.kind == CompletedKind
      && retrieve(auth.value.session.id).Success?
      && Commits(retrieve(auth.value.session.id).value, fault)
  {
    if auth.Failure? || auth.value.kind != CompletedKind then db
    else
      var s := auth.value.session;
      match retrieve(s.id)
      case Failure(_) => db
      case Success(items) =>
        if Commits(items, fault) then ReconcileSpec(db, s, items) else db
  }

  /** Every delivery, whatever its outcome, keeps the database invariant. */
  lemma DeliveryPreservesValid(
    db: Db, auth: Result<Event, string>, retrieve: string -> Result<seq<LineItem>, string>, fault: Option<nat>)
    requires Valid(db)
    ensures Valid(DeliveryEffect(db, auth, retrieve, fault))
  {
    if auth.Success? && auth.value.kind == CompletedKind {
      var retrieved := retrieve(auth.value.session.id);
      if retrieved.Success? && Commits(retrieved.value, fault) {
        ReconcilePreservesValid(db, auth.value.session, retrieved.value);
      }
    }
  }

  /**
    The `/webhook` handler. A failed authentication answers 400 before the database is
    touched; everything else answers `{received: true}`, including ignored event types and
    failures of retrieval or of the transaction.
   */
  method HandleWebhook(
    store: Store, secret: Option<string>, body: seq<bv8>, signature: Option<string>,
    verify: (seq<bv8>, Option<string>, string) -> Result<Event, string>,
    parse: seq<bv8> -> Result<Event, string>,
    retrieve: string -> Result<seq<LineItem>, string>,
    fault: Option<nat>) returns (response: WebhookResponse)
    modifies store
    ensures Authenticate(secret, body, signature, verify, parse).Failure? ==>
      response == Rejected("Webhook Error: " + Authenticate(secret, body, signature, verify, parse).error)
    ensures Authenticate(secret, body, signature, verify, parse).Success? ==> response == Received
    ensures store.Snapshot() == DeliveryEffect(old(store.Snapshot()), Authenticate(secret, body, signature, verify, parse), retrieve, fault)
  {
    var auth := Authenticate(secret, body, signature, verify, parse);
    if auth.Failure? {
      return Rejected("Webhook Error: " + auth.error);
    }
    var event := auth.value;
    if event.kind == CompletedKind {
      var s := event.session;
      var retrieved := retrieve(s.id);
      if retrieved.Success? {
        var outcome := Reconcile(store, s, retrieved.value, fault);
      }
    }
    return Received;
  }
}
