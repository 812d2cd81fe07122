/**
  The three tables the server writes (orders, order_items and the stock column of
  products), as a value `Db`, the single-statement operations on it, and `Store`, the
  mutable database a request handler issues those statements against.
 */
module Tables {
  import opened Wrappers

  datatype Status = Pending | Paid

  /** A row of `orders`. `total` is nullable: the paid-update writes `amount_total` as it comes. */
  datatype Order = Order(id: nat, sessionId: string, email: Option<string>, total: Option<int>, status: Status)

  /** A row of `order_items`; `productId` is None when the row is not linked to a product. */
  datatype OrderItem = OrderItem(orderId: nat, productId: Option<int>, name: string, unitPrice: int, quantity: int)

  /** The tables: `stock` maps each product id to its stock; `nextOrderId` is the next auto-increment id. */
  datatype Db = Db(orders: seq<Order>, items: seq<OrderItem>, stock: map<int, int>, nextOrderId: nat)

  /** The position of the first order whose session id is `sid`. */
  function FirstWithSession(orders: seq<Order>, sid: string): (r: Option<nat>)
    ensures r.None? <==> forall i :: 0 <= i < |orders| ==> orders[i].sessionId != sid
    ensures r.Some? ==> r.value < |orders| && orders[r.value].sessionId == sid
    ensures r.Some? ==> forall j :: 0 <= j < r.value ==> orders[j].sessionId != sid
  {
    if orders == [] then None
    else if orders[0].sessionId == sid then Some(0)
    else match FirstWithSession(orders[1..], sid)
      case None => None
      case Some(k) => Some(k + 1)
  }

  lemma FirstWithSessionAt(orders: seq<Order>, sid: string, k: nat)
    requires k < |orders| && orders[k].sessionId == sid
    requires forall j :: 0 <= j < k ==> orders[j].sessionId != sid
    ensures FirstWithSession(orders, sid) == Some(k)
  {
  }

  /** `SELECT id FROM orders WHERE stripe_session_id = ?`, taking the first row's id. */
  function LookupOrder(db: Db, sid: string): (r: Option<nat>)
    ensures r.None? <==> forall i :: 0 <= i < |db.orders| ==> db.orders[i].sessionId != sid
    ensures r.Some? ==> exists i :: 0 <= i < |db.orders| && db.orders[i].sessionId == sid && db.orders[i].id == r.value
  {
    match FirstWithSession(db.orders, sid)
    case None => None
    case Some(k) => Some(db.orders[k].id)
  }

  /** Appends an order row under the next auto-increment id. */
  function AddOrder(db: Db, sid: string, email: Option<string>, total: int, status: Status): (r: Db)
    ensures r.orders == db.orders + [Order(db.nextOrderId, sid, email, Some(total), status)]
    ensures r.nextOrderId == db.nextOrderId + 1
    ensures r.items == db.items && r.stock == db.stock
  {
    Db(db.orders + [Order(db.nextOrderId, sid, email, Some(total), status)], db.items, db.stock, db.nextOrderId + 1)
  }

  /** `INSERT INTO orders`, which the UNIQUE key on the session id refuses for a session already recorded. */
  function OrderInserted(db: Db, sid: string, email: Option<string>, total: int, status: Status): (r: Option<Db>)
    ensures r.None? <==> LookupOrder(db, sid).Some?
  {
    if LookupOrder(db, sid).Some? then None else Some(AddOrder(db, sid, email, total, status))
  }

  /** `UPDATE orders SET status = 'paid', total_amount_paise = ? WHERE id = ?`. */
  function MarkPaid(db: Db, oid: nat, total: Option<int>): (r: Db)
    ensures |r.orders| == |db.orders|
    ensures forall i :: 0 <= i < |db.orders| && db.orders[i].id == oid ==>
      r.orders[i] == db.orders[i].(status := Paid, total := total)
    ensures forall i :: 0 <= i < |db.orders| && db.orders[i].id != oid ==> r.orders[i] == db.orders[i]
    ensures r.items == db.items && r.stock == db.stock && r.nextOrderId == db.nextOrderId
  {
    var orders := seq(|db.orders|, i requires 0 <= i < |db.orders| =>
      if db.orders[i].id == oid then db.orders[i].(status := Paid, total := total) else db.orders[i]);
    db.(orders := orders)
  }

  /** `INSERT INTO order_items`. */
  function ItemInserted(db: Db, row: OrderItem): (r: Db)
    ensures r.items == db.items + [row]
    ensures r.orders == db.orders && r.stock == db.stock && r.nextOrderId == db.nextOrderId
  {
    db.(items := db.items + [row])
  }

  /** `GREATEST(stock - qty, 0)`. */
  function Clamp(stock: int, qty: int): (r: int)
    ensures r >= 0
    ensures r == stock - qty || (r == 0 && stock - qty < 0)
  {
    if stock - qty > 0 then stock - qty else 0
  }

  /** `UPDATE products SET stock = GREATEST(stock - ?, 0) WHERE id = ?`; no row changes for an unknown id. */
  function StockDecremented(db: Db, product: int, qty: int): (r: Db)
    ensures r.stock.Keys == db.stock.Keys
    ensures product in db.stock ==> r.stock[product] == Clamp(db.stock[product], qty)
    ensures forall p :: p in db.stock && p != product ==> r.stock[p] == db.stock[p]
    ensures r.orders == db.orders && r.items == db.items && r.nextOrderId == db.nextOrderId
  {
    if product in db.stock then db.(stock := db.stock[product := Clamp(db.stock[product], qty)]) else db
  }

  function OrderIds(orders: seq<Order>): (ids: set<nat>)
  {
    set i | 0 <= i < |orders| :: orders[i].id
  }

  /**
    The database invariant: at most one order per session (the idempotency key), distinct
    order ids below the auto-increment counter, every order item owned by an order, and
    no negative stock.
   */
  predicate Valid(db: Db)
  {
    && (forall i, j :: 0 <= i < j < |db.orders| ==> db.orders[i].sessionId != db.orders[j].sessionId)
    && (forall i, j :: 0 <= i < j < |db.orders| ==> db.orders[i].id != db.orders[j].id)
    && (forall i :: 0 <= i < |db.orders| ==> db.orders[i].id < db.nextOrderId)
    && (forall k :: 0 <= k < |db.items| ==> db.items[k].orderId in OrderIds(db.orders))
    && (forall p :: p in db.stock ==> db.stock[p] >= 0)
  }

  lemma InsertOrderPreservesValid(db: Db, sid: string, email: Option<string>, total: int, status: Status)
    requires Valid(db)
    ensures OrderInserted(db, sid, email, total, status).Some? ==> Valid(OrderInserted(db, sid, email, total, status).value)
    ensures OrderInserted(db, sid, email, total, status).Some? ==> db.nextOrderId in OrderIds(OrderInserted(db, sid, email, total, status).value.orders)
  {
    if LookupOrder(db, sid).None? {
      var r := AddOrder(db, sid, email, total, status);
      assert r.orders[|db.orders|].id == db.nextOrderId;
      assert OrderIds(db.orders) <= OrderIds(r.orders) by {
        forall x | x in OrderIds(db.orders) ensures x in OrderIds(r.orders) {
          var i :| 0 <= i < |db.orders| && db.orders[i].id == x;
          assert r.orders[i].id == x;
        }
      }
    }
  }

  lemma MarkPaidPreservesValid(db: Db, oid: nat, total: Option<int>)
    requires Valid(db)
    ensures Valid(MarkPaid(db, oid, total))
    ensures OrderIds(MarkPaid(db, oid, total).orders) == OrderIds(db.orders)
  {
    var r := MarkPaid(db, oid, total);
    assert forall i :: 0 <= i < |db.orders| ==> r.orders[i].id == db.orders[i].id && r.orders[i].sessionId == db.orders[i].sessionId;
    assert OrderIds(r.orders) == OrderIds(db.orders) by {
      forall x | x in OrderIds(db.orders) ensures x in OrderIds(r.orders) {
        var i :| 0 <= i < |db.orders| && db.orders[i].id == x;
        assert r.orders[i].id == x;
      }
    }
  }

  lemma InsertItemPreservesValid(db: Db, row: OrderItem)
    requires Valid(db) && row.orderId in OrderIds(db.orders)
    ensures Valid(ItemInserted(db, row))
  {
  }

  lemma DecrementStockPreservesValid(db: Db, product: int, qty: int)
    requires Valid(db)
    ensures Valid(StockDecremented(db, product, qty))
  {
  }

  /** The database the server talks to; each method is one SQL statement. */
  class Store {
    var orders: seq<Order>
    var items: seq<OrderItem>
    var stock: map<int, int>
    var nextOrderId: nat

    function Snapshot(): (db: Db)
      reads this
      ensures db.orders == orders && db.items == items && db.stock == stock && db.nextOrderId == nextOrderId
    {
      Db(orders, items, stock, nextOrderId)
    }

    constructor (db: Db)
      ensures Snapshot() == db
    {
      orders, items, stock, nextOrderId := db.orders, db.items, db.stock, db.nextOrderId;
    }

    method SelectOrderId(sid: string) returns (r: Option<nat>)
      ensures r == LookupOrder(Snapshot(), sid)
    {
      r := LookupOrder(Snapshot(), sid);
    }

    /** Returns the new order's id, or None when the UNIQUE key refuses the row. */
    method InsertOrder(sid: string, email: Option<string>, total: int, status: Status) returns (id: Option<nat>)
      modifies this
      ensures id.None? <==> LookupOrder(old(Snapshot()), sid).Some?
      ensures id.Some? ==> id.value == old(nextOrderId) && Snapshot() == AddOrder(old(Snapshot()), sid, email, total, status)
      ensures id.None? ==> Snapshot() == old(Snapshot())
    {
      var r := OrderInserted(Snapshot(), sid, email, total, status);
      if r.Some? {
        id := Some(nextOrderId);
        orders, nextOrderId := r.value.orders, r.value.nextOrderId;
      } else {
        id := None;
      }
    }

    method UpdateOrderPaid(oid: nat, total: Option<int>)
      modifies this
      ensures Snapshot() == MarkPaid(old(Snapshot()), oid, total)
    {
      orders := MarkPaid(Snapshot(), oid, total).orders;
    }

    method InsertItem(row: OrderItem)
      modifies this
      ensures Snapshot() == ItemInserted(old(Snapshot()), row)
    {
      items := items + [row];
    }

    method DecrementStock(product: int, qty: int)
      modifies this
      ensures Snapshot() == StockDecremented(old(Snapshot()), product, qty)
    {
      if product in stock {
        stock := stock[product := Clamp(stock[product], qty)];
      }
    }

    /** ROLLBACK: the tables return to the state the transaction began from. */
    method Rollback(saved: Db)
      modifies this
      ensures Snapshot() == saved
    {
      orders, items, stock, nextOrderId := saved.orders, saved.items, saved.stock, saved.nextOrderId;
    }
  }
}
