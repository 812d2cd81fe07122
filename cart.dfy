/**
  The browser cart: a list of entries keyed by product id, kept in local storage under
  `fb_cart_v1`. Adding a product bumps the quantity of its entry or appends a new one;
  the total is the sum of price times quantity; checkout sends a four-field projection.
 */
module Cart {
  import opened Wrappers

  /** The product passed to `addToCart`; `extra` holds any further fields the caller put on it. */
  datatype Item = Item(id: string, name: string, priceInPaise: int, extra: map<string, string>)

  /** An entry of the stored cart. */
  datatype CartEntry = CartEntry(id: string, name: string, priceInPaise: int, qty: int, extra: map<string, string>)

  /** An entry as `getCartForCheckout` hands it to the checkout request. */
  datatype CheckoutItem = CheckoutItem(id: string, name: string, priceInPaise: int, qty: int)

  /** `cart.find(i => i.id === id)`: the position of the first entry with that id. */
  function IndexOf(cart: seq<CartEntry>, id: string): (r: Option<nat>)
    ensures r.None? <==> forall j :: 0 <= j < |cart| ==> cart[j].id != id
    ensures r.Some? ==> r.value < |cart| && cart[r.value].id == id
    ensures r.Some? ==> forall j :: 0 <= j < r.value ==> cart[j].id != id
  {
    if cart == [] then None
    else if cart[0].id == id then Some(0)
    else match IndexOf(cart[1..], id)
      case None => None
      case Some(k) => Some(k + 1)
  }

  /** `{ ...item, qty: 1 }`. */
  function NewEntry(item: Item): (e: CartEntry)
  {
    CartEntry(item.id, item.name, item.priceInPaise, 1, item.extra)
  }

  /**
    The cart `addToCart(item)` saves: it grows by one entry exactly when the id was absent,
    every earlier entry keeps its id, name and price, and the item's id is then present.
   */
  function WithItemAdded(cart: seq<CartEntry>, item: Item): (r: seq<CartEntry>)
    ensures |r| == if IndexOf(cart, item.id).Some? then |cart| else |cart| + 1
    ensures forall j :: 0 <= j < |cart| ==>
      r[j].id == cart[j].id && r[j].name == cart[j].name && r[j].priceInPaise == cart[j].priceInPaise
    ensures exists k :: 0 <= k < |r| && r[k].id == item.id
  {
    match IndexOf(cart, item.id)
    case Some(k) => cart[k := cart[k].(qty := cart[k].qty + 1)]
    case None =>
      var appended := cart + [NewEntry(item)];
      assert appended[|cart|].id == item.id;
      appended
  }

  predicate UniqueIds(cart: seq<CartEntry>)
  {
    forall i, j :: 0 <= i < j < |cart| ==> cart[i].id != cart[j].id
  }

  /** `price_in_paise * qty` of one entry. */
  function LineTotal(e: CartEntry): (t: int)
  {
    e.priceInPaise * e.qty
  }

  /**
    `cart.reduce((s, it) => s + it.price_in_paise * it.qty, 0)`: 0 for an empty cart, and
    never negative when no price or quantity is.
   */
  function CartTotal(cart: seq<CartEntry>): (r: int)
    ensures cart == [] ==> r == 0
    ensures (forall i :: 0 <= i < |cart| ==> cart[i].priceInPaise >= 0 && cart[i].qty >= 0) ==> r >= 0
  {
    if cart == [] then 0 else CartTotal(cart[..|cart| - 1]) + LineTotal(cart[|cart| - 1])
  }

  /** `getCart().map(i => ({ id, name, price_in_paise, qty }))`. */
  function ForCheckout(cart: seq<CartEntry>): (r: seq<CheckoutItem>)
    ensures |r| == |cart|
    ensures forall i :: 0 <= i < |cart| ==>
      r[i] == CheckoutItem(cart[i].id, cart[i].name, cart[i].priceInPaise, cart[i].qty)
  {
    seq(|cart|, i requires 0 <= i < |cart| => CheckoutItem(cart[i].id, cart[i].name, cart[i].priceInPaise, cart[i].qty))
  }

  /**
    The checkout page's total over the projected items (`total += price_in_paise * qty`),
    never negative when no price or quantity is.
   */
  function CheckoutTotal(items: seq<CheckoutItem>): (r: int)
    ensures (forall i :: 0 <= i < |items| ==> items[i].priceInPaise >= 0 && items[i].qty >= 0) ==> r >= 0
  {
    if items == [] then 0 else CheckoutTotal(items[..|items| - 1]) + items[|items| - 1].priceInPaise * items[|items| - 1].qty
  }

  /** The cart as stored in the browser (a stored value that does not parse reads as `[]`). */
  class CartStorage {
    var saved: seq<CartEntry>

    constructor (initial: seq<CartEntry>)
      ensures saved == initial
    {
      saved := initial;
    }

    /** `addToCart`: read the cart, bump the matching entry or push a new one, save. */
    method AddToCart(item: Item)
      modifies this
      ensures saved == WithItemAdded(old(saved), item)
    {
      var cart := saved;
      var found := IndexOf(cart, item.id);
      if found.Some? {
        var k := found.value;
        cart := cart[k := cart[k].(qty := cart[k].qty + 1)];
      } else {
        cart := cart + [NewEntry(item)];
      }
      saved := cart;
    }
  }

  /** Adding a product already in the cart raises the quantity of its (first) entry by one and nothing else. */
  lemma AddExistingBumpsQty(cart: seq<CartEntry>, item: Item, k: nat)
    requires k < |cart| && cart[k].id == item.id
    requires forall j :: 0 <= j < k ==> cart[j].id != item.id
    ensures |WithItemAdded(cart, item)| == |cart|
    ensures WithItemAdded(cart, item)[k] == cart[k].(qty := cart[k].qty + 1)
    ensures forall j :: 0 <= j < |cart| && j != k ==> WithItemAdded(cart, item)[j] == cart[j]
  {
    assert IndexOf(cart, item.id) == Some(k);
  }

  /** Adding a product not in the cart appends exactly one entry, a copy of it with quantity 1. */
  lemma AddNewAppends(cart: seq<CartEntry>, item: Item)
    requires forall j :: 0 <= j < |cart| ==> cart[j].id != item.id
    ensures WithItemAdded(cart, item) == cart + [CartEntry(item.id, item.name, item.priceInPaise, 1, item.extra)]
  {
  }

  /** Adding never creates a second entry for the same id. */
  lemma AddKeepsIdsUnique(cart: seq<CartEntry>, item: Item)
    requires UniqueIds(cart)
    ensures UniqueIds(WithItemAdded(cart, item))
    ensures exists k :: 0 <= k < |WithItemAdded(cart, item)| && WithItemAdded(cart, item)[k].id == item.id
  {
    var r := WithItemAdded(cart, item);
    match IndexOf(cart, item.id)
    case Some(k) => {
      assert forall j :: 0 <= j < |cart| ==> r[j].id == cart[j].id;
      assert r[k].id == item.id;
    }
    case None => {
      assert r[|cart|].id == item.id;
    }
  }

  lemma {:induction false} TotalAppend(cart: seq<CartEntry>, e: CartEntry)
    ensures CartTotal(cart + [e]) == CartTotal(cart) + LineTotal(e)
  {
    assert (cart + [e])[..|cart|] == cart;
  }

  lemma {:induction false} TotalUpdate(cart: seq<CartEntry>, k: nat, e: CartEntry)
    requires k < |cart|
    ensures CartTotal(cart[k := e]) == CartTotal(cart) - LineTotal(cart[k]) + LineTotal(e)
  {
    var n := |cart| - 1;
    if k == n {
      assert cart[k := e][..n] == cart[..n];
    } else {
      TotalUpdate(cart[..n], k, e);
      assert cart[k := e][..n] == cart[..n][k := e];
    }
  }

  lemma BumpedLineTotal(e: CartEntry)
    ensures LineTotal(e.(qty := e.qty + 1)) == LineTotal(e) + e.priceInPaise
  {
    assert e.priceInPaise * (e.qty + 1) == e.priceInPaise * e.qty + e.priceInPaise;
  }

  /** Adding a product raises the total by one unit of its price: the entry's price when it was there, else the item's. */
  lemma TotalAfterAdd(cart: seq<CartEntry>, item: Item)
    ensures CartTotal(WithItemAdded(cart, item)) ==
      CartTotal(cart) + match IndexOf(cart, item.id) { case Some(k) => cart[k].priceInPaise case None => item.priceInPaise }
  {
    match IndexOf(cart, item.id)
    case Some(k) => {
      assert WithItemAdded(cart, item) == cart[k := cart[k].(qty := cart[k].qty + 1)];
      TotalUpdate(cart, k, cart[k].(qty := cart[k].qty + 1));
      BumpedLineTotal(cart[k]);
    }
    case None => {
      assert WithItemAdded(cart, item) == cart + [NewEntry(item)];
      TotalAppend(cart, NewEntry(item));
    }
  }

  /** The checkout page's total over the projection equals the cart's total. */
  lemma {:induction false} CheckoutTotalMatches(cart: seq<CartEntry>)
    ensures CheckoutTotal(ForCheckout(cart)) == CartTotal(cart)
  {
    if cart != [] {
      var n := |cart| - 1;
      CheckoutTotalMatches(cart[..n]);
      assert ForCheckout(cart)[..n] == ForCheckout(cart[..n]);
    }
  }
}
