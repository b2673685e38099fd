/**
 * POST /api/checkout (backend/controllers/checkoutController.go): turns the
 * lines being bought into an order, and in one update appends that order to
 * the history and empties the cart.
 */
module CheckoutController {
  import opened Wrappers
  import opened ObjectIds
  import opened Models
  import CartController

  /** The lines checked out: the request body's `cartItems` when it sent any, the stored cart otherwise. */
  function ItemsToCheckout(requested: seq<ProductUser>, stored: seq<ProductUser>): (items: seq<ProductUser>)
    ensures |requested| > 0 ==> items == requested
    ensures |requested| == 0 ==> items == stored
    ensures items == [] <==> requested == [] && stored == []
  {
    if |requested| == 0 then stored else requested
  }

  /** A line with quantity 0 is billed as one. */
  function BilledQuantity(item: ProductUser): (q: int)
    ensures item.quantity == 0 ==> q == 1
    ensures item.quantity != 0 ==> q == item.quantity
  {
    if item.quantity == 0 then 1 else item.quantity
  }

  /** Σ price × billed quantity over the lines checked out. */
  function CheckoutTotal(items: seq<ProductUser>): int {
    if items == [] then 0 else CheckoutTotal(items[..|items| - 1]) + items[|items| - 1].price * BilledQuantity(items[|items| - 1])
  }

  /** When no line has quantity 0, the checkout total is the cart total GET /api/cart reports. */
  lemma {:induction false} CheckoutTotalIsCartTotal(items: seq<ProductUser>)
    requires forall j :: 0 <= j < |items| ==> items[j].quantity != 0
    ensures CheckoutTotal(items) == CartController.CartTotal(items)
    decreases |items|
  {
    if items != [] {
      CheckoutTotalIsCartTotal(items[..|items| - 1]);
    }
  }

  /** The order a checkout records: cash on delivery, status "completed", no discount, address or gateway ids. */
  function NewOrder(id: ObjectId, items: seq<ProductUser>, now: Time, total: int): Order {
    Order(id, items, now, total, None, Payment(false, true), "", "", "completed", None)
  }

  /** The mock receipt: total, timestamp, order id and number of lines. */
  datatype Receipt = Receipt(total: int, timestamp: Time, orderId: string, items: nat)

  /** `orderId` is the fresh id the handler draws and `now` the clock reading used for every timestamp. */
  method Checkout(db: Store, caller: Option<string>, cartItems: seq<ProductUser>, orderId: ObjectId, now: Time)
    returns (db': Store, response: Response, receipt: Receipt)
    ensures caller.None? ==> db' == db && response == NotAuthenticated
    ensures caller.Some? && caller.value !in db.users ==> db' == db && response == Error(404, "User not found")
    ensures (caller.Some? && caller.value in db.users &&
             ItemsToCheckout(cartItems, db.users[caller.value].userCart) == []) ==>
      db' == db && response == Error(400, "Cart is empty")
    ensures (caller.Some? && caller.value in db.users &&
             ItemsToCheckout(cartItems, db.users[caller.value].userCart) != []) ==>
      var user := db.users[caller.value];
      var items := ItemsToCheckout(cartItems, user.userCart);
      var order := NewOrder(orderId, items, now, CheckoutTotal(items));
      response == Payload(200) &&
      receipt == Receipt(order.totalPrice, now, Hex(orderId), |items|) &&
      db' == WithUser(db, caller.value, user.(orders := user.orders + [order], userCart := [], updatedAt := now))
  {
    receipt := Receipt(0, now, "", 0);
    if caller.None? {
      return db, NotAuthenticated, receipt;
    }
    var uid := caller.value;
    if uid !in db.users {
      return db, Error(404, "User not found"), receipt;
    }
    var user := db.users[uid];
    var itemsToCheckout := cartItems;
    if |itemsToCheckout| == 0 {
      itemsToCheckout := user.userCart;
    }
    if |itemsToCheckout| == 0 {
      return db, Error(400, "Cart is empty"), receipt;
    }
    var total := 0;
    for i := 0 to |itemsToCheckout|
      invariant total == CheckoutTotal(itemsToCheckout[..i])
    {
      assert itemsToCheckout[..i + 1][..i] == itemsToCheckout[..i];
      var qty := itemsToCheckout[i].quantity;
      if qty == 0 {
        qty := 1;
      }
      total := total + itemsToCheckout[i].price * qty;
    }
    assert itemsToCheckout[..|itemsToCheckout|] == itemsToCheckout;
    var order := NewOrder(orderId, itemsToCheckout, now, total);
    db' := WithUser(db, uid, user.(orders := user.orders + [order], userCart := [], updatedAt := now));
    response := Payload(200);
    receipt := Receipt(total, now, Hex(orderId), |itemsToCheckout|);
  }
}
