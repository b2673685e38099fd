/**
 * The legacy cart handlers (backend/controllers/cart.go): the query-string
 * `AddToCart` and the `*Modern` handlers that take the caller from the
 * `uid` claim (the empty string when there is none).
 */
module LegacyCartHandlers {
  import opened Wrappers
  import opened ObjectIds
  import opened Seqs
  import opened LegacyModels
  import opened LegacyDatabase

  /** Σ Price × Quantity over the cart, integer arithmetic. */
  function CartSum(cart: seq<ProductUser>): int {
    if cart == [] then 0 else CartSum(cart[..|cart| - 1]) + cart[|cart| - 1].price * cart[|cart| - 1].quantity
  }

  lemma {:induction false} CartSumAppend(a: seq<ProductUser>, b: seq<ProductUser>)
    ensures CartSum(a + b) == CartSum(a) + CartSum(b)
    decreases |b|
  {
    if b == [] {
      assert a + b == a;
    } else {
      assert (a + b)[..|a + b| - 1] == a + b[..|b| - 1];
      assert (a + b)[|a + b| - 1] == b[|b| - 1];
      CartSumAppend(a, b[..|b| - 1]);
    }
  }

  /** A one-line cart sums to that line's price times its quantity. */
  lemma SingleSum(x: ProductUser)
    ensures CartSum([x]) == x.price * x.quantity
  {
    assert [x][..0] == [];
  }

  /** Replacing one line changes the sum by that line's difference. */
  lemma CartSumUpdate(cart: seq<ProductUser>, i: int, x: ProductUser)
    requires 0 <= i < |cart|
    ensures CartSum(cart[i := x]) == CartSum(cart) - cart[i].price * cart[i].quantity + x.price * x.quantity
  {
    var pre, post := cart[..i], cart[i + 1..];
    assert cart == pre + [cart[i]] + post;
    assert cart[i := x] == pre + [x] + post;
    CartSumAppend(pre + [cart[i]], post);
    CartSumAppend(pre, [cart[i]]);
    CartSumAppend(pre + [x], post);
    CartSumAppend(pre, [x]);
    SingleSum(x);
    SingleSum(cart[i]);
  }

  lemma MulDistributes(pr: int, qu: int, q: int)
    ensures pr * (qu + q) == pr * qu + q * pr
  {
  }

  /** An add raises the sum by the added quantity times the price of the line it lands in. */
  lemma AddRaisesSum(cart: seq<ProductUser>, productId: ObjectId, p: Product, q: int)
    ensures var i := IndexOfFirst(cart, LineWithId(productId));
      CartSum(CartAfterAdd(cart, productId, p, q)) == CartSum(cart) + q * (if i == -1 then p.price else cart[i].price)
  {
    var i := IndexOfFirst(cart, LineWithId(productId));
    if i == -1 {
      var line := Snapshot(productId, p, q);
      assert CartAfterAdd(cart, productId, p, q) == cart + [line];
      CartSumAppend(cart, [line]);
      SingleSum(line);
      MulDistributes(p.price, 0, q);
    } else {
      var x := cart[i].(quantity := cart[i].quantity + q);
      assert CartAfterAdd(cart, productId, p, q) == cart[i := x];
      CartSumUpdate(cart, i, x);
      MulDistributes(cart[i].price, cart[i].quantity, q);
    }
  }

  /** `calculateTotal`, as the loop the source runs. */
  method CalculateTotal(cart: seq<ProductUser>) returns (total: int)
    ensures total == CartSum(cart)
  {
    total := 0;
    for i := 0 to |cart|
      invariant total == CartSum(cart[..i])
    {
      assert cart[..i + 1][..i] == cart[..i];
      total := total + cart[i].price * cart[i].quantity;
    }
    assert cart[..|cart|] == cart;
  }

  /** A quantity of zero or less becomes one. */
  function NormalizeQuantity(q: int): (r: int)
    ensures r >= 1
    ensures q >= 1 ==> r == q
    ensures q < 1 ==> r == 1
  {
    if q <= 0 then 1 else q
  }

  /**
   * The query-string `AddToCart`, as written: it always adds one unit, and
   * on a database error writes the error and then the success text as well.
   */
  method AddToCart(db: Store, productQueryID: string, userQueryID: string) returns (db': Store, writes: seq<Reply>)
    ensures productQueryID == "" ==> db' == db && writes == [Abort(400, "product id is empty")]
    ensures productQueryID != "" && userQueryID == "" ==> db' == db && writes == [Abort(400, "user id is empty")]
    ensures (productQueryID != "" && userQueryID != "" && FromHex(productQueryID).None?) ==>
      db' == db && writes == [Abort(500, "")]
    ensures (productQueryID != "" && userQueryID != "" && FromHex(productQueryID).Some?) ==>
      var pid := FromHex(productQueryID).value;
      var parsed := FromHex(userQueryID);
      (pid !in db.products ==> db' == db && writes == [Failure(500, ErrCantFindProduct), Text(200, "Successfully Added to the cart")]) &&
      ((pid in db.products && (parsed.None? || parsed.value !in db.users)) ==>
         db' == db && writes == [Failure(500, ErrUserIDIsNotValid), Text(200, "Successfully Added to the cart")]) &&
      ((pid in db.products && parsed.Some? && parsed.value in db.users) ==>
         writes == [Text(200, "Successfully Added to the cart")] &&
         db' == WithUser(db, parsed.value, db.users[parsed.value].(userCart :=
                  CartAfterAdd(db.users[parsed.value].userCart, pid, db.products[pid], 1))))
  {
    if productQueryID == "" {
      return db, [Abort(400, "product id is empty")];
    }
    if userQueryID == "" {
      return db, [Abort(400, "user id is empty")];
    }
    var productID := FromHex(productQueryID);
    if productID.None? {
      return db, [Abort(500, "")];
    }
    var err;
    db', err := AddProductToCart(db, productID.value, userQueryID, 1);
    writes := [];
    if err.Some? {
      writes := writes + [Failure(500, err.value)];
    }
    writes := writes + [Text(200, "Successfully Added to the cart")];
  }

  /** POST with `product_id` and `quantity` (binding requires a non-empty `product_id`). */
  method AddToCartModern(db: Store, uid: string, productIdBody: string, quantity: int) returns (db': Store, reply: Reply)
    ensures uid == "" ==> db' == db && reply == NotAuthenticated
    ensures uid != "" && productIdBody == "" ==> db' == db && reply == Json(400, "error", "Invalid request body")
    ensures (uid != "" && productIdBody != "" && FromHex(productIdBody).None?) ==>
      db' == db && reply == Json(400, "error", "Invalid product ID")
    ensures (uid != "" && productIdBody != "" && FromHex(productIdBody).Some?) ==>
      var pid := FromHex(productIdBody).value;
      var parsed := FromHex(uid);
      (pid in db.products && parsed.Some? && parsed.value in db.users ==>
         reply == Json(200, "message", "Successfully added to cart") &&
         db' == WithUser(db, parsed.value, db.users[parsed.value].(userCart :=
                  CartAfterAdd(db.users[parsed.value].userCart, pid, db.products[pid], NormalizeQuantity(quantity))))) &&
      (!(pid in db.products && parsed.Some? && parsed.value in db.users) ==>
         db' == db && reply == Json(500, "error", "Failed to add product to cart"))
  {
    if uid == "" {
      return db, NotAuthenticated;
    }
    if productIdBody == "" {
      return db, Json(400, "error", "Invalid request body");
    }
    var q := quantity;
    if q <= 0 {
      q := 1;
    }
    var productID := FromHex(productIdBody);
    if productID.None? {
      return db, Json(400, "error", "Invalid product ID");
    }
    var err;
    db', err := AddProductToCart(db, productID.value, uid, q);
    if err.Some? {
      return db', Json(500, "error", "Failed to add product to cart");
    }
    reply := Json(200, "message", "Successfully added to cart");
  }

  method RemoveFromCartModern(db: Store, uid: string, productIdParam: string) returns (db': Store, reply: Reply)
    ensures uid == "" ==> db' == db && reply == NotAuthenticated
    ensures uid != "" && productIdParam == "" ==> db' == db && reply == Json(400, "error", "Product ID is required")
    ensures (uid != "" && productIdParam != "" && FromHex(productIdParam).None?) ==>
      db' == db && reply == Json(400, "error", "Invalid product ID format")
    ensures (uid != "" && productIdParam != "" && FromHex(productIdParam).Some?) ==>
      var pid := FromHex(productIdParam).value;
      var parsed := FromHex(uid);
      (parsed.Some? && pid in db.products ==>
         reply == Json(200, "message", "Successfully removed from cart") &&
         db' == if parsed.value in db.users
                then WithUser(db, parsed.value, db.users[parsed.value].(userCart := CartAfterPull(db.users[parsed.value].userCart, pid)))
                else db) &&
      (!(parsed.Some? && pid in db.products) ==> db' == db && reply == Json(500, "error", "Failed to remove product from cart"))
  {
    if uid == "" {
      return db, NotAuthenticated;
    }
    if productIdParam == "" {
      return db, Json(400, "error", "Product ID is required");
    }
    var productObjectID := FromHex(productIdParam);
    if productObjectID.None? {
      return db, Json(400, "error", "Invalid product ID format");
    }
    var err;
    db', err := RemoveCartItem(db, productObjectID.value, uid);
    if err.Some? {
      return db', Json(500, "error", "Failed to remove product from cart");
    }
    reply := Json(200, "message", "Successfully removed from cart");
  }

  /** The cart as stored, and `total_items` its number of lines. */
  method GetCartModern(db: Store, uid: string) returns (reply: Reply, items: seq<ProductUser>, totalItems: nat)
    ensures uid == "" ==> reply == NotAuthenticated
    ensures uid != "" && FromHex(uid).None? ==> reply == Json(400, "error", "Invalid user ID format")
    ensures uid != "" && FromHex(uid).Some? && FromHex(uid).value !in db.users ==> reply == Json(500, "error", "Failed to get user cart")
    ensures (uid != "" && FromHex(uid).Some? && FromHex(uid).value in db.users) ==>
      reply == Payload(200) && items == db.users[FromHex(uid).value].userCart && totalItems == |items|
  {
    items, totalItems := [], 0;
    if uid == "" {
      return NotAuthenticated, items, totalItems;
    }
    var userObjectID := FromHex(uid);
    if userObjectID.None? {
      return Json(400, "error", "Invalid user ID format"), items, totalItems;
    }
    if userObjectID.value !in db.users {
      return Json(500, "error", "Failed to get user cart"), items, totalItems;
    }
    items := db.users[userObjectID.value].userCart;
    reply, totalItems := Payload(200), |items|;
  }

  method ClearCartModern(db: Store, uid: string) returns (db': Store, reply: Reply)
    ensures uid == "" ==> db' == db && reply == NotAuthenticated
    ensures uid != "" && FromHex(uid).None? ==> db' == db && reply == Json(400, "error", "Invalid user ID format")
    ensures (uid != "" && FromHex(uid).Some?) ==>
      var id := FromHex(uid).value;
      reply == Json(200, "message", "Cart cleared successfully") &&
      db' == if id in db.users then WithUser(db, id, db.users[id].(userCart := [])) else db
  {
    if uid == "" {
      return db, NotAuthenticated;
    }
    var userObjectID := FromHex(uid);
    if userObjectID.None? {
      return db, Json(400, "error", "Invalid user ID format");
    }
    db' := db;
    if userObjectID.value in db.users {
      var user := db.users[userObjectID.value];
      db' := WithUser(db, userObjectID.value, user.(userCart := []));
    }
    reply := Json(200, "message", "Cart cleared successfully");
  }

  /** The checkout reply's figures: fresh order id, number of lines and amount. */
  datatype CheckoutReceipt = CheckoutReceipt(orderId: ObjectId, totalItems: nat, totalAmount: int)

  /**
   * `CheckoutModern`. `ordersAfter` is the history `BuyItemFromCart` leaves and
   * `orderId` the fresh id of the reply; the figures describe the cart as it
   * was before the checkout emptied it.
   */
  method CheckoutModern(db: Store, uid: string, ordersAfter: seq<Order>, orderId: ObjectId)
    returns (db': Store, reply: Reply, receipt: CheckoutReceipt)
    ensures uid == "" ==> db' == db && reply == NotAuthenticated
    ensures uid != "" && FromHex(uid).None? ==> db' == db && reply == Json(400, "error", "Invalid user ID format")
    ensures (uid != "" && FromHex(uid).Some? && FromHex(uid).value !in db.users) ==>
      db' == db && reply == Json(500, "error", "Failed to get user cart")
    ensures (uid != "" && FromHex(uid).Some? && FromHex(uid).value in db.users && db.users[FromHex(uid).value].userCart == []) ==>
      db' == db && reply == Json(400, "error", "Cart is empty")
    ensures (uid != "" && FromHex(uid).Some? && FromHex(uid).value in db.users && db.users[FromHex(uid).value].userCart != []) ==>
      var id := FromHex(uid).value;
      var cart := db.users[id].userCart;
      reply == Json(200, "message", "Order placed successfully") &&
      receipt == CheckoutReceipt(orderId, |cart|, CartSum(cart)) &&
      db' == WithUser(db, id, db.users[id].(userCart := [], orderStatus := ordersAfter))
  {
    receipt := CheckoutReceipt(orderId, 0, 0);
    if uid == "" {
      return db, NotAuthenticated, receipt;
    }
    var userObjectID := FromHex(uid);
    if userObjectID.None? {
      return db, Json(400, "error", "Invalid user ID format"), receipt;
    }
    if userObjectID.value !in db.users {
      return db, Json(500, "error", "Failed to get user cart"), receipt;
    }
    var user := db.users[userObjectID.value];
    if |user.userCart| == 0 {
      return db, Json(400, "error", "Cart is empty"), receipt;
    }
    var err;
    db', err := BuyItemFromCart(db, uid, ordersAfter);
    if err.Some? {
      return db', Json(500, "error", "Failed to process checkout"), receipt;
    }
    var amount := CalculateTotal(user.userCart);
    reply := Json(200, "message", "Order placed successfully");
    receipt := CheckoutReceipt(orderId, |user.userCart|, amount);
  }

  /** What `InstantBuyModern` decides before it hands over to `InstantBuyer`. */
  datatype InstantBuyStep = Rejected(reply: Reply) | Proceed(productId: ObjectId, quantity: int)

  function InstantBuyModern(uid: string, productIdBody: string, quantity: int): (r: InstantBuyStep)
    ensures r.Proceed? <==> uid != "" && productIdBody != "" && FromHex(productIdBody).Some?
    ensures r.Proceed? ==> r.quantity >= 1 && (quantity >= 1 ==> r.quantity == quantity) &&
                           Some(r.productId) == FromHex(productIdBody)
    ensures r.Proceed? ==> r.quantity == NormalizeQuantity(quantity)
    ensures uid == "" ==> r == Rejected(NotAuthenticated)
    ensures uid != "" && productIdBody == "" ==> r == Rejected(Json(400, "error", "Invalid request body"))
    ensures uid != "" && productIdBody != "" && FromHex(productIdBody).None? ==>
      r == Rejected(Json(400, "error", "Invalid product ID format"))
  {
    if uid == "" then Rejected(NotAuthenticated)
    else if productIdBody == "" then Rejected(Json(400, "error", "Invalid request body"))
    else
      var q := NormalizeQuantity(quantity);
      match FromHex(productIdBody)
      case None => Rejected(Json(400, "error", "Invalid product ID format"))
      case Some(pid) => Proceed(pid, q)
  }
}
