/**
 * The cart operations of the legacy database layer (backend/database/cart.go):
 * each loads the user, finds an index by a loop, and turns the change into one
 * store update (`$inc` or `$set` at that index, `$push`, `$pull`).
 */
module LegacyDatabase {
  import opened Wrappers
  import opened ObjectIds
  import opened Seqs
  import opened LegacyModels

  /** The line a product becomes in the cart: its catalogue fields, the quantity, and `ID` its `_id`. */
  function Snapshot(productId: ObjectId, p: Product, quantity: int): ProductUser {
    ProductUser(productId, p.productId, p.productName, p.price, p.rating, p.image, quantity)
  }

  predicate HasId(item: ProductUser, productId: ObjectId) {
    item.id == productId
  }

  function LineWithId(productId: ObjectId): ProductUser -> bool {
    (item: ProductUser) => HasId(item, productId)
  }

  /** The cart after an add: `$inc` the first line with that `ID`, otherwise `$push` the snapshot. */
  function CartAfterAdd(cart: seq<ProductUser>, productId: ObjectId, p: Product, quantity: int): (r: seq<ProductUser>)
    ensures |r| == |cart| || |r| == |cart| + 1
  {
    var i := IndexOfFirst(cart, LineWithId(productId));
    if i == -1 then cart + [Snapshot(productId, p, quantity)]
    else cart[i := cart[i].(quantity := cart[i].quantity + quantity)]
  }

  /** With a line for the product, only that first line changes, by the added quantity. */
  lemma AddIncrements(cart: seq<ProductUser>, productId: ObjectId, p: Product, quantity: int, i: int)
    requires 0 <= i < |cart| && cart[i].id == productId
    requires forall j :: 0 <= j < i ==> cart[j].id != productId
    ensures var r := CartAfterAdd(cart, productId, p, quantity);
      |r| == |cart| && r[i] == cart[i].(quantity := cart[i].quantity + quantity) &&
      forall j :: 0 <= j < |cart| && j != i ==> r[j] == cart[j]
  {
    IndexOfFirstIsFirst(cart, LineWithId(productId), i);
  }

  /** Without one, the snapshot is appended and the earlier lines stay as they were. */
  lemma AddPushesSnapshot(cart: seq<ProductUser>, productId: ObjectId, p: Product, quantity: int)
    requires forall j :: 0 <= j < |cart| ==> cart[j].id != productId
    ensures CartAfterAdd(cart, productId, p, quantity) == cart + [Snapshot(productId, p, quantity)]
  {
    IndexOfFirstIsFirst(cart, LineWithId(productId), -1);
  }

  /** No two lines carry the same `ID`. */
  predicate UniqueIds(cart: seq<ProductUser>) {
    forall i, j :: 0 <= i < j < |cart| ==> cart[i].id != cart[j].id
  }

  lemma AddKeepsUniqueIds(cart: seq<ProductUser>, productId: ObjectId, p: Product, quantity: int)
    requires UniqueIds(cart)
    ensures UniqueIds(CartAfterAdd(cart, productId, p, quantity))
    ensures exists k :: 0 <= k < |CartAfterAdd(cart, productId, p, quantity)| && CartAfterAdd(cart, productId, p, quantity)[k].id == productId
  {
    var i := IndexOfFirst(cart, LineWithId(productId));
    var r := CartAfterAdd(cart, productId, p, quantity);
    if i == -1 {
      assert r[|cart|].id == productId;
    } else {
      assert r[i].id == productId;
    }
  }

  /** Adding a product twice leaves one line whose quantity grew by both amounts. */
  lemma AddTwice(cart: seq<ProductUser>, productId: ObjectId, p: Product, a: int, b: int)
    ensures CartAfterAdd(CartAfterAdd(cart, productId, p, a), productId, p, b) == CartAfterAdd(cart, productId, p, a + b)
  {
    var i := IndexOfFirst(cart, LineWithId(productId));
    var once := CartAfterAdd(cart, productId, p, a);
    if i == -1 {
      forall j | 0 <= j < |cart| ensures !HasId(once[j], productId) { }
      IndexOfFirstIsFirst(once, LineWithId(productId), |cart|);
    } else {
      forall j | 0 <= j < i ensures !HasId(once[j], productId) { }
      IndexOfFirstIsFirst(once, LineWithId(productId), i);
    }
  }

  /**
   * `AddProductToCart`: the product must exist, then the user id must parse
   * and name a user; the line is merged or appended.
   */
  method AddProductToCart(db: Store, productId: ObjectId, userID: string, quantity: int)
    returns (db': Store, err: Option<DbError>)
    ensures productId !in db.products ==> db' == db && err == Some(ErrCantFindProduct)
    ensures (productId in db.products && (FromHex(userID).None? || FromHex(userID).value !in db.users)) ==>
      db' == db && err == Some(ErrUserIDIsNotValid)
    ensures (productId in db.products && FromHex(userID).Some? && FromHex(userID).value in db.users) ==>
      var id := FromHex(userID).value;
      err.None? &&
      db' == WithUser(db, id, db.users[id].(userCart := CartAfterAdd(db.users[id].userCart, productId, db.products[productId], quantity)))
  {
    if productId !in db.products {
      return db, Some(ErrCantFindProduct);
    }
    var product := db.products[productId];
    var productUser := Snapshot(productId, product, quantity);
    var parsed := FromHex(userID);
    if parsed.None? {
      return db, Some(ErrUserIDIsNotValid);
    }
    var id := parsed.value;
    if id !in db.users {
      return db, Some(ErrUserIDIsNotValid);
    }
    var user := db.users[id];
    var cart := user.userCart;
    var productExists := false;
    var i := 0;
    while i < |cart|
      invariant 0 <= i <= |cart|
      invariant !productExists
      invariant forall j :: 0 <= j < i ==> !HasId(cart[j], productId)
    {
      if cart[i].id == productId {
        productExists := true;
        db' := WithUser(db, id, user.(userCart := cart[i := cart[i].(quantity := cart[i].quantity + quantity)]));
        break;
      }
      i := i + 1;
    }
    IndexOfFirstIsFirst(cart, LineWithId(productId), if productExists then i else -1);
    if !productExists {
      db' := WithUser(db, id, user.(userCart := cart + [productUser]));
    }
    err := None;
  }

  function KeepOtherIds(productId: ObjectId): ProductUser -> bool {
    (item: ProductUser) => !HasId(item, productId)
  }

  /** `$pull` of every line whose `_id` is the product's. */
  function CartAfterPull(cart: seq<ProductUser>, productId: ObjectId): (r: seq<ProductUser>)
    ensures forall j :: 0 <= j < |r| ==> r[j].id != productId
    ensures forall j :: 0 <= j < |cart| && cart[j].id != productId ==> cart[j] in r
  {
    Filter(cart, KeepOtherIds(productId))
  }

  lemma PullIdempotent(cart: seq<ProductUser>, productId: ObjectId)
    ensures CartAfterPull(CartAfterPull(cart, productId), productId) == CartAfterPull(cart, productId)
  {
    FilterIdempotent(cart, KeepOtherIds(productId));
  }

  /**
   * `RemoveCartItem`: the user id must parse and the product must exist; the
   * update filters on `_id` without loading the user, so an unknown user
   * changes nothing and is not an error.
   */
  method RemoveCartItem(db: Store, productId: ObjectId, userID: string) returns (db': Store, err: Option<DbError>)
    ensures FromHex(userID).None? ==> db' == db && err == Some(ErrUserIDIsNotValid)
    ensures FromHex(userID).Some? && productId !in db.products ==> db' == db && err == Some(ErrProductNotFound)
    ensures (FromHex(userID).Some? && productId in db.products) ==>
      var id := FromHex(userID).value;
      err.None? &&
      db' == if id in db.users then WithUser(db, id, db.users[id].(userCart := CartAfterPull(db.users[id].userCart, productId))) else db
  {
    var parsed := FromHex(userID);
    if parsed.None? {
      return db, Some(ErrUserIDIsNotValid);
    }
    if productId !in db.products {
      return db, Some(ErrProductNotFound);
    }
    var id := parsed.value;
    db' := db;
    if id in db.users {
      db' := WithUser(db, id, db.users[id].(userCart := CartAfterPull(db.users[id].userCart, productId)));
    }
    err := None;
  }

  /**
   * `UpdateCartItem`: `$set` the quantity of the first line with that `ID`.
   * Any quantity is accepted, zero and negative included.
   */
  method UpdateCartItem(db: Store, productId: ObjectId, userID: string, quantity: int) returns (db': Store, err: Option<DbError>)
    ensures productId !in db.products ==> db' == db && err == Some(ErrProductNotFound)
    ensures (productId in db.products && (FromHex(userID).None? || FromHex(userID).value !in db.users)) ==>
      db' == db && err == Some(ErrUserIDIsNotValid)
    ensures (productId in db.products && FromHex(userID).Some? && FromHex(userID).value in db.users) ==>
      var id := FromHex(userID).value;
      var cart := db.users[id].userCart;
      var i := IndexOfFirst(cart, LineWithId(productId));
      (i == -1 ==> db' == db && err == Some(ErrCantFindProduct)) &&
      (i >= 0 ==> err.None? && db' == WithUser(db, id, db.users[id].(userCart := cart[i := cart[i].(quantity := quantity)])))
  {
    if productId !in db.products {
      return db, Some(ErrProductNotFound);
    }
    var parsed := FromHex(userID);
    if parsed.None? {
      return db, Some(ErrUserIDIsNotValid);
    }
    var id := parsed.value;
    if id !in db.users {
      return db, Some(ErrUserIDIsNotValid);
    }
    var user := db.users[id];
    var cart := user.userCart;
    var itemIndex := -1;
    var i := 0;
    while i < |cart|
      invariant 0 <= i <= |cart|
      invariant forall j :: 0 <= j < i ==> !HasId(cart[j], productId)
    {
      if cart[i].id == productId {
        itemIndex := i;
        break;
      }
      i := i + 1;
    }
    IndexOfFirstIsFirst(cart, LineWithId(productId), itemIndex);
    if itemIndex == -1 {
      return db, Some(ErrCantFindProduct);
    }
    db' := WithUser(db, id, user.(userCart := cart[itemIndex := cart[itemIndex].(quantity := quantity)]));
    err := None;
  }

  /**
   * The last step of `BuyItemFromCart`: the cart is reset to empty.
   * `ordersAfter` is the order history as the earlier pipeline-driven
   * updates leave it; those updates are not modelled.
   */
  method BuyItemFromCart(db: Store, userID: string, ordersAfter: seq<Order>) returns (db': Store, err: Option<DbError>)
    ensures FromHex(userID).None? ==> db' == db && err == Some(ErrUserIDIsNotValid)
    ensures FromHex(userID).Some? ==>
      var id := FromHex(userID).value;
      err.None? &&
      db' == if id in db.users then WithUser(db, id, db.users[id].(userCart := [], orderStatus := ordersAfter)) else db
  {
    var parsed := FromHex(userID);
    if parsed.None? {
      return db, Some(ErrUserIDIsNotValid);
    }
    var id := parsed.value;
    db' := db;
    if id in db.users {
      db' := WithUser(db, id, db.users[id].(userCart := [], orderStatus := ordersAfter));
    }
    err := None;
  }
}
