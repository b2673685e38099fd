/**
 * The cart handlers of backend/controllers/cartController.go. Each loads the
 * caller's user document, rewrites its embedded `usercart` in memory, and
 * writes the whole array back with one `$set`.
 */
module CartController {
  import opened Wrappers
  import opened ObjectIds
  import opened Seqs
  import opened Models

  // ---------------------------------------------------------------- add

  /** A requested quantity of 0 (absent from the body) means one; every other value, negative ones too, is kept. */
  function RequestedQuantity(qty: int): (q: int)
    ensures qty == 0 ==> q == 1
    ensures qty != 0 ==> q == qty
  {
    if qty == 0 then 1 else qty
  }

  function HasObjectId(id: ObjectId): Product -> bool {
    (p: Product) => p.id == id
  }

  function HasProductId(key: string): Product -> bool {
    (p: Product) => p.productId == key
  }

  /** `FindOne` on the product collection: the first product that matches, if any. */
  function FindProduct(products: seq<Product>, matches: Product -> bool): (r: Option<Product>)
    ensures r.Some? ==> r.value in products && matches(r.value)
    ensures r.None? <==> forall j :: 0 <= j < |products| ==> !matches(products[j])
  {
    var i := IndexOfFirst(products, matches);
    if i == -1 then None else Some(products[i])
  }

  /**
   * The product a request names: looked up by `_id` only when the key parses
   * as an object id, then by `product_id` when that failed or found a product
   * with a zero id; a product with a zero id is never returned.
   */
  function LookupProduct(products: seq<Product>, key: string): (r: Option<Product>)
    ensures r.Some? ==> r.value in products && !IsZero(r.value.id)
    ensures r.Some? ==> FromHex(key) == Some(r.value.id) || r.value.productId == key
  {
    var byId := match FromHex(key)
      case Some(oid) => FindProduct(products, HasObjectId(oid))
      case None => None;
    if byId.Some? && !IsZero(byId.value.id) then byId
    else
      var byProductId := FindProduct(products, HasProductId(key));
      if byProductId.Some? && !IsZero(byProductId.value.id) then byProductId else None
  }

  /** A product with a non-zero id that no other product shares is found by the hexadecimal form of its id. */
  lemma LookupByHex(products: seq<Product>, k: nat)
    requires k < |products| && !IsZero(products[k].id)
    requires forall j :: 0 <= j < |products| && products[j].id == products[k].id ==> j == k
    ensures LookupProduct(products, Hex(products[k].id)) == Some(products[k])
  {
    var p := products[k];
    FromHexOfHex(p.id);
    IndexOfFirstIsFirst(products, HasObjectId(p.id), k);
  }

  /** A product carrying the id is there to be found, and what is found carries the id. */
  lemma FindsPresentId(products: seq<Product>, oid: ObjectId, j: int)
    requires 0 <= j < |products|
    ensures products[j].id == oid ==>
      var found := FindProduct(products, HasObjectId(oid));
      found.Some? && found.value.id == oid
  {
    assert HasObjectId(oid)(products[j]) == (products[j].id == oid);
  }

  /** "Product not found" exactly when no usable product has an id that the key parses to, and the first product with that `product_id` (if any) has a zero id. */
  lemma LookupFails(products: seq<Product>, key: string)
    ensures LookupProduct(products, key).None? <==>
      (forall j :: 0 <= j < |products| && !IsZero(products[j].id) ==> FromHex(key) != Some(products[j].id)) &&
      (var k := IndexOfFirst(products, HasProductId(key)); k == -1 || IsZero(products[k].id))
  {
    if FromHex(key).Some? {
      var oid := FromHex(key).value;
      var byId := FindProduct(products, HasObjectId(oid));
      forall j | 0 <= j < |products| && !IsZero(products[j].id)
        ensures (byId.Some? && !IsZero(byId.value.id)) || FromHex(key) != Some(products[j].id)
      {
        FindsPresentId(products, oid, j);
      }
      if byId.Some? && !IsZero(byId.value.id) {
        var j :| 0 <= j < |products| && products[j] == byId.value;
        assert !IsZero(products[j].id) && FromHex(key) == Some(products[j].id);
      }
    }
  }

  /** The add handler's test for "this cart line already holds the product". */
  predicate IsLineFor(item: ProductUser, product: Product) {
    item.productId == product.productId || item.productId == Hex(product.id) || Hex(item.id) == Hex(product.id)
  }

  function LineFor(product: Product): ProductUser -> bool {
    (item: ProductUser) => IsLineFor(item, product)
  }

  /** The line an add appends: the product snapshot with its own id left zero. */
  function NewLine(product: Product, quantity: int): (line: ProductUser)
    ensures IsLineFor(line, product)
  {
    ProductUser(Zero, product.productId, product.productName, product.price, product.rating, product.image, quantity)
  }

  /** The cart after adding: the first line for the product grows by the quantity, or a new line goes at the end. */
  function CartAfterAdd(cart: seq<ProductUser>, product: Product, quantity: int): seq<ProductUser> {
    var i := IndexOfFirst(cart, LineFor(product));
    if i >= 0 then cart[i := cart[i].(quantity := cart[i].quantity + quantity)]
    else cart + [NewLine(product, quantity)]
  }

  /** Adding a product that has a line changes the quantity of that one line and nothing else. */
  lemma AddMerges(cart: seq<ProductUser>, product: Product, quantity: int)
    requires exists j :: 0 <= j < |cart| && IsLineFor(cart[j], product)
    ensures var r := CartAfterAdd(cart, product, quantity);
      var i := IndexOfFirst(cart, LineFor(product));
      0 <= i && |r| == |cart| &&
      r[i] == cart[i].(quantity := cart[i].quantity + quantity) &&
      forall j :: 0 <= j < |cart| && j != i ==> r[j] == cart[j]
  {
    var j :| 0 <= j < |cart| && IsLineFor(cart[j], product);
    assert LineFor(product)(cart[j]);
  }

  /** Adding a product without a line appends one line and keeps every earlier line. */
  lemma AddAppends(cart: seq<ProductUser>, product: Product, quantity: int)
    requires forall j :: 0 <= j < |cart| ==> !IsLineFor(cart[j], product)
    ensures CartAfterAdd(cart, product, quantity) == cart + [NewLine(product, quantity)]
    ensures CartAfterAdd(cart, product, quantity)[|cart|].id == Zero
  {
    assert forall j :: 0 <= j < |cart| ==> !LineFor(product)(cart[j]);
  }

  /** Adding the same product twice is one add of the sum: one line, never two. */
  lemma AddTwice(cart: seq<ProductUser>, product: Product, a: int, b: int)
    ensures CartAfterAdd(CartAfterAdd(cart, product, a), product, b) == CartAfterAdd(cart, product, a + b)
  {
    if IndexOfFirst(cart, LineFor(product)) >= 0 {
      AddTwiceMerged(cart, product, a, b);
    } else {
      AddTwiceAppended(cart, product, a, b);
    }
  }

  lemma AddTwiceMerged(cart: seq<ProductUser>, product: Product, a: int, b: int)
    requires IndexOfFirst(cart, LineFor(product)) >= 0
    ensures CartAfterAdd(CartAfterAdd(cart, product, a), product, b) == CartAfterAdd(cart, product, a + b)
  {
    var p := LineFor(product);
    var i := IndexOfFirst(cart, p);
    var merged := cart[i].(quantity := cart[i].quantity + a);
    assert p(merged) by { assert IsLineFor(cart[i], product); }
    IndexOfFirstUpdate(cart, i, merged, p);
    assert cart[i := merged][i := merged.(quantity := merged.quantity + b)] == cart[i := cart[i].(quantity := cart[i].quantity + (a + b))];
  }

  lemma AddTwiceAppended(cart: seq<ProductUser>, product: Product, a: int, b: int)
    requires IndexOfFirst(cart, LineFor(product)) == -1
    ensures CartAfterAdd(CartAfterAdd(cart, product, a), product, b) == CartAfterAdd(cart, product, a + b)
  {
    var p := LineFor(product);
    var line := NewLine(product, a);
    assert p(line);
    IndexOfFirstAppend(cart, line, p);
    assert (cart + [line])[|cart| := line.(quantity := line.quantity + b)] == cart + [NewLine(product, a + b)];
  }

  /** No two lines of the cart carry the same `product_id`. */
  predicate OneLinePerProduct(cart: seq<ProductUser>) {
    forall i, j :: 0 <= i < j < |cart| ==> cart[i].productId != cart[j].productId
  }

  /** Adding keeps one line per `product_id`: quantities accumulate, lines never duplicate, and the product has its line. */
  lemma AddKeepsOneLinePerProduct(cart: seq<ProductUser>, product: Product, quantity: int)
    requires OneLinePerProduct(cart)
    ensures OneLinePerProduct(CartAfterAdd(cart, product, quantity))
    ensures IndexOfFirst(CartAfterAdd(cart, product, quantity), LineFor(product)) >= 0
  {
    var i := IndexOfFirst(cart, LineFor(product));
    var r := CartAfterAdd(cart, product, quantity);
    if i >= 0 {
      assert forall j :: 0 <= j < |r| ==> r[j].productId == cart[j].productId;
      assert LineFor(product)(r[i]) by { assert IsLineFor(cart[i], product); }
    } else {
      assert forall j :: 0 <= j < |cart| ==> !LineFor(product)(cart[j]);
      assert forall j :: 0 <= j < |cart| ==> r[j] == cart[j];
      assert LineFor(product)(r[|cart|]);
    }
  }

  /** The add handler's search: the index of the first line holding the product, -1 when there is none. */
  method FindLine(cart: seq<ProductUser>, product: Product) returns (existingItemIndex: int)
    ensures existingItemIndex == IndexOfFirst(cart, LineFor(product))
  {
    existingItemIndex := -1;
    var i := 0;
    while i < |cart|
      invariant 0 <= i <= |cart|
      invariant existingItemIndex == -1
      invariant forall j :: 0 <= j < i ==> !IsLineFor(cart[j], product)
    {
      if IsLineFor(cart[i], product) {
        existingItemIndex := i;
        break;
      }
      i := i + 1;
    }
    IndexOfFirstIsFirst(cart, LineFor(product), existingItemIndex);
  }

  datatype AddToCartRequest = AddToCartRequest(productId: string, qty: int)

  /** POST /api/cart. */
  method AddToCart(db: Store, caller: Option<string>, req: AddToCartRequest, now: Time)
    returns (db': Store, response: Response)
    ensures caller.None? ==> db' == db && response == NotAuthenticated
    ensures caller.Some? && req.productId == "" ==>
      db' == db && response == Error(400, "productId is required")
    ensures caller.Some? && req.productId != "" && LookupProduct(db.products, req.productId).None? ==>
      db' == db && response == Error(404, "Product not found")
    ensures (caller.Some? && req.productId != "" && LookupProduct(db.products, req.productId).Some? &&
             caller.value !in db.users) ==>
      db' == db && response == Error(404, "User not found")
    ensures (caller.Some? && req.productId != "" && LookupProduct(db.products, req.productId).Some? &&
             caller.value in db.users) ==>
      var user := db.users[caller.value];
      var product := LookupProduct(db.products, req.productId).value;
      response == Message(200, "Successfully added to cart") &&
      db' == WithUser(db, caller.value,
        user.(userCart := CartAfterAdd(user.userCart, product, RequestedQuantity(req.qty)), updatedAt := now))
  {
    if caller.None? {
      return db, NotAuthenticated;
    }
    var uid := caller.value;
    if req.productId == "" {
      return db, Error(400, "productId is required");
    }
    var quantity := RequestedQuantity(req.qty);
    var found := LookupProduct(db.products, req.productId);
    if found.None? {
      return db, Error(404, "Product not found");
    }
    var product := found.value;
    if uid !in db.users {
      return db, Error(404, "User not found");
    }
    var user := db.users[uid];
    var cart := user.userCart;
    var existingItemIndex := FindLine(cart, product);
    if existingItemIndex >= 0 {
      cart := cart[existingItemIndex := cart[existingItemIndex].(quantity := cart[existingItemIndex].quantity + quantity)];
    } else {
      cart := cart + [NewLine(product, quantity)];
    }
    db' := WithUser(db, uid, user.(userCart := cart, updatedAt := now));
    response := Message(200, "Successfully added to cart");
  }

  // ---------------------------------------------------------------- remove

  /** The remove handler keeps a line only when neither its id's hex form nor its `product_id` is the given id. */
  predicate KeepsLine(item: ProductUser, id: string) {
    Hex(item.id) != id && item.productId != id
  }

  function KeepLine(id: string): ProductUser -> bool {
    (item: ProductUser) => KeepsLine(item, id)
  }

  function CartAfterRemove(cart: seq<ProductUser>, id: string): seq<ProductUser> {
    Filter(cart, KeepLine(id))
  }

  /** Removing exactly keeps the lines that differ from the id in both respects. */
  lemma RemoveKeepsExactly(cart: seq<ProductUser>, id: string)
    ensures var r := CartAfterRemove(cart, id);
      (forall j :: 0 <= j < |r| ==> r[j] in cart && Hex(r[j].id) != id && r[j].productId != id) &&
      (forall j :: 0 <= j < |cart| && KeepsLine(cart[j], id) ==> cart[j] in r)
  {
    var r := CartAfterRemove(cart, id);
    assert forall j :: 0 <= j < |r| ==> KeepLine(id)(r[j]);
  }

  /** Removing twice is removing once. */
  lemma RemoveIdempotent(cart: seq<ProductUser>, id: string)
    ensures CartAfterRemove(CartAfterRemove(cart, id), id) == CartAfterRemove(cart, id)
  {
    FilterIdempotent(cart, KeepLine(id));
  }

  /**
   * After adding a product and removing its `product_id`, no line for that `product_id` is left; and when the add
   * appended a line, or merged into a line with that same `product_id`, the result is the old cart with the removal applied.
   */
  lemma AddThenRemove(cart: seq<ProductUser>, product: Product, quantity: int)
    ensures forall j :: 0 <= j < |CartAfterRemove(CartAfterAdd(cart, product, quantity), product.productId)| ==>
      CartAfterRemove(CartAfterAdd(cart, product, quantity), product.productId)[j].productId != product.productId
    ensures var i := IndexOfFirst(cart, LineFor(product));
      (i < 0 || cart[i].productId == product.productId) ==>
      CartAfterRemove(CartAfterAdd(cart, product, quantity), product.productId) == CartAfterRemove(cart, product.productId)
  {
    var keep := KeepLine(product.productId);
    RemoveKeepsExactly(CartAfterAdd(cart, product, quantity), product.productId);
    var i := IndexOfFirst(cart, LineFor(product));
    if i < 0 {
      var line := NewLine(product, quantity);
      assert CartAfterAdd(cart, product, quantity) == cart + [line];
      assert !keep(line);
      FilterSnoc(cart, line, keep);
    } else if cart[i].productId == product.productId {
      var x := cart[i].(quantity := cart[i].quantity + quantity);
      assert CartAfterAdd(cart, product, quantity) == cart[i := x];
      assert !keep(cart[i]) && !keep(x);
      FilterUpdateDropped(cart, i, x, keep);
    }
  }

  /** DELETE /api/cart/:id. */
  method RemoveFromCart(db: Store, caller: Option<string>, productId: string, now: Time)
    returns (db': Store, response: Response)
    ensures caller.None? ==> db' == db && response == NotAuthenticated
    ensures caller.Some? && caller.value !in db.users ==> db' == db && response == Error(404, "User not found")
    ensures caller.Some? && caller.value in db.users ==>
      var user := db.users[caller.value];
      response == Message(200, "Successfully removed from cart") &&
      db' == WithUser(db, caller.value, user.(userCart := CartAfterRemove(user.userCart, productId), updatedAt := now))
  {
    if caller.None? {
      return db, NotAuthenticated;
    }
    var uid := caller.value;
    if uid !in db.users {
      return db, Error(404, "User not found");
    }
    var user := db.users[uid];
    var cart := user.userCart;
    var filteredCart := [];
    for i := 0 to |cart|
      invariant filteredCart == Filter(cart[..i], KeepLine(productId))
    {
      FilterSnoc(cart[..i], cart[i], KeepLine(productId));
      assert cart[..i + 1] == cart[..i] + [cart[i]];
      if KeepsLine(cart[i], productId) {
        filteredCart := filteredCart + [cart[i]];
      }
    }
    assert cart[..|cart|] == cart;
    db' := WithUser(db, uid, user.(userCart := filteredCart, updatedAt := now));
    response := Message(200, "Successfully removed from cart");
  }

  // ---------------------------------------------------------------- total

  function LineTotal(item: ProductUser): int {
    item.price * item.quantity
  }

  /** Σ price × quantity over the lines, 0 for an empty cart. */
  function CartTotal(cart: seq<ProductUser>): int {
    if cart == [] then 0 else CartTotal(cart[..|cart| - 1]) + LineTotal(cart[|cart| - 1])
  }

  /** The total of a concatenation is the sum of the totals. */
  lemma {:induction false} CartTotalAppend(a: seq<ProductUser>, b: seq<ProductUser>)
    ensures CartTotal(a + b) == CartTotal(a) + CartTotal(b)
    decreases |b|
  {
    if b == [] {
      assert a + b == a;
    } else {
      assert (a + b)[..|a + b| - 1] == a + b[..|b| - 1];
      assert (a + b)[|a + b| - 1] == b[|b| - 1];
      CartTotalAppend(a, b[..|b| - 1]);
    }
  }

  /** Replacing one line changes the total by the difference of the two line totals. */
  lemma CartTotalUpdate(cart: seq<ProductUser>, i: nat, x: ProductUser)
    requires i < |cart|
    ensures CartTotal(cart[i := x]) == CartTotal(cart) - LineTotal(cart[i]) + LineTotal(x)
  {
    assert cart == cart[..i] + [cart[i]] + cart[i + 1..];
    assert cart[i := x] == cart[..i] + [x] + cart[i + 1..];
    CartTotalAppend(cart[..i] + [cart[i]], cart[i + 1..]);
    CartTotalAppend(cart[..i] + [x], cart[i + 1..]);
    CartTotalAppend(cart[..i], [cart[i]]);
    CartTotalAppend(cart[..i], [x]);
    SingleTotal(cart[i]);
    SingleTotal(x);
  }

  /** A one-line cart totals that line. */
  lemma SingleTotal(x: ProductUser)
    ensures CartTotal([x]) == LineTotal(x)
  {
    assert [x][..0] == [];
  }

  /** A line that grows by q grows in total by q times its price. */
  lemma LineTotalGrows(line: ProductUser, q: int)
    ensures LineTotal(line.(quantity := line.quantity + q)) == LineTotal(line) + q * line.price
  {
    assert line.price * (line.quantity + q) == line.price * line.quantity + q * line.price;
  }

  /** Adding q of a product raises the total by q times the price of its line: the stored snapshot's if it had one, the catalogue's otherwise. */
  lemma AddRaisesTotal(cart: seq<ProductUser>, product: Product, q: int)
    ensures var i := IndexOfFirst(cart, LineFor(product));
      CartTotal(CartAfterAdd(cart, product, q)) ==
        CartTotal(cart) + q * (if i >= 0 then cart[i].price else product.price)
  {
    var i := IndexOfFirst(cart, LineFor(product));
    if i >= 0 {
      var line := cart[i];
      assert CartAfterAdd(cart, product, q) == cart[i := line.(quantity := line.quantity + q)];
      CartTotalUpdate(cart, i, line.(quantity := line.quantity + q));
      LineTotalGrows(line, q);
    } else {
      var line := NewLine(product, q);
      assert CartAfterAdd(cart, product, q) == cart + [line];
      CartTotalAppend(cart, [line]);
      SingleTotal(line);
      assert LineTotal(line) == q * product.price;
    }
  }

  /** GET /api/cart: the stored lines and their total. */
  method GetCart(db: Store, caller: Option<string>) returns (response: Response, items: seq<ProductUser>, total: int)
    ensures caller.None? ==> response == NotAuthenticated
    ensures caller.Some? && caller.value !in db.users ==> response == Error(404, "User not found")
    ensures caller.Some? && caller.value in db.users ==>
      response == Payload(200) && items == db.users[caller.value].userCart && total == CartTotal(items)
  {
    items, total := [], 0;
    if caller.None? {
      return NotAuthenticated, items, total;
    }
    if caller.value !in db.users {
      return Error(404, "User not found"), items, total;
    }
    items := db.users[caller.value].userCart;
    for i := 0 to |items|
      invariant total == CartTotal(items[..i])
    {
      assert items[..i + 1][..i] == items[..i];
      total := total + items[i].price * items[i].quantity;
    }
    assert items[..|items|] == items;
    response := Payload(200);
  }

  // ---------------------------------------------------------------- update, clear

  predicate HasHex(item: ProductUser, id: string) {
    Hex(item.id) == id
  }

  function LineWithHex(id: string): ProductUser -> bool {
    (item: ProductUser) => HasHex(item, id)
  }

  /** PUT /api/cart/items/:id: the first line whose id's hex form is the given id gets the new quantity. */
  method UpdateCartItem(db: Store, caller: Option<string>, itemId: string, quantity: int, now: Time)
    returns (db': Store, response: Response)
    ensures caller.None? ==> db' == db && response == NotAuthenticated
    ensures caller.Some? && quantity < 1 ==> db' == db && response == Error(400, "Quantity must be at least 1")
    ensures caller.Some? && quantity >= 1 && caller.value !in db.users ==>
      db' == db && response == Error(404, "User not found")
    ensures caller.Some? && quantity >= 1 && caller.value in db.users ==>
      var user := db.users[caller.value];
      var i := IndexOfFirst(user.userCart, LineWithHex(itemId));
      (i == -1 ==> db' == db && response == Error(404, "Cart item not found")) &&
      (i >= 0 ==>
         response == Message(200, "Cart item updated successfully") &&
         db' == WithUser(db, caller.value,
           user.(userCart := user.userCart[i := user.userCart[i].(quantity := quantity)], updatedAt := now)))
  {
    if caller.None? {
      return db, NotAuthenticated;
    }
    var uid := caller.value;
    if quantity < 1 {
      return db, Error(400, "Quantity must be at least 1");
    }
    if uid !in db.users {
      return db, Error(404, "User not found");
    }
    var user := db.users[uid];
    var cart := user.userCart;
    var itemIndex := -1;
    var i := 0;
    while i < |cart|
      invariant 0 <= i <= |cart|
      invariant forall j :: 0 <= j < i ==> !HasHex(cart[j], itemId)
    {
      if HasHex(cart[i], itemId) {
        itemIndex := i;
        break;
      }
      i := i + 1;
    }
    IndexOfFirstIsFirst(cart, LineWithHex(itemId), itemIndex);
    if itemIndex == -1 {
      return db, Error(404, "Cart item not found");
    }
    cart := cart[itemIndex := cart[itemIndex].(quantity := quantity)];
    db' := WithUser(db, uid, user.(userCart := cart, updatedAt := now));
    response := Message(200, "Cart item updated successfully");
  }

  /** DELETE /api/cart: the cart becomes empty; the update filters on `user_id` without loading the user first. */
  method ClearCart(db: Store, caller: Option<string>, now: Time) returns (db': Store, response: Response)
    ensures caller.None? ==> db' == db && response == NotAuthenticated
    ensures caller.Some? ==> response == Message(200, "Cart cleared successfully")
    ensures caller.Some? && caller.value in db.users ==>
      db' == WithUser(db, caller.value, db.users[caller.value].(userCart := [], updatedAt := now))
    ensures caller.Some? && caller.value !in db.users ==> db' == db
  {
    if caller.None? {
      return db, NotAuthenticated;
    }
    db' := db;
    if caller.value in db.users {
      db' := WithUser(db, caller.value, db.users[caller.value].(userCart := [], updatedAt := now));
    }
    response := Message(200, "Cart cleared successfully");
  }
}
