/** The order history handlers of backend/controllers/orderController.go; both only read the user document. */
module OrderController {
  import opened Wrappers
  import opened ObjectIds
  import opened Seqs
  import opened Models

  /** GET /api/orders: the stored history, as it is. */
  method GetOrders(db: Store, caller: Option<string>) returns (response: Response, orders: seq<Order>)
    ensures caller.None? ==> response == NotAuthenticated
    ensures caller.Some? && caller.value !in db.users ==> response == Error(404, "User not found")
    ensures caller.Some? && caller.value in db.users ==>
      response == Payload(200) && orders == db.users[caller.value].orders
  {
    orders := [];
    if caller.None? {
      return NotAuthenticated, orders;
    }
    if caller.value !in db.users {
      return Error(404, "User not found"), orders;
    }
    response, orders := Payload(200), db.users[caller.value].orders;
  }

  predicate HasHex(o: Order, id: string) {
    Hex(o.id) == id
  }

  function OrderWithHex(id: string): Order -> bool {
    (o: Order) => HasHex(o, id)
  }

  /** GET /api/orders/:id: the first order whose id's hex form is the given id. */
  method GetOrderById(db: Store, caller: Option<string>, orderId: string) returns (response: Response, found: Option<Order>)
    ensures caller.None? ==> response == NotAuthenticated && found.None?
    ensures caller.Some? && caller.value !in db.users ==> response == Error(404, "User not found") && found.None?
    ensures caller.Some? && caller.value in db.users ==>
      var orders := db.users[caller.value].orders;
      var i := IndexOfFirst(orders, OrderWithHex(orderId));
      (i == -1 ==> response == Error(404, "Order not found") && found.None?) &&
      (i >= 0 ==> response == Payload(200) && found == Some(orders[i]))
  {
    found := None;
    if caller.None? {
      return NotAuthenticated, found;
    }
    if caller.value !in db.users {
      return Error(404, "User not found"), found;
    }
    var orders := db.users[caller.value].orders;
    var i := 0;
    while i < |orders|
      invariant 0 <= i <= |orders|
      invariant found.None?
      invariant forall j :: 0 <= j < i ==> !HasHex(orders[j], orderId)
    {
      if HasHex(orders[i], orderId) {
        found := Some(orders[i]);
        break;
      }
      i := i + 1;
    }
    IndexOfFirstIsFirst(orders, OrderWithHex(orderId), if found.Some? then i else -1);
    if found.None? {
      return Error(404, "Order not found"), found;
    }
    response := Payload(200);
  }

  /** An order appended by checkout, under a fresh id, is the one found by the hex form of that id. */
  lemma FindsCheckedOutOrder(orders: seq<Order>, order: Order)
    requires forall j :: 0 <= j < |orders| ==> orders[j].id != order.id
    ensures var all := orders + [order]; IndexOfFirst(all, OrderWithHex(Hex(order.id))) == |orders|
  {
    var all := orders + [order];
    forall j | 0 <= j < |orders| ensures !HasHex(all[j], Hex(order.id)) {
      HexInjective(all[j].id, order.id);
    }
    IndexOfFirstIsFirst(all, OrderWithHex(Hex(order.id)), |orders|);
  }
}
