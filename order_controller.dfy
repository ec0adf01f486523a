/** The order lifecycle: checkout with a cash or an online payment path,
    payment confirmation, owner and admin access, and cancellation with its
    compensating stock restore. Calls to the payment provider are inputs. */
module OrderController {
  import opened Common
  import opened Inventory
  import opened OrderModel

  /** What an order handler answers; the error kinds stand for the 400, 403
      and 404 replies. */
  datatype OrderOutcome =
    | Created(id: OrderId, checkoutUrl: Option<string>)
    | Confirmed(id: OrderId)
    | Found(order: Order)
    | Updated(order: Order)
    | CancelledOrder(id: OrderId, refundRequested: bool)
    | BadRequest
    | PaymentIncomplete
    | NotFound
    | Forbidden
    | InvalidState

  /** Some stored order carries checkout session `sid`. */
  predicate HasSession(orders: map<OrderId, Order>, sid: string)
  {
    exists id :: id in orders && orders[id].sessionId == Some(sid)
  }

  class OrderBook {
    /** The item collection whose stock the lifecycle adjusts. */
    const store: ItemStore
    /** Every order ever placed; orders are never deleted. */
    var orders: map<OrderId, Order>
    /** Ids at or above this one have never been handed out. */
    var nextOrderId: OrderId

    ghost predicate Valid()
      reads this
    {
      forall id :: id in orders ==> id < nextOrderId
    }

    constructor (store: ItemStore)
      ensures Valid()
      ensures this.store == store && orders == map[] && nextOrderId == 0
    {
      this.store := store;
      orders := map[];
      nextOrderId := 0;
    }

    /** The decrement loop: for each line with an id, re-read the item and
        lower its stock by the line's quantity, never below 0. */
    method TakeStock(lines: seq<OrderLine>)
      modifies store
      ensures store.stock == Take(old(store.stock), lines)
    {
      var i := 0;
      while i < |lines|
        invariant 0 <= i <= |lines|
        invariant Take(store.stock, lines[i..]) == Take(old(store.stock), lines)
      {
        var line := lines[i];
        if line.itemId.Some? && line.itemId.value in store.stock {
          var id := line.itemId.value;
          store.stock := store.stock[id := Max(0, store.stock[id] - line.quantity)];
        }
        assert lines[i..][1..] == lines[i + 1..];
        i := i + 1;
      }
    }

    /** The restore loop of cancellation: add each line's quantity back. */
    method RestoreStock(lines: seq<OrderLine>)
      modifies store
      ensures store.stock == Restore(old(store.stock), lines)
    {
      var i := 0;
      while i < |lines|
        invariant 0 <= i <= |lines|
        invariant Restore(store.stock, lines[i..]) == Restore(old(store.stock), lines)
      {
        var line := lines[i];
        if line.itemId.Some? && line.itemId.value in store.stock {
          var id := line.itemId.value;
          store.stock := store.stock[id := store.stock[id] + line.quantity];
        }
        assert lines[i..][1..] == lines[i + 1..];
        i := i + 1;
      }
    }

    /** POST /api/orders. `session` is the provider's answer to opening a
        hosted checkout; it is used only on the online path. */
    method CreateOrder(user: UserId, req: OrderRequest, session: CheckoutSession) returns (r: OrderOutcome)
      requires Valid()
      modifies this, store
      ensures Valid()
      ensures req.items.None? || req.items.value == [] ==>
        && r == BadRequest
        && orders == old(orders) && nextOrderId == old(nextOrderId) && store.stock == old(store.stock)
      ensures req.items.Some? && req.items.value != [] ==>
        var id, lines, online := old(nextOrderId), NormaliseLines(req.items.value), IsOnline(req.paymentMethod);
        && r == Created(id, if online then Some(session.url) else None)
        && id !in old(orders)
        && orders == old(orders)[id := PlacedOrder(user, req, lines, session)]
        && orders[id].user == user
        && orders[id].items == lines
        && |lines| == |req.items.value|
        && orders[id].paymentStatus == (if online then PaymentPending else PaymentSucceeded)
        && orders[id].sessionId == (if online then Some(session.id) else None)
        && Cancellable(orders[id])
        && store.stock == (if online then old(store.stock) else Take(old(store.stock), lines))
    {
      if req.items.None? || req.items.value == [] {
        return BadRequest;
      }
      var lines := NormaliseLines(req.items.value);
      var online := IsOnline(req.paymentMethod);
      if !online {
        TakeStock(lines);
      }
      var id := nextOrderId;
      orders := orders[id := PlacedOrder(user, req, lines, session)];
      nextOrderId := nextOrderId + 1;
      r := Created(id, if online then Some(session.url) else None);
    }

    /** GET /api/orders/confirm. `paid` is whether the provider reports the
        session as paid. A repeated call decrements the stock again. */
    method ConfirmPayment(sessionId: Option<string>, paid: bool) returns (r: OrderOutcome)
      requires Valid()
      modifies this, store
      ensures Valid() && nextOrderId == old(nextOrderId)
      ensures !Truthy(sessionId) ==> r == BadRequest
      ensures Truthy(sessionId) && !paid ==> r == PaymentIncomplete
      ensures Truthy(sessionId) && paid && !HasSession(old(orders), sessionId.value) ==> r == NotFound
      ensures Truthy(sessionId) && paid && HasSession(old(orders), sessionId.value) ==> r.Confirmed?
      ensures !r.Confirmed? ==> orders == old(orders) && store.stock == old(store.stock)
      ensures r.Confirmed? ==>
        && r.id in old(orders)
        && old(orders)[r.id].sessionId == sessionId
        && orders == old(orders)[r.id := old(orders)[r.id].(paymentStatus := PaymentSucceeded)]
        && store.stock == Take(old(store.stock), old(orders)[r.id].items)
    {
      if !Truthy(sessionId) {
        return BadRequest;
      }
      if !paid {
        return PaymentIncomplete;
      }
      var sid := sessionId.value;
      if !HasSession(orders, sid) {
        return NotFound;
      }
      var id :| id in orders && orders[id].sessionId == Some(sid);
      orders := orders[id := orders[id].(paymentStatus := PaymentSucceeded)];
      TakeStock(orders[id].items);
      r := Confirmed(id);
    }

    /** GET /api/orders: the caller's orders, formatted for the storefront. */
    method GetOrders(user: UserId, host: string) returns (r: map<OrderId, UserOrderView>)
      ensures forall id :: id in r <==> id in orders && orders[id].user == user
      ensures forall id :: id in r ==> r[id] == UserView(orders[id], host)
    {
      r := map id | id in orders && orders[id].user == user :: UserView(orders[id], host);
    }

    /** GET /api/orders/getall (admin): every order, formatted for the panel. */
    method GetAllOrders() returns (r: map<OrderId, AdminOrderView>)
      ensures r.Keys == orders.Keys
      ensures forall id :: id in r ==> r[id] == AdminView(id, orders[id])
    {
      r := map id | id in orders :: AdminView(id, orders[id]);
    }

    /** GET /api/orders/:id: only the owner, and only with the order's email
        when the query names one. */
    method GetOrderById(user: UserId, id: OrderId, email: Option<string>) returns (r: OrderOutcome)
      ensures id !in orders ==> r == NotFound
      ensures id in orders && orders[id].user != user ==> r == Forbidden
      ensures r.Found? <==> id in orders && orders[id].user == user && (Truthy(email) ==> orders[id].contact.email == email)
      ensures r.Found? ==> r.order == orders[id]
      ensures r == NotFound || r == Forbidden || r.Found?
    {
      if id !in orders {
        return NotFound;
      }
      if orders[id].user != user {
        return Forbidden;
      }
      if Truthy(email) && orders[id].contact.email != email {
        return Forbidden;
      }
      r := Found(orders[id]);
    }

    /** PUT /api/orders/:id: the same ownership checks, then the body is
        written over the stored order. */
    method UpdateOrder(user: UserId, id: OrderId, patch: OrderPatch) returns (r: OrderOutcome)
      requires Valid()
      modifies this
      ensures Valid() && nextOrderId == old(nextOrderId)
      ensures id !in old(orders) ==> r == NotFound
      ensures id in old(orders) && old(orders)[id].user != user ==> r == Forbidden
      ensures r.Updated? <==>
        && id in old(orders) && old(orders)[id].user == user
        && (Truthy(patch.contact.email) ==> old(orders)[id].contact.email == patch.contact.email)
      ensures r.Updated? ==>
        && r.order == ApplyPatch(old(orders)[id], patch)
        && orders == old(orders)[id := r.order]
      ensures !r.Updated? ==> orders == old(orders)
    {
      if id !in orders {
        return NotFound;
      }
      if orders[id].user != user {
        return Forbidden;
      }
      if Truthy(patch.contact.email) && orders[id].contact.email != patch.contact.email {
        return Forbidden;
      }
      var updated := ApplyPatch(orders[id], patch);
      orders := orders[id := updated];
      r := Updated(updated);
    }

    /** PUT /api/orders/getall/:id (admin): no ownership check. */
    method UpdateAnyOrder(id: OrderId, patch: OrderPatch) returns (r: OrderOutcome)
      requires Valid()
      modifies this
      ensures Valid() && nextOrderId == old(nextOrderId)
      ensures if id in old(orders)
        then r == Updated(ApplyPatch(old(orders)[id], patch)) && orders == old(orders)[id := r.order]
        else r == NotFound && orders == old(orders)
    {
      if id !in orders {
        return NotFound;
      }
      var updated := ApplyPatch(orders[id], patch);
      orders := orders[id := updated];
      r := Updated(updated);
    }

    /** The part of cancellation shared by the owner and the admin route.
        `refundFails` is the provider's answer to a refund request: a failure
        is only logged, so nothing depends on it. */
    method Cancel(id: OrderId, refundFails: bool) returns (r: OrderOutcome)
      requires Valid() && id in orders
      modifies this, store
      ensures Valid() && nextOrderId == old(nextOrderId)
      ensures var o := old(orders)[id];
        if Cancellable(o) then
          && r == CancelledOrder(id, RefundDue(o))
          && orders == old(orders)[id := o.(status := StatusCancelled)]
          && store.stock == Restore(old(store.stock), o.items)
        else
          r == InvalidState && orders == old(orders) && store.stock == old(store.stock)
    {
      var o := orders[id];
      if o.status == StatusCancelled || o.status == StatusDelivered {
        return InvalidState;
      }
      var refundRequested := RefundDue(o);
      RestoreStock(o.items);
      orders := orders[id := o.(status := StatusCancelled)];
      r := CancelledOrder(id, refundRequested);
    }

    /** `cancelOrder`, which no route reaches: the owner cancels; stock is restored
        even for an online order whose payment never went through. */
    method CancelOrder(user: UserId, id: OrderId, refundFails: bool) returns (r: OrderOutcome)
      requires Valid()
      modifies this, store
      ensures Valid() && nextOrderId == old(nextOrderId)
      ensures id !in old(orders) ==> r == NotFound
      ensures id in old(orders) && old(orders)[id].user != user ==> r == Forbidden
      ensures id in old(orders) && old(orders)[id].user == user ==>
        if Cancellable(old(orders)[id]) then r == CancelledOrder(id, RefundDue(old(orders)[id])) else r == InvalidState
      ensures !r.CancelledOrder? ==> orders == old(orders) && store.stock == old(store.stock)
      ensures r.CancelledOrder? ==>
        && id in old(orders) && old(orders)[id].user == user
        && orders == old(orders)[id := old(orders)[id].(status := StatusCancelled)]
        && store.stock == Restore(old(store.stock), old(orders)[id].items)
    {
      if id !in orders {
        return NotFound;
      }
      if orders[id].user != user {
        return Forbidden;
      }
      r := Cancel(id, refundFails);
    }

    /** `cancelOrderAdmin`, which no route reaches: as CancelOrder, without
        the ownership check. */
    method CancelOrderAdmin(id: OrderId, refundFails: bool) returns (r: OrderOutcome)
      requires Valid()
      modifies this, store
      ensures Valid() && nextOrderId == old(nextOrderId)
      ensures id !in old(orders) ==> r == NotFound
      ensures id in old(orders) ==>
        if Cancellable(old(orders)[id]) then r == CancelledOrder(id, RefundDue(old(orders)[id])) else r == InvalidState
      ensures !r.CancelledOrder? ==> orders == old(orders) && store.stock == old(store.stock)
      ensures r.CancelledOrder? ==>
        && id in old(orders)
        && orders == old(orders)[id := old(orders)[id].(status := StatusCancelled)]
        && store.stock == Restore(old(store.stock), old(orders)[id].items)
    {
      if id !in orders {
        return NotFound;
      }
      r := Cancel(id, refundFails);
    }
  }
}
