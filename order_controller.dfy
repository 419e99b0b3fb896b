/** The server-side order endpoints: placing an order (and emptying the buyer's
    cart), reading one order, and marking an order paid or delivered. The store
    maps an order id to the order record. */
module OrderController {
  import opened Common
  import CartController

  datatype OrderItem = OrderItem(name: string, qty: int, image: string, price: real, product: ProductId)

  datatype ShippingAddress = ShippingAddress(address: string, city: string, postalCode: string, country: string)

  datatype PaymentResult = PaymentResult(id: Option<string>, status: Option<string>, updateTime: Option<string>,
                                         emailAddress: Option<string>)

  datatype Order = Order(
    user: UserId, orderItems: Option<seq<OrderItem>>, shippingAddress: ShippingAddress, paymentMethod: string,
    itemsPrice: real, taxPrice: real, shippingPrice: real, totalPrice: real,
    isPaid: bool, paidAt: Option<int>, paymentResult: Option<PaymentResult>,
    isDelivered: bool, deliveredAt: Option<int>, trackingNumber: Option<string>, estimatedDelivery: Option<string>)

  /** The body of a new-order request; `orderItems` may be absent. */
  datatype OrderRequest = OrderRequest(
    orderItems: Option<seq<OrderItem>>, shippingAddress: ShippingAddress, paymentMethod: string,
    itemsPrice: real, taxPrice: real, shippingPrice: real, totalPrice: real)

  datatype Payer = Payer(emailAddress: Option<string>)

  /** The body of a payment notification; `payer` may be absent. */
  datatype PaymentRequest = PaymentRequest(id: Option<string>, status: Option<string>, updateTime: Option<string>,
                                           payer: Option<Payer>)

  datatype OrderStatus = Ok | NoOrderItems | OrderNotFound | NotAuthorized | PayerMissing | BuyerMissing

  /** The guard of `addOrderItems`: a present but empty item list. An absent list passes. */
  predicate EmptyItems(items: Option<seq<OrderItem>>)
  {
    items.Some? && |items.value| == 0
  }

  /** The order a request creates: the requester's, with the request's items,
      address, method and prices, neither paid nor delivered. */
  function NewOrder(user: UserId, req: OrderRequest): (o: Order)
    ensures o.user == user && o.orderItems == req.orderItems
    ensures o.shippingAddress == req.shippingAddress && o.paymentMethod == req.paymentMethod
    ensures o.itemsPrice == req.itemsPrice && o.taxPrice == req.taxPrice
    ensures o.shippingPrice == req.shippingPrice && o.totalPrice == req.totalPrice
    ensures !o.isPaid && !o.isDelivered && o.paymentResult == None
  {
    Order(user, req.orderItems, req.shippingAddress, req.paymentMethod,
          req.itemsPrice, req.taxPrice, req.shippingPrice, req.totalPrice,
          false, None, None, false, None, None, None)
  }

  /** Who may read an order: its owner and administrators. */
  predicate MayRead(o: Order, requester: UserId, requesterIsAdmin: bool)
  {
    o.user == requester || requesterIsAdmin
  }

  /** `updateOrderToPaid` on a request with a payer: paid now, with the payment
      details recorded, and no other field changed. */
  function MarkedPaid(o: Order, now: int, req: PaymentRequest): (r: Order)
    requires req.payer.Some?
    ensures r.isPaid && r.paidAt == Some(now)
    ensures r.paymentResult == Some(PaymentResult(req.id, req.status, req.updateTime, req.payer.value.emailAddress))
    ensures r.(isPaid := o.isPaid, paidAt := o.paidAt, paymentResult := o.paymentResult) == o
  {
    o.(isPaid := true, paidAt := Some(now),
       paymentResult := Some(PaymentResult(req.id, req.status, req.updateTime, req.payer.value.emailAddress)))
  }

  /** `updateOrderToDelivered`: delivered now; the tracking number and the
      estimated delivery are replaced only by non-empty values, and no other field
      changes. */
  function MarkedDelivered(o: Order, now: int, trackingNumber: Option<string>, estimatedDelivery: Option<string>): (r: Order)
    ensures r.isDelivered && r.deliveredAt == Some(now)
    ensures Truthy(trackingNumber) ==> r.trackingNumber == trackingNumber
    ensures !Truthy(trackingNumber) ==> r.trackingNumber == o.trackingNumber
    ensures Truthy(estimatedDelivery) ==> r.estimatedDelivery == estimatedDelivery
    ensures !Truthy(estimatedDelivery) ==> r.estimatedDelivery == o.estimatedDelivery
    ensures r.(isDelivered := o.isDelivered, deliveredAt := o.deliveredAt,
               trackingNumber := o.trackingNumber, estimatedDelivery := o.estimatedDelivery) == o
  {
    var delivered := o.(isDelivered := true, deliveredAt := Some(now));
    var tracked := if Truthy(trackingNumber) then delivered.(trackingNumber := trackingNumber) else delivered;
    if Truthy(estimatedDelivery) then tracked.(estimatedDelivery := estimatedDelivery) else tracked
  }

  /** The well-formedness every stored order keeps: its item list is not the
      empty list, and a paid or delivered order has its time stamp. */
  predicate WellFormed(o: Order)
  {
    !EmptyItems(o.orderItems) && (o.isPaid ==> o.paidAt.Some?) && (o.isDelivered ==> o.deliveredAt.Some?)
  }

  /** Marking paid or delivered keeps an order well-formed, and a paid order
      stays paid when it is delivered (and the other way round). */
  lemma MarkingKeepsWellFormed(o: Order, now: int, req: PaymentRequest, trackingNumber: Option<string>,
                               estimatedDelivery: Option<string>)
    requires WellFormed(o) && req.payer.Some?
    ensures WellFormed(MarkedPaid(o, now, req)) && WellFormed(MarkedDelivered(o, now, trackingNumber, estimatedDelivery))
    ensures MarkedDelivered(MarkedPaid(o, now, req), now, trackingNumber, estimatedDelivery).isPaid
    ensures MarkedPaid(MarkedDelivered(o, now, trackingNumber, estimatedDelivery), now, req).isDelivered
  {
    var p := MarkedPaid(o, now, req);
    assert p.orderItems == o.orderItems && p.isDelivered == o.isDelivered && p.deliveredAt == o.deliveredAt;
    var d := MarkedDelivered(o, now, trackingNumber, estimatedDelivery);
    assert d.orderItems == o.orderItems && d.isPaid == o.isPaid && d.paidAt == o.paidAt;
    var pd := MarkedDelivered(p, now, trackingNumber, estimatedDelivery);
    assert pd.isPaid == p.isPaid;
    var dp := MarkedPaid(d, now, req);
    assert dp.isDelivered == d.isDelivered;
  }

  class OrderStore {
    var orders: map<OrderId, Order>

    predicate Valid()
      reads this
    {
      forall id :: id in orders ==> WellFormed(orders[id])
    }

    constructor ()
      ensures orders == map[] && Valid()
    {
      orders := map[];
    }

    /** `addOrderItems`: refuses a present but empty item list; otherwise stores
        the new order under the store's fresh id and empties the buyer's cart, if
        the buyer has one. */
    method AddOrderItems(id: OrderId, user: UserId, req: OrderRequest, carts: CartController.CartStore) returns (status: OrderStatus)
      requires Valid() && carts.Valid() && id !in orders
      modifies this, carts
      ensures Valid() && carts.Valid()
      ensures EmptyItems(req.orderItems) ==>
        status == NoOrderItems && orders == old(orders) && carts.carts == old(carts.carts)
      ensures !EmptyItems(req.orderItems) ==>
        status == Ok && orders == old(orders)[id := NewOrder(user, req)] &&
        carts.carts == if user in old(carts.carts) then old(carts.carts)[user := []] else old(carts.carts)
    {
      if req.orderItems.Some? && |req.orderItems.value| == 0 {
        return NoOrderItems;
      }
      orders := orders[id := NewOrder(user, req)];
      var cleared := carts.ClearCart(user);
      status := Ok;
    }

    /** `getOrderById`: the order, for its owner or an administrator only. The
        owner is looked up in the user collection; `buyerExists` says whether it
        is still there. When it is not, reading the owner's id fails for every
        requester and the handler answers with an error. */
    method GetOrderById(id: OrderId, requester: UserId, requesterIsAdmin: bool, buyerExists: bool)
      returns (status: OrderStatus, order: Option<Order>)
      ensures id !in orders ==> status == OrderNotFound && order == None
      ensures id in orders && !buyerExists ==> status == BuyerMissing && order == None
      ensures id in orders && buyerExists ==> (status == Ok <==> MayRead(orders[id], requester, requesterIsAdmin))
      ensures id in orders && status == Ok ==> order == Some(orders[id])
      ensures id in orders && buyerExists && status != Ok ==> status == NotAuthorized && order == None
    {
      if id !in orders {
        return OrderNotFound, None;
      }
      var o := orders[id];
      if !buyerExists {
        return BuyerMissing, None;
      }
      if o.user != requester && !requesterIsAdmin {
        return NotAuthorized, None;
      }
      status, order := Ok, Some(o);
    }

    /** `updateOrderToPaid`: a request without a payer fails before the order is
        saved, so nothing changes. */
    method UpdateOrderToPaid(id: OrderId, now: int, req: PaymentRequest) returns (status: OrderStatus)
      requires Valid()
      modifies this
      ensures Valid()
      ensures id !in old(orders) ==> status == OrderNotFound && orders == old(orders)
      ensures id in old(orders) && req.payer.None? ==> status == PayerMissing && orders == old(orders)
      ensures id in old(orders) && req.payer.Some? ==>
        status == Ok && orders == old(orders)[id := MarkedPaid(old(orders)[id], now, req)]
    {
      if id !in orders {
        return OrderNotFound;
      }
      if req.payer.None? {
        return PayerMissing;
      }
      var o := orders[id];
      o := o.(isPaid := true);
      o := o.(paidAt := Some(now));
      o := o.(paymentResult := Some(PaymentResult(req.id, req.status, req.updateTime, req.payer.value.emailAddress)));
      orders := orders[id := o];
      status := Ok;
    }

    /** `updateOrderToDelivered`. */
    method UpdateOrderToDelivered(id: OrderId, now: int, trackingNumber: Option<string>, estimatedDelivery: Option<string>)
      returns (status: OrderStatus)
      requires Valid()
      modifies this
      ensures Valid()
      ensures id !in old(orders) ==> status == OrderNotFound && orders == old(orders)
      ensures id in old(orders) ==>
        status == Ok && orders == old(orders)[id := MarkedDelivered(old(orders)[id], now, trackingNumber, estimatedDelivery)]
    {
      if id !in orders {
        return OrderNotFound;
      }
      var o := orders[id];
      o := o.(isDelivered := true);
      o := o.(deliveredAt := Some(now));
      if Truthy(trackingNumber) {
        o := o.(trackingNumber := trackingNumber);
      }
      if Truthy(estimatedDelivery) {
        o := o.(estimatedDelivery := estimatedDelivery);
      }
      orders := orders[id := o];
      status := Ok;
    }
  }
}
