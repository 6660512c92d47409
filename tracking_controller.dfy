/** The second set of tracking handlers: a customer's tracking view of the
    order for one product, and a status overwrite that skips the checks of
    `updateTrackingStatusController`. */
module TrackingController {
  import opened Common
  import opened OrderModel
  import opened OrderController

  /** The fields `getOrderTrackingController` replies with. */
  datatype TrackingView = TrackingView(
    orderId: string,
    productDetails: ProductDetails,
    trackingStatus: TrackingStatus,
    deliveryAddress: ObjectId,
    updatedAt: Time)

  /** `getOrderTrackingController`: `productId` is None when the body has none. */
  function GetOrderTracking(orders: seq<Order>, userId: ObjectId, productId: Option<ObjectId>): (r: Outcome<TrackingView>)
    ensures productId.None? ==> r == Failure(400, "Provide productId")
    ensures productId.Some? && (forall i :: 0 <= i < |orders| ==>
                                  !(orders[i].userId == userId && orders[i].productId == productId.value)) ==>
              r == Failure(404, "No order found for this product and user")
    ensures r.Success? ==>
              exists i :: && 0 <= i < |orders|
                          && orders[i].userId == userId && orders[i].productId == productId.value
                          && (forall j :: 0 <= j < i ==> !(orders[j].userId == userId && orders[j].productId == productId.value))
                          && r.data == TrackingView(orders[i].orderId, orders[i].productDetails, orders[i].trackingStatus,
                                                    orders[i].deliveryAddress, orders[i].updatedAt)
    ensures productId.Some? ==>
              ((exists i :: 0 <= i < |orders| && orders[i].userId == userId && orders[i].productId == productId.value)
               ==> r.Success?)
  {
    if productId.None? then Failure(400, "Provide productId")
    else match FindOne(orders, ByUserAndProduct(userId, productId.value))
      case None => Failure(404, "No order found for this product and user")
      case Some(i) =>
        var o := orders[i];
        Success(TrackingView(o.orderId, o.productDetails, o.trackingStatus, o.deliveryAddress, o.updatedAt))
  }

  /** The fields `updateOrderTrackingController` replies with. */
  datatype StatusView = StatusView(orderId: string, trackingStatus: TrackingStatus, updatedAt: Time)

  /** `updateOrderTrackingController`: the reply and the collection after
      `findOneAndUpdate({ orderId, userId }, { tracking_status })`. */
  function OverwriteIn(orders: seq<Order>, userId: ObjectId, orderId: string, status: string, now: Time)
    : (a: (Outcome<StatusView>, seq<Order>))
    ensures |a.1| == |orders|
    ensures (orderId == "" || status == "") ==> a.0 == Failure(400, "Provide orderId and tracking_status")
    ensures orderId != "" && status != "" && (ParseStatus(status).None? || ParseStatus(status) == Some(Cancelled)) ==>
              a.0 == Failure(400, "Invalid tracking status")
    ensures a.0.Failure? ==> a.1 == orders
    ensures a.0.Success? <==> && orderId != "" && ParseStatus(status).Some? && ParseStatus(status).value in Steps
                              && exists i :: 0 <= i < |orders| && orders[i].orderId == orderId && orders[i].userId == userId
    ensures a.0.Success? ==> exists i :: && 0 <= i < |orders| && orders[i].orderId == orderId && orders[i].userId == userId
                                        && a.1 == orders[i := orders[i].(trackingStatus := ParseStatus(status).value,
                                                                         updatedAt := now)]
                                        && a.0.data == StatusView(orderId, ParseStatus(status).value, now)
  {
    if orderId == "" || status == "" then (Failure(400, "Provide orderId and tracking_status"), orders)
    else
      var parsed := ParseStatus(status);
      if parsed.None? || parsed.value !in Steps then (Failure(400, "Invalid tracking status"), orders)
      else match FindOne(orders, ByIdAndUser(orderId, userId))
        case None => (Failure(404, "Order not found"), orders)
        case Some(i) =>
          var updated := orders[i].(trackingStatus := parsed.value, updatedAt := now);
          (Success(StatusView(updated.orderId, updated.trackingStatus, updated.updatedAt)), orders[i := updated])
  }

  /** `updateOrderTrackingController` on the store: it keeps the ids well
      formed, but not the agreement of `isCancelled` with the status. */
  method UpdateOrderTracking(store: OrderStore, userId: ObjectId, orderId: string, status: string, now: Time)
    returns (r: Outcome<StatusView>)
    requires store.WellFormed()
    modifies store`orders
    ensures store.WellFormed()
    ensures (r, store.orders) == OverwriteIn(old(store.orders), userId, orderId, status, now)
  {
    var a := OverwriteIn(store.orders, userId, orderId, status, now);
    assert forall i :: 0 <= i < |store.orders| ==> a.1[i].orderId == store.orders[i].orderId;
    r := a.0;
    store.orders := a.1;
  }

  /** The overwrite moves a cancelled order to Delivered: the order is no
      longer consistent, and the statistics then report one received order
      fewer than none. */
  lemma OverwriteBreaksStatistics(input: OrderInput, userId: ObjectId, now: Time)
    requires input.orderId != "" && input.userId == userId
    ensures var o := NewOrder(input, now);
      var c := CancelOrder(input.orderId, "changed my mind", Some(o), now).data;
      var a := OverwriteIn([c], userId, input.orderId, "Delivered", now);
      && a.0.Success? && !Consistent(a.1[0])
      && OrderStatsOf(a.1, []).receivedOrders == -1
  {
    var o := NewOrder(input, now);
    var c := CancelOrder(input.orderId, "changed my mind", Some(o), now).data;
    assert c.isCancelled && !c.isDeleted && c.orderId == input.orderId && c.userId == userId;
    var a := OverwriteIn([c], userId, input.orderId, "Delivered", now);
    assert a.1 == [c.(trackingStatus := Delivered, updatedAt := now)];
    CancelledDeliveredCountsTwice(a.1[0]);
  }

  /** A live order both cancelled and Delivered is counted as cancelled and
      as delivered. */
  lemma CancelledDeliveredCountsTwice(o: Order)
    requires o.isCancelled && o.trackingStatus == Delivered && !o.isDeleted
    ensures OrderStatsOf([o], []).receivedOrders == -1
  {
    assert [o][1..] == [];
  }
}
