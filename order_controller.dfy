/** The order handlers: discount pricing, the order documents a cart list turns
    into (cash on delivery and online checkout), the guard chains of cancel,
    tracking update and soft delete, the listings and the statistics.  The
    order collection, the cart rows and the users' `shopping_cart` arrays are
    the state of `OrderStore`; the guard chains themselves are functions of the
    document the handler looked up. */
module OrderController {
  import opened Common
  import opened OrderModel

  // ---------------------------------------------------------------------------
  // Pricing

  /** A product as populated into a cart line. */
  datatype Product = Product(id: ObjectId, name: string, image: seq<string>, price: int, discount: Option<int>)

  /** One element of `list_items`: the populated product and the quantity. */
  datatype CartLine = CartLine(product: Product, quantity: int)

  /** A document of the cartProduct collection. */
  datatype CartRow = CartRow(productId: ObjectId, quantity: int, userId: ObjectId)

  /** `Math.ceil(x / 100)` on an integer. */
  function CeilDiv100(x: int): (q: int)
    ensures 100 * q - 100 < x <= 100 * q
  {
    (x + 99) / 100
  }

  /** `pricewithDiscount(price, dis = 0)`: the price less the discount amount
      rounded up to a whole unit; the discount amount `price - r` is the least
      integer not below `price * dis / 100`. */
  function PriceWithDiscount(price: int, dis: Option<int>): (r: int)
    ensures var d := dis.GetOr(0); price * d <= 100 * (price - r) < price * d + 100
  {
    price - CeilDiv100(price * dis.GetOr(0))
  }

  lemma DiscountBounds(price: int, dis: Option<int>)
    requires 0 <= price
    requires dis.Some? ==> 0 <= dis.value <= 100
    ensures 0 <= PriceWithDiscount(price, dis) <= price
    ensures dis.None? ==> PriceWithDiscount(price, dis) == price
    ensures dis == Some(100) ==> PriceWithDiscount(price, dis) == 0
  {
    var d := dis.GetOr(0);
    assert 0 <= price * d;
    assert price * 100 - price * d == price * (100 - d) >= 0;
  }

  /** `productPrice * el.quantity`. */
  function LineTotal(line: CartLine): int {
    PriceWithDiscount(line.product.price, line.product.discount) * line.quantity
  }

  /** `list_items.reduce((sum, item) => sum + price * item.quantity, 0)`. */
  function CartTotal(lines: seq<CartLine>): int
    decreases |lines|
  {
    if |lines| == 0 then 0 else CartTotal(lines[..|lines| - 1]) + LineTotal(lines[|lines| - 1])
  }

  /** The cart total is the sum of the line totals, whichever end it is
      taken from: the first line's total plus the rest's. */
  lemma {:induction false} CartTotalFromFirstLine(lines: seq<CartLine>)
    requires |lines| > 0
    ensures CartTotal(lines) == LineTotal(lines[0]) + CartTotal(lines[1..])
    decreases |lines|
  {
    var n := |lines| - 1;
    if n > 0 {
      CartTotalFromFirstLine(lines[..n]);
      assert lines[..n][1..] == lines[1..][..n - 1];
    }
  }

  // ---------------------------------------------------------------------------
  // Order payloads

  /** `ORD-${new mongoose.Types.ObjectId()}` for the ObjectId numbered `key`. */
  function OrderIdFor(key: ObjectId): string {
    "ORD-" + HexNumeral(key)
  }

  lemma OrderIdInjective(a: ObjectId, b: ObjectId)
    requires OrderIdFor(a) == OrderIdFor(b)
    ensures a == b
  {
    assert OrderIdFor(a)[4..] == HexNumeral(a);
    assert OrderIdFor(b)[4..] == HexNumeral(b);
    HexNumeralInjective(a, b);
  }

  /** The document the `list_items.map` callback builds for one line. */
  function OrderInputFor(userId: ObjectId, line: CartLine, addressId: ObjectId,
                         paymentId: string, paymentStatus: string, key: ObjectId): OrderInput
  {
    OrderInput(
      userId := userId,
      orderId := OrderIdFor(key),
      productId := line.product.id,
      productDetails := ProductDetails(line.product.name, line.product.image),
      quantity := Some(line.quantity),
      paymentId := Some(paymentId),
      paymentStatus := Some(paymentStatus),
      deliveryAddress := addressId,
      subTotalAmt := Some(LineTotal(line)),
      totalAmt := Some(LineTotal(line)))
  }

  /** The payload: one document per line, the i-th drawing the ObjectId
      `firstKey + i`. */
  function Payload(userId: ObjectId, lines: seq<CartLine>, addressId: ObjectId,
                   paymentId: string, paymentStatus: string, firstKey: ObjectId): seq<OrderInput>
  {
    seq(|lines|, i requires 0 <= i < |lines| =>
      OrderInputFor(userId, lines[i], addressId, paymentId, paymentStatus, firstKey + i))
  }

  /** `insertMany(payload)`: the stored documents, all stamped `now`. */
  function Inserted(inputs: seq<OrderInput>, now: Time): seq<Order> {
    seq(|inputs|, i requires 0 <= i < |inputs| => NewOrder(inputs[i], now))
  }

  /** The orders one cart list places: one per line, in line order, each with
      its own id, the line's discounted total as both amounts, and the
      lifecycle defaults. */
  lemma PlacedOrders(userId: ObjectId, lines: seq<CartLine>, addressId: ObjectId,
                     paymentId: string, paymentStatus: string, firstKey: ObjectId, now: Time)
    ensures var placed := Inserted(Payload(userId, lines, addressId, paymentId, paymentStatus, firstKey), now);
      && |placed| == |lines|
      && (forall i :: 0 <= i < |lines| ==>
            && placed[i].orderId == OrderIdFor(firstKey + i)
            && placed[i].userId == userId && placed[i].productId == lines[i].product.id
            && placed[i].quantity == lines[i].quantity
            && placed[i].subTotalAmt == placed[i].totalAmt == LineTotal(lines[i])
            && placed[i].paymentId == paymentId && placed[i].paymentStatus == paymentStatus
            && placed[i].deliveryAddress == addressId
            && Untouched(placed[i]) && Consistent(placed[i]))
      && (forall i, j :: 0 <= i < j < |lines| ==> placed[i].orderId != placed[j].orderId)
  {
    var placed := Inserted(Payload(userId, lines, addressId, paymentId, paymentStatus, firstKey), now);
    forall i, j | 0 <= i < j < |lines| ensures placed[i].orderId != placed[j].orderId {
      if placed[i].orderId == placed[j].orderId {
        OrderIdInjective(firstKey + i, firstKey + j);
      }
    }
  }

  /** The sum of the stored `totalAmt`s, added up the way the quote's
      `reduce` adds the lines. */
  function SumTotalAmt(orders: seq<Order>): int
    decreases |orders|
  {
    if |orders| == 0 then 0 else SumTotalAmt(orders[..|orders| - 1]) + orders[|orders| - 1].totalAmt
  }

  /** The orders placed from a cart list add up to the same total the checkout
      quote is computed from. */
  lemma {:induction false} StoredTotalsMatchQuote(userId: ObjectId, lines: seq<CartLine>, addressId: ObjectId,
                                                  paymentId: string, paymentStatus: string,
                                                  firstKey: ObjectId, now: Time)
    ensures SumTotalAmt(Inserted(Payload(userId, lines, addressId, paymentId, paymentStatus, firstKey), now))
            == CartTotal(lines)
    decreases |lines|
  {
    var placed := Inserted(Payload(userId, lines, addressId, paymentId, paymentStatus, firstKey), now);
    if |lines| > 0 {
      var n := |lines| - 1;
      StoredTotalsMatchQuote(userId, lines[..n], addressId, paymentId, paymentStatus, firstKey, now);
      assert placed[..n] == Inserted(Payload(userId, lines[..n], addressId, paymentId, paymentStatus, firstKey), now);
      assert placed[n].totalAmt == LineTotal(lines[n]);
    }
  }

  /** `CartProductModel.deleteMany({ userId })`: the rows of other users, in order. */
  function RowsNotOf(rows: seq<CartRow>, userId: ObjectId): (r: seq<CartRow>)
    ensures forall x :: x in r <==> x in rows && x.userId != userId
    decreases |rows|
  {
    if |rows| == 0 then []
    else if rows[0].userId == userId then RowsNotOf(rows[1..], userId)
    else [rows[0]] + RowsNotOf(rows[1..], userId)
  }

  /** `UserModel.updateOne({ _id: userId }, { shopping_cart: [] })`. */
  function EmptyCart(carts: map<ObjectId, seq<ObjectId>>, userId: ObjectId): (r: map<ObjectId, seq<ObjectId>>)
    ensures r.Keys == carts.Keys
    ensures userId in r ==> r[userId] == []
    ensures forall u :: u in carts && u != userId ==> r[u] == carts[u]
  {
    if userId in carts then carts[userId := []] else carts
  }

  // ---------------------------------------------------------------------------
  // The guard chains, on the document the handler looked up

  predicate StatusIsShippedOrDelivered(o: Order) {
    o.trackingStatus == Shipped || o.trackingStatus == Delivered
  }

  /** The fields of `o` and `p` agree except perhaps the four a cancellation
      writes and the update time. */
  predicate SameButCancellation(o: Order, p: Order) {
    o.(isCancelled := p.isCancelled, cancellationReason := p.cancellationReason,
       cancellationDate := p.cancellationDate, trackingStatus := p.trackingStatus,
       updatedAt := p.updatedAt) == p
  }

  /** `cancelOrderController` once `findOne({ orderId, userId })` returned `found`. */
  function CancelOrder(orderId: string, reason: string, found: Option<Order>, now: Time): (r: Outcome<Order>)
    ensures (orderId == "" || reason == "") ==> r == Failure(400, "Provide orderId and cancellationReason")
    ensures orderId != "" && reason != "" && found.None? ==> r == Failure(404, "Order not found")
    ensures orderId != "" && reason != "" && found.Some? && found.value.isCancelled ==>
              r == Failure(400, "Order is already cancelled")
    ensures orderId != "" && reason != "" && found.Some? && !found.value.isCancelled
            && StatusIsShippedOrDelivered(found.value) ==>
              r == Failure(400, "Cannot cancel order that is Shipped or Delivered")
    ensures r.Success? <==> orderId != "" && reason != "" && found.Some? && !found.value.isCancelled
                            && !StatusIsShippedOrDelivered(found.value)
    ensures r.Success? ==> && r.data.isCancelled && r.data.trackingStatus == Cancelled
                           && r.data.cancellationReason == reason && r.data.cancellationDate == Some(now)
                           && r.data.updatedAt == now
                           && SameButCancellation(r.data, found.value)
  {
    if orderId == "" || reason == "" then Failure(400, "Provide orderId and cancellationReason")
    else if found.None? then Failure(404, "Order not found")
    else
      var o := found.value;
      if o.isCancelled then Failure(400, "Order is already cancelled")
      else if o.trackingStatus == Shipped || o.trackingStatus == Delivered then
        Failure(400, "Cannot cancel order that is Shipped or Delivered")
      else
        Success(o.(isCancelled := true, cancellationReason := reason, cancellationDate := Some(now),
                   trackingStatus := Cancelled, updatedAt := now))
  }

  /** The `statusOrder` check: from Pending anything goes, otherwise only a
      strictly later step. */
  predicate MayMove(from: TrackingStatus, to: TrackingStatus) {
    !(StepIndex(to) <= StepIndex(from) && from != Pending)
  }

  /** The update `findOneAndUpdate` applies: the new status, and one history
      entry pushed at the end. */
  function WithTracking(o: Order, target: TrackingStatus, caller: ObjectId, now: Time): Order {
    o.(trackingStatus := target,
       trackingHistory := o.trackingHistory + [HistoryEntry(target, now, caller)],
       updatedAt := now)
  }

  /** `updateTrackingStatusController` once `findOne({ orderId, isDeleted: false })`
      returned `found`. */
  function UpdateTracking(orderId: string, status: string, found: Option<Order>, caller: ObjectId, now: Time)
    : (r: Outcome<Order>)
    ensures (orderId == "" || status == "") ==> r == Failure(400, "Provide orderId and tracking_status")
    ensures orderId != "" && status != "" && (ParseStatus(status).None? || ParseStatus(status) == Some(Cancelled)) ==>
              r == Failure(400, "Invalid tracking status")
    ensures orderId != "" && ParseStatus(status).Some? && ParseStatus(status).value in Steps && found.None? ==>
              r == Failure(404, "Order not found")
    ensures orderId != "" && ParseStatus(status).Some? && ParseStatus(status).value in Steps && found.Some?
            && found.value.isCancelled ==>
              r == Failure(400, "Cannot update tracking for cancelled order")
    ensures orderId != "" && ParseStatus(status).Some? && ParseStatus(status).value in Steps && found.Some?
            && !found.value.isCancelled && !MayMove(found.value.trackingStatus, ParseStatus(status).value) ==>
              r == Failure(400, "Cannot revert to a previous tracking status")
    ensures r.Success? <==> && orderId != "" && ParseStatus(status).Some? && ParseStatus(status).value in Steps
                            && found.Some? && !found.value.isCancelled
                            && MayMove(found.value.trackingStatus, ParseStatus(status).value)
    ensures r.Success? ==> var o := found.value; var t := ParseStatus(status).value;
              && r.data.trackingStatus == t && StatusName(t) == status && r.data.updatedAt == now
              && r.data.trackingHistory == o.trackingHistory + [HistoryEntry(t, now, caller)]
              && r.data.(trackingStatus := o.trackingStatus, trackingHistory := o.trackingHistory,
                         updatedAt := o.updatedAt) == o
  {
    if orderId == "" || status == "" then Failure(400, "Provide orderId and tracking_status")
    else
      var parsed := ParseStatus(status);
      if parsed.None? || parsed.value !in Steps then Failure(400, "Invalid tracking status")
      else if found.None? then Failure(404, "Order not found")
      else
        var o := found.value;
        if o.isCancelled then Failure(400, "Cannot update tracking for cancelled order")
        else if StepIndex(parsed.value) <= StepIndex(o.trackingStatus) && o.trackingStatus != Pending then
          Failure(400, "Cannot revert to a previous tracking status")
        else Success(WithTracking(o, parsed.value, caller, now))
  }

  /** `deleteOrderController` once `findOne({ orderId, isDeleted: false })`
      returned `found`. */
  function SoftDelete(orderId: string, found: Option<Order>, now: Time): (r: Outcome<Order>)
    ensures orderId == "" ==> r == Failure(400, "Provide orderId")
    ensures orderId != "" && found.None? ==> r == Failure(404, "Order not found")
    ensures orderId != "" && found.Some? && found.value.trackingStatus == Delivered ==>
              r == Failure(400, "Cannot delete a delivered order")
    ensures r.Success? <==> orderId != "" && found.Some? && found.value.trackingStatus != Delivered
    ensures r.Success? ==> r.data.isDeleted && r.data.(isDeleted := found.value.isDeleted, updatedAt := found.value.updatedAt)
                                               == found.value
  {
    if orderId == "" then Failure(400, "Provide orderId")
    else if found.None? then Failure(404, "Order not found")
    else if found.value.trackingStatus == Delivered then Failure(400, "Cannot delete a delivered order")
    else Success(found.value.(isDeleted := true, updatedAt := now))
  }

  // ---------------------------------------------------------------------------
  // Properties of the guard chains

  /** From Pending every step is accepted, Pending itself included; from a later
      step only a strictly later one; Delivered accepts none, and Cancelled is
      never a target. */
  lemma TrackingOrder(o: Order, orderId: string, t: TrackingStatus, caller: ObjectId, now: Time)
    requires orderId != "" && !o.isCancelled && Consistent(o)
    ensures var r := UpdateTracking(orderId, StatusName(t), Some(o), caller, now);
      && (t == Cancelled ==> r.Failure?)
      && (o.trackingStatus == Pending && t != Cancelled ==> r.Success?)
      && (o.trackingStatus != Pending && t != Cancelled ==> (r.Success? <==> StepIndex(t) > StepIndex(o.trackingStatus)))
      && (o.trackingStatus == Delivered ==> r.Failure?)
  {
    ParseStatusName(t);
  }

  /** A Delivered order is final: no cancel, tracking update or delete
      succeeds on it. */
  lemma DeliveredIsFinal(o: Order, orderId: string, reason: string, status: string, caller: ObjectId, now: Time)
    requires o.trackingStatus == Delivered
    ensures CancelOrder(orderId, reason, Some(o), now).Failure?
    ensures UpdateTracking(orderId, status, Some(o), caller, now).Failure?
    ensures SoftDelete(orderId, Some(o), now).Failure?
  {
    if ParseStatus(status).Some? {
      assert StepIndex(ParseStatus(status).value) <= 3;
    }
  }

  /** A cancelled order cannot be cancelled again. */
  lemma CancelTwiceFails(o: Order, orderId: string, reason: string, reason2: string, now: Time, later: Time)
    requires CancelOrder(orderId, reason, Some(o), now).Success?
    ensures var c := CancelOrder(orderId, reason, Some(o), now).data;
      CancelOrder(orderId, reason2, Some(c), later) ==
        (if reason2 == "" then Failure(400, "Provide orderId and cancellationReason")
         else Failure(400, "Order is already cancelled"))
  {
  }

  /** Each of the three updates keeps `isCancelled` in step with the status. */
  lemma DecisionsKeepConsistent(o: Order, orderId: string, reason: string, status: string, caller: ObjectId, now: Time)
    requires Consistent(o)
    ensures var r := CancelOrder(orderId, reason, Some(o), now); r.Success? ==> Consistent(r.data)
    ensures var r := UpdateTracking(orderId, status, Some(o), caller, now); r.Success? ==> Consistent(r.data)
    ensures var r := SoftDelete(orderId, Some(o), now); r.Success? ==> Consistent(r.data)
  {
  }

  /** While an order is not cancelled, its status is the status of its last
      history entry, or Pending before the first one. */
  predicate StatusFollowsHistory(o: Order) {
    !o.isCancelled ==>
      o.trackingStatus == (if |o.trackingHistory| == 0 then Pending
                           else o.trackingHistory[|o.trackingHistory| - 1].status)
  }

  lemma DecisionsKeepHistory(o: Order, orderId: string, reason: string, status: string, caller: ObjectId, now: Time)
    requires StatusFollowsHistory(o)
    ensures var r := CancelOrder(orderId, reason, Some(o), now);
      r.Success? ==> StatusFollowsHistory(r.data) && r.data.trackingHistory == o.trackingHistory
    ensures var r := UpdateTracking(orderId, status, Some(o), caller, now);
      r.Success? ==> StatusFollowsHistory(r.data) && o.trackingHistory < r.data.trackingHistory
                     && |r.data.trackingHistory| == |o.trackingHistory| + 1
    ensures var r := SoftDelete(orderId, Some(o), now);
      r.Success? ==> StatusFollowsHistory(r.data) && r.data.trackingHistory == o.trackingHistory
  {
    var r := UpdateTracking(orderId, status, Some(o), caller, now);
    if r.Success? {
      assert r.data.trackingHistory == o.trackingHistory + [r.data.trackingHistory[|o.trackingHistory|]];
    }
  }

  // ---------------------------------------------------------------------------
  // The handlers on the whole collection

  /** `isCancelled` agrees with the status on every stored order. */
  predicate AllConsistent(orders: seq<Order>) {
    forall i :: 0 <= i < |orders| ==> Consistent(orders[i])
  }

  /** The document at a position `findOne` returned. */
  function At(orders: seq<Order>, p: Option<nat>): (r: Option<Order>)
    requires p.Some? ==> p.value < |orders|
    ensures r.Some? <==> p.Some?
    ensures r.Some? ==> r.value == orders[p.value]
  {
    if p.Some? then Some(orders[p.value]) else None
  }

  /** A handler's reply and the collection it leaves behind. */
  datatype Applied = Applied(reply: Outcome<Order>, orders: seq<Order>)

  /** Cancel: look up and update by `{ orderId, userId }` (deleted orders
      included). */
  function CancelIn(orders: seq<Order>, userId: ObjectId, orderId: string, reason: string, now: Time): (a: Applied)
    ensures |a.orders| == |orders|
    ensures a.reply.Failure? ==> a.orders == orders
    ensures a.reply.Success? ==> a.reply.data.isCancelled && a.reply.data.orderId == orderId
    ensures forall i :: 0 <= i < |orders| && a.orders[i] != orders[i] ==>
              a.reply.Success? && a.orders[i] == a.reply.data && orders[i].userId == userId
  {
    var p := FindOne(orders, ByIdAndUser(orderId, userId));
    var r := CancelOrder(orderId, reason, At(orders, p), now);
    if r.Success? then Applied(r, orders[p.value := r.data]) else Applied(r, orders)
  }

  /** Tracking update: look up by `{ orderId, isDeleted: false }`, then update
      the first document matching `{ orderId }`. */
  function TrackIn(orders: seq<Order>, caller: ObjectId, orderId: string, status: string, now: Time): (a: Applied)
    ensures |a.orders| == |orders|
    ensures a.reply.Failure? ==> a.orders == orders
    ensures a.reply.Success? ==> ParseStatus(status) == Some(a.reply.data.trackingStatus)
    ensures forall i :: 0 <= i < |orders| && a.orders[i] != orders[i] ==>
              a.reply.Success? && a.orders[i] == a.reply.data && orders[i].orderId == orderId
  {
    var p := FindOne(orders, LiveById(orderId));
    var r := UpdateTracking(orderId, status, At(orders, p), caller, now);
    if r.Failure? then Applied(r, orders)
    else match FindOne(orders, ById(orderId))
      case None => Applied(r, orders)
      case Some(w) =>
        var updated := WithTracking(orders[w], ParseStatus(status).value, caller, now);
        Applied(Success(updated), orders[w := updated])
  }

  /** Delete: look up by `{ orderId, isDeleted: false }`, then set `isDeleted`
      on the first document matching `{ orderId }`. */
  function DeleteIn(orders: seq<Order>, orderId: string, now: Time): (a: Applied)
    ensures |a.orders| == |orders|
    ensures a.reply.Failure? ==> a.orders == orders
    ensures a.reply.Success? ==> a.reply.data.isDeleted
    ensures forall i :: 0 <= i < |orders| && a.orders[i] != orders[i] ==>
              a.reply.Success? && a.orders[i] == a.reply.data && orders[i].orderId == orderId
  {
    var p := FindOne(orders, LiveById(orderId));
    var r := SoftDelete(orderId, At(orders, p), now);
    if r.Failure? then Applied(r, orders)
    else match FindOne(orders, ById(orderId))
      case None => Applied(r, orders)
      case Some(w) =>
        var updated := orders[w].(isDeleted := true, updatedAt := now);
        Applied(Success(updated), orders[w := updated])
  }

  /** The orderIds, position by position. */
  function OrderIds(orders: seq<Order>): (ids: seq<string>)
    ensures |ids| == |orders|
    ensures forall i :: 0 <= i < |orders| ==> ids[i] == orders[i].orderId
  {
    seq(|orders|, i requires 0 <= i < |orders| => orders[i].orderId)
  }

  /** With unique ids the update filter `{ orderId }` hits the document the
      lookup checked, so the handler writes exactly the guard chain's result
      at that position. */
  /** Cancel writes the cancel handler's decision on the order its lookup
      found back at that order's position, and nothing on a refusal. */
  lemma CancelInWritesDecision(orders: seq<Order>, userId: ObjectId, orderId: string, reason: string, now: Time)
    ensures var p := FindOne(orders, ByIdAndUser(orderId, userId));
      var r := CancelOrder(orderId, reason, At(orders, p), now);
      && (r.Success? ==> p.Some? && p.value < |orders| && orders[p.value].userId == userId)
      && CancelIn(orders, userId, orderId, reason, now) == if r.Success? then Applied(r, orders[p.value := r.data]) else Applied(r, orders)
  {
  }

  lemma {:induction false} TrackInWritesDecision(orders: seq<Order>, caller: ObjectId, orderId: string, status: string, now: Time)
    requires UniqueOrderIds(orders)
    ensures var p := FindOne(orders, LiveById(orderId));
      var r := UpdateTracking(orderId, status, At(orders, p), caller, now);
      TrackIn(orders, caller, orderId, status, now) == if r.Success? then Applied(r, orders[p.value := r.data]) else Applied(r, orders)
  {
    var p := FindOne(orders, LiveById(orderId));
    var r := UpdateTracking(orderId, status, At(orders, p), caller, now);
    if r.Success? {
      FindByUniqueId(orders, p.value, ById(orderId));
    }
  }

  lemma {:induction false} DeleteInWritesDecision(orders: seq<Order>, orderId: string, now: Time)
    requires UniqueOrderIds(orders)
    ensures var p := FindOne(orders, LiveById(orderId));
      var r := SoftDelete(orderId, At(orders, p), now);
      DeleteIn(orders, orderId, now) == if r.Success? then Applied(r, orders[p.value := r.data]) else Applied(r, orders)
  {
    var p := FindOne(orders, LiveById(orderId));
    var r := SoftDelete(orderId, At(orders, p), now);
    if r.Success? {
      FindByUniqueId(orders, p.value, ById(orderId));
    }
  }

  /** Writing back an order with the same id and a consistent state keeps
      the ids and the consistency of the collection. */
  lemma WriteBackKeepsInvariant(orders: seq<Order>, p: nat, o: Order)
    requires AllConsistent(orders) && p < |orders|
    requires o.orderId == orders[p].orderId && Consistent(o)
    ensures OrderIds(orders[p := o]) == OrderIds(orders)
    ensures AllConsistent(orders[p := o])
  {
  }

  /** Cancel changes at most the one order it looked up, keeps every orderId
      and keeps every order consistent. */
  lemma CancelKeepsInvariant(orders: seq<Order>, userId: ObjectId, orderId: string, reason: string, now: Time)
    requires AllConsistent(orders)
    ensures var a := CancelIn(orders, userId, orderId, reason, now);
      OrderIds(a.orders) == OrderIds(orders) && AllConsistent(a.orders) && (a.reply.Failure? ==> a.orders == orders)
  {
    var p := FindOne(orders, ByIdAndUser(orderId, userId));
    var r := CancelOrder(orderId, reason, At(orders, p), now);
    if r.Success? {
      DecisionsKeepConsistent(orders[p.value], orderId, reason, "", userId, now);
      assert r.data.orderId == orders[p.value].orderId;
      WriteBackKeepsInvariant(orders, p.value, r.data);
    }
  }

  /** The same for a tracking update, when the ids are unique. */
  lemma TrackKeepsInvariant(orders: seq<Order>, caller: ObjectId, orderId: string, status: string, now: Time)
    requires UniqueOrderIds(orders) && AllConsistent(orders)
    ensures var a := TrackIn(orders, caller, orderId, status, now);
      OrderIds(a.orders) == OrderIds(orders) && AllConsistent(a.orders) && (a.reply.Failure? ==> a.orders == orders)
  {
    var p := FindOne(orders, LiveById(orderId));
    var r := UpdateTracking(orderId, status, At(orders, p), caller, now);
    TrackInWritesDecision(orders, caller, orderId, status, now);
    if r.Success? {
      DecisionsKeepConsistent(orders[p.value], orderId, "", status, caller, now);
      assert r.data.orderId == orders[p.value].orderId;
      WriteBackKeepsInvariant(orders, p.value, r.data);
    }
  }

  /** The same for a soft delete, when the ids are unique. */
  lemma DeleteKeepsInvariant(orders: seq<Order>, orderId: string, now: Time)
    requires UniqueOrderIds(orders) && AllConsistent(orders)
    ensures var a := DeleteIn(orders, orderId, now);
      OrderIds(a.orders) == OrderIds(orders) && AllConsistent(a.orders) && (a.reply.Failure? ==> a.orders == orders)
  {
    var p := FindOne(orders, LiveById(orderId));
    var r := SoftDelete(orderId, At(orders, p), now);
    DeleteInWritesDecision(orders, orderId, now);
    if r.Success? {
      DecisionsKeepConsistent(orders[p.value], orderId, "", "", 0, now);
      assert r.data.orderId == orders[p.value].orderId;
      WriteBackKeepsInvariant(orders, p.value, r.data);
    }
  }

  // ---------------------------------------------------------------------------
  // Listings and statistics

  /** `getAllOrdersController` lists only live orders; `getOrderDetailsController`
      lists a user's orders whether deleted or not. */
  lemma ListingsAndDeletion(orders: seq<Order>, i: nat)
    requires i < |orders|
    ensures orders[i] in FindAll(orders, ByUser(orders[i].userId))
    ensures orders[i] in FindAll(orders, Live) <==> !orders[i].isDeleted
  {
    var o := orders[i];
    assert o in orders;
    assert Matches(ByUser(o.userId), o);
    assert Matches(Live, o) <==> !o.isDeleted;
  }

  datatype OrderStats = OrderStats(totalUsers: nat, totalOrders: nat, canceledOrders: nat,
                                   deliveredOrders: nat, receivedOrders: int)

  /** `UserModel.countDocuments({ role: "USER" })` over the users' roles. */
  function CountRole(roles: seq<string>, role: string): (n: nat)
    ensures n <= |roles|
    ensures n == multiset(roles)[role]
    decreases |roles|
  {
    if |roles| == 0 then 0
    else
      assert roles == [roles[0]] + roles[1..];
      (if roles[0] == role then 1 else 0) + CountRole(roles[1..], role)
  }

  /** The figures `getOrderStatsController` replies with: the users whose role
      is USER, the live orders, the live cancelled and the live delivered
      ones, and what remains of the live orders after those two. */
  function OrderStatsOf(orders: seq<Order>, userRoles: seq<string>): (s: OrderStats)
    ensures s.totalUsers == multiset(userRoles)["USER"]
    ensures s.totalOrders == |MatchingPositions(orders, Live)|
    ensures s.canceledOrders == |MatchingPositions(orders, LiveCancelled)|
    ensures s.deliveredOrders == |MatchingPositions(orders, LiveDelivered)|
    ensures s.receivedOrders == s.totalOrders - s.canceledOrders - s.deliveredOrders
  {
    var total := CountDocuments(orders, Live);
    var canceled := CountDocuments(orders, LiveCancelled);
    var delivered := CountDocuments(orders, LiveDelivered);
    OrderStats(CountRole(userRoles, "USER"), total, canceled, delivered, total - canceled - delivered)
  }

  /** Live orders still on their way: Pending, Processing or Shipped. */
  ghost function InProgress(orders: seq<Order>): nat
    decreases |orders|
  {
    if |orders| == 0 then 0
    else (if !orders[0].isDeleted && orders[0].trackingStatus in {Pending, Processing, Shipped} then 1 else 0)
         + InProgress(orders[1..])
  }

  /** When every order is consistent, `receivedOrders` counts the live orders
      still in progress, so it is never negative. */
  lemma {:induction false} ReceivedOrdersInProgress(orders: seq<Order>, userRoles: seq<string>)
    requires AllConsistent(orders)
    ensures OrderStatsOf(orders, userRoles).receivedOrders == InProgress(orders)
    ensures OrderStatsOf(orders, userRoles).receivedOrders >= 0
  {
    LiveOrdersSplit(orders);
  }

  /** Consistent live orders are cancelled, delivered or in progress, and
      no two of these at once. */
  lemma {:induction false} LiveOrdersSplit(orders: seq<Order>)
    requires AllConsistent(orders)
    ensures |FindAll(orders, Live)| == |FindAll(orders, LiveCancelled)| + |FindAll(orders, LiveDelivered)| + InProgress(orders)
    decreases |orders|
  {
    if |orders| > 0 {
      assert AllConsistent(orders[1..]) by {
        forall i | 0 <= i < |orders| - 1 ensures Consistent(orders[1..][i]) {
          assert orders[1..][i] == orders[i + 1];
        }
      }
      LiveOrdersSplit(orders[1..]);
      var o := orders[0];
      assert Consistent(o);
      assert |FindAll(orders, Live)| == (if Matches(Live, o) then 1 else 0) + |FindAll(orders[1..], Live)|;
      assert |FindAll(orders, LiveCancelled)| == (if Matches(LiveCancelled, o) then 1 else 0) + |FindAll(orders[1..], LiveCancelled)|;
      assert |FindAll(orders, LiveDelivered)| == (if Matches(LiveDelivered, o) then 1 else 0) + |FindAll(orders[1..], LiveDelivered)|;
    }
  }

  // ---------------------------------------------------------------------------
  // The store

  /** No two keys are equal. */
  ghost predicate DistinctKeys(keys: seq<ObjectId>) {
    forall i, j :: 0 <= i < j < |keys| ==> keys[i] != keys[j]
  }

  /** Orders whose ids were drawn from distinct ObjectIds have distinct ids. */
  lemma DistinctKeysUniqueIds(orders: seq<Order>, keys: seq<ObjectId>)
    requires |keys| == |orders| && DistinctKeys(keys)
    requires forall i :: 0 <= i < |orders| ==> orders[i].orderId == OrderIdFor(keys[i])
    ensures UniqueOrderIds(orders)
  {
    forall i, j | 0 <= i < j < |orders| ensures orders[i].orderId != orders[j].orderId {
      if orders[i].orderId == orders[j].orderId {
        OrderIdInjective(keys[i], keys[j]);
      }
    }
  }

  /** The reply of `paymentController` when it does not fail: the placed
      orders, or the payment gateway's order (its id, amount in paise and
      currency) and the user's e-mail. */
  datatype CheckoutReply =
    | Placed(placed: seq<Order>)
    | Quote(id: string, amount: int, currency: string, email: string)

  /** The order collection with the cart state the order handlers clear. */
  class OrderStore {
    var orders: seq<Order>
    var cartRows: seq<CartRow>
    /** Each user's `shopping_cart` array. */
    var shoppingCarts: map<ObjectId, seq<ObjectId>>
    /** The next ObjectId `new mongoose.Types.ObjectId()` hands out. */
    var nextObjectId: ObjectId
    /** The ObjectId each order's id was made from. */
    ghost var keys: seq<ObjectId>

    /** Every orderId is `ORD-` and an ObjectId already handed out, no two
        the same. */
    ghost predicate WellFormed()
      reads this
    {
      && |keys| == |orders|
      && (forall i :: 0 <= i < |orders| ==> orders[i].orderId == OrderIdFor(keys[i]) && keys[i] < nextObjectId)
      && DistinctKeys(keys)
    }

    ghost predicate Valid()
      reads this
    {
      WellFormed() && AllConsistent(orders)
    }

    lemma IdsUnique()
      requires WellFormed()
      ensures UniqueOrderIds(orders)
    {
      DistinctKeysUniqueIds(orders, keys);
    }

    constructor (cartRows: seq<CartRow>, shoppingCarts: map<ObjectId, seq<ObjectId>>, nextObjectId: ObjectId)
      ensures Valid()
      ensures this.orders == [] && this.cartRows == cartRows && this.shoppingCarts == shoppingCarts
      ensures this.nextObjectId == nextObjectId
    {
      this.orders := [];
      this.cartRows := cartRows;
      this.shoppingCarts := shoppingCarts;
      this.nextObjectId := nextObjectId;
      this.keys := [];
    }

    /** Insert one order per line, then clear the user's cart. */
    method PlaceOrders(userId: ObjectId, lines: seq<CartLine>, addressId: ObjectId,
                       paymentId: string, paymentStatus: string, now: Time) returns (placed: seq<Order>)
      requires Valid()
      modifies this
      ensures Valid()
      ensures placed == Inserted(Payload(userId, lines, addressId, paymentId, paymentStatus, old(nextObjectId)), now)
      ensures orders == old(orders) + placed
      ensures nextObjectId == old(nextObjectId) + |lines|
      ensures cartRows == RowsNotOf(old(cartRows), userId)
      ensures shoppingCarts == EmptyCart(old(shoppingCarts), userId)
    {
      var first := nextObjectId;
      PlacedOrders(userId, lines, addressId, paymentId, paymentStatus, first, now);
      placed := Inserted(Payload(userId, lines, addressId, paymentId, paymentStatus, first), now);
      ghost var newKeys := seq(|lines|, i requires 0 <= i < |lines| => first + i);
      orders := orders + placed;
      keys := keys + newKeys;
      nextObjectId := first + |lines|;
      cartRows := RowsNotOf(cartRows, userId);
      shoppingCarts := EmptyCart(shoppingCarts, userId);
      assert forall i :: 0 <= i < |old(keys)| ==> keys[i] == old(keys)[i] && keys[i] < first;
    }

    /** `CashOnDeliveryOrderController`. */
    method CashOnDelivery(userId: ObjectId, listItems: Option<seq<CartLine>>, addressId: Option<ObjectId>, now: Time)
      returns (r: Outcome<seq<Order>>)
      requires Valid()
      modifies this
      ensures Valid()
      ensures listItems.None? || addressId.None? ==>
                r == Failure(400, "Provide list_items and addressId")
                && orders == old(orders) && cartRows == old(cartRows) && shoppingCarts == old(shoppingCarts)
                && nextObjectId == old(nextObjectId)
      ensures listItems.Some? && addressId.Some? ==>
                && r.Success?
                && r.data == Inserted(Payload(userId, listItems.value, addressId.value, "", "CASH ON DELIVERY",
                                              old(nextObjectId)), now)
                && orders == old(orders) + r.data
                && nextObjectId == old(nextObjectId) + |listItems.value|
                && cartRows == RowsNotOf(old(cartRows), userId)
                && shoppingCarts == EmptyCart(old(shoppingCarts), userId)
    {
      if listItems.None? || addressId.None? {
        return Failure(400, "Provide list_items and addressId");
      }
      var placed := PlaceOrders(userId, listItems.value, addressId.value, "", "CASH ON DELIVERY", now);
      r := Success(placed);
    }

    /** `paymentController`.  `userEmail` is the e-mail of the user
        `findById(userId)` returns (None when there is none); a gateway field
        is "" when absent; `signatureMatches` is the outcome of comparing the
        HMAC-SHA256 of `razorpay_order_id|razorpay_payment_id` with the
        signature; `gatewayOrderId` is the id of the order the gateway
        creates for a quote. */
    method Checkout(userId: ObjectId, userEmail: Option<string>, listItems: Option<seq<CartLine>>,
                    addressId: Option<ObjectId>, razorpayOrderId: string, razorpayPaymentId: string,
                    razorpaySignature: string, signatureMatches: bool, gatewayOrderId: string, now: Time)
      returns (r: Outcome<CheckoutReply>)
      requires Valid()
      modifies this
      ensures Valid()
      ensures cartRows != old(cartRows) || shoppingCarts != old(shoppingCarts) || orders != old(orders) ==>
                r.Success? && r.data.Placed?
      ensures listItems.None? || addressId.None? ==> r == Failure(400, "Provide list_items and addressId")
      ensures listItems.Some? && addressId.Some? && userEmail.None? ==> r == Failure(404, "User not found")
      ensures r.Failure? ==> orders == old(orders) && nextObjectId == old(nextObjectId)
      ensures listItems.Some? && addressId.Some? && userEmail.Some? ==>
        var lines := listItems.value;
        if razorpayOrderId != "" && razorpayPaymentId != "" && razorpaySignature != "" then
          if !signatureMatches then r == Failure(400, "Invalid payment signature")
          else
            && r.Success?
            && r.data == Placed(Inserted(Payload(userId, lines, addressId.value, razorpayPaymentId,
                                                 "Online Payments", old(nextObjectId)), now))
            && orders == old(orders) + r.data.placed
            && nextObjectId == old(nextObjectId) + |lines|
            && cartRows == RowsNotOf(old(cartRows), userId)
            && shoppingCarts == EmptyCart(old(shoppingCarts), userId)
        else
          && r == Success(Quote(gatewayOrderId, CartTotal(lines) * 100, "INR", userEmail.value))
          && orders == old(orders)
          && nextObjectId == old(nextObjectId) + 1
    {
      if listItems.None? || addressId.None? {
        return Failure(400, "Provide list_items and addressId");
      }
      if userEmail.None? {
        return Failure(404, "User not found");
      }
      if razorpayOrderId != "" && razorpayPaymentId != "" && razorpaySignature != "" {
        if !signatureMatches {
          return Failure(400, "Invalid payment signature");
        }
        var placed := PlaceOrders(userId, listItems.value, addressId.value, razorpayPaymentId, "Online Payments", now);
        return Success(Placed(placed));
      }
      // The receipt `receipt_<ObjectId>` draws an ObjectId and goes only to
      // the gateway, which answers with its order's id.
      nextObjectId := nextObjectId + 1;
      r := Success(Quote(gatewayOrderId, CartTotal(listItems.value) * 100, "INR", userEmail.value));
    }

    /** `cancelOrderController`. */
    method Cancel(userId: ObjectId, orderId: string, reason: string, now: Time) returns (r: Outcome<Order>)
      requires Valid()
      modifies this`orders
      ensures Valid()
      ensures Applied(r, orders) == CancelIn(old(orders), userId, orderId, reason, now)
    {
      var p := FindOne(orders, ByIdAndUser(orderId, userId));
      r := CancelOrder(orderId, reason, At(orders, p), now);
      CancelKeepsInvariant(orders, userId, orderId, reason, now);
      if r.Success? {
        orders := orders[p.value := r.data];
      }
    }

    /** `updateTrackingStatusController`; `caller` is the admin making the change. */
    method UpdateTrackingStatus(caller: ObjectId, orderId: string, status: string, now: Time) returns (r: Outcome<Order>)
      requires Valid()
      modifies this`orders
      ensures Valid()
      ensures Applied(r, orders) == TrackIn(old(orders), caller, orderId, status, now)
    {
      IdsUnique();
      TrackKeepsInvariant(orders, caller, orderId, status, now);
      var p := FindOne(orders, LiveById(orderId));
      r := UpdateTracking(orderId, status, At(orders, p), caller, now);
      if r.Success? {
        var w := FindOne(orders, ById(orderId));
        FindByUniqueId(orders, p.value, ById(orderId));
        var updated := WithTracking(orders[w.value], ParseStatus(status).value, caller, now);
        orders := orders[w.value := updated];
        r := Success(updated);
      }
    }

    /** `deleteOrderController`. */
    method DeleteOrder(orderId: string, now: Time) returns (r: Outcome<Order>)
      requires Valid()
      modifies this`orders
      ensures Valid()
      ensures Applied(r, orders) == DeleteIn(old(orders), orderId, now)
    {
      IdsUnique();
      DeleteKeepsInvariant(orders, orderId, now);
      var p := FindOne(orders, LiveById(orderId));
      r := SoftDelete(orderId, At(orders, p), now);
      if r.Success? {
        var w := FindOne(orders, ById(orderId));
        FindByUniqueId(orders, p.value, ById(orderId));
        var updated := orders[w.value].(isDeleted := true, updatedAt := now);
        orders := orders[w.value := updated];
        r := Success(updated);
      }
    }

    /** `getAllOrdersController` (before sorting and population). */
    method GetAllOrders() returns (list: seq<Order>)
      ensures forall o :: o in list <==> o in orders && !o.isDeleted
      ensures list == FindAll(orders, Live)
    {
      list := FindAll(orders, Live);
    }

    /** `getOrderDetailsController` (before sorting and population). */
    method GetOrderDetails(userId: ObjectId) returns (list: seq<Order>)
      ensures forall o :: o in list <==> o in orders && o.userId == userId
      ensures list == FindAll(orders, ByUser(userId))
    {
      list := FindAll(orders, ByUser(userId));
    }

    /** `getOrderStatsController`; `userRoles` are the roles of the stored users. */
    method GetOrderStats(userRoles: seq<string>) returns (s: OrderStats)
      requires Valid()
      ensures s == OrderStatsOf(orders, userRoles)
      ensures s.totalUsers == multiset(userRoles)["USER"]
      ensures s.totalOrders == |MatchingPositions(orders, Live)|
      ensures s.canceledOrders == |MatchingPositions(orders, LiveCancelled)|
      ensures s.deliveredOrders == |MatchingPositions(orders, LiveDelivered)|
      ensures s.receivedOrders == InProgress(orders) >= 0
    {
      s := OrderStatsOf(orders, userRoles);
      ReceivedOrdersInProgress(orders, userRoles);
    }
  }
}
