/** The order document (one per purchased cart line): its fields, the tracking
    status enum, the history entries and the schema's defaults; plus the query
    filters the controllers pass to `findOne`, `find` and `countDocuments`. */
module OrderModel {
  import opened Common

  datatype TrackingStatus = Pending | Processing | Shipped | Delivered | Cancelled

  /** The enum value as it is stored and sent. */
  function StatusName(s: TrackingStatus): string {
    match s
    case Pending => "Pending"
    case Processing => "Processing"
    case Shipped => "Shipped"
    case Delivered => "Delivered"
    case Cancelled => "Cancelled"
  }

  /** The schema's enum check: a string is a status exactly when it is one of
      the five names. */
  function ParseStatus(name: string): (r: Option<TrackingStatus>)
    ensures r.Some? ==> StatusName(r.value) == name
    ensures r.None? ==> forall s :: StatusName(s) != name
  {
    if name == "Pending" then Some(Pending)
    else if name == "Processing" then Some(Processing)
    else if name == "Shipped" then Some(Shipped)
    else if name == "Delivered" then Some(Delivered)
    else if name == "Cancelled" then Some(Cancelled)
    else None
  }

  lemma ParseStatusName(s: TrackingStatus)
    ensures ParseStatus(StatusName(s)) == Some(s)
  {
  }

  /** The shipment steps in order: ["Pending", "Processing", "Shipped", "Delivered"]. */
  const Steps: seq<TrackingStatus> := [Pending, Processing, Shipped, Delivered]

  /** `Steps.indexOf(s)`: the rank of a step, -1 for Cancelled. */
  function StepIndex(s: TrackingStatus): (i: int)
    ensures -1 <= i < |Steps|
    ensures i >= 0 ==> Steps[i] == s
    ensures i < 0 <==> s !in Steps
  {
    match s
    case Pending => 0
    case Processing => 1
    case Shipped => 2
    case Delivered => 3
    case Cancelled => -1
  }

  /** An element of `tracking_history`: `status` and `updatedBy` are required,
      `timestamp` defaults to the time the entry is created. */
  datatype HistoryEntry = HistoryEntry(status: TrackingStatus, timestamp: Time, updatedBy: ObjectId)

  datatype ProductDetails = ProductDetails(name: string, image: seq<string>)

  /** A stored order; `createdAt`/`updatedAt` come from `timestamps: true`. */
  datatype Order = Order(
    userId: ObjectId,
    orderId: string,
    productId: ObjectId,
    productDetails: ProductDetails,
    quantity: int,
    paymentId: string,
    paymentStatus: string,
    deliveryAddress: ObjectId,
    subTotalAmt: int,
    totalAmt: int,
    invoiceReceipt: string,
    trackingStatus: TrackingStatus,
    trackingHistory: seq<HistoryEntry>,
    isCancelled: bool,
    cancellationReason: string,
    cancellationDate: Option<Time>,
    isDeleted: bool,
    createdAt: Time,
    updatedAt: Time)

  /** The fields an insert supplies; the optional ones fall back to the
      schema's defaults when absent. */
  datatype OrderInput = OrderInput(
    userId: ObjectId,
    orderId: string,
    productId: ObjectId,
    productDetails: ProductDetails,
    quantity: Option<int>,
    paymentId: Option<string>,
    paymentStatus: Option<string>,
    deliveryAddress: ObjectId,
    subTotalAmt: Option<int>,
    totalAmt: Option<int>)

  /** The lifecycle fields of an order no operation has touched yet. */
  predicate Untouched(o: Order) {
    && o.trackingStatus == Pending
    && o.trackingHistory == []
    && !o.isCancelled
    && o.cancellationReason == ""
    && o.cancellationDate == None
    && !o.isDeleted
    && o.invoiceReceipt == ""
  }

  /** `isCancelled` is set exactly when the status is Cancelled. */
  predicate Consistent(o: Order) {
    o.isCancelled <==> o.trackingStatus == Cancelled
  }

  /** The document Mongoose stores for `input` at time `now`: the supplied
      fields, the schema defaults for the absent ones, untouched lifecycle
      fields. */
  function NewOrder(input: OrderInput, now: Time): (o: Order)
    ensures Untouched(o) && Consistent(o)
    ensures o.orderId == input.orderId && o.userId == input.userId && o.productId == input.productId
    ensures o.productDetails == input.productDetails && o.deliveryAddress == input.deliveryAddress
    ensures o.quantity == (if input.quantity.Some? then input.quantity.value else 1)
    ensures o.paymentId == (if input.paymentId.Some? then input.paymentId.value else "")
    ensures o.paymentStatus == (if input.paymentStatus.Some? then input.paymentStatus.value else "")
    ensures o.subTotalAmt == (if input.subTotalAmt.Some? then input.subTotalAmt.value else 0)
    ensures o.totalAmt == (if input.totalAmt.Some? then input.totalAmt.value else 0)
    ensures o.createdAt == now && o.updatedAt == now
  {
    Order(
      userId := input.userId,
      orderId := input.orderId,
      productId := input.productId,
      productDetails := input.productDetails,
      quantity := input.quantity.GetOr(1),
      paymentId := input.paymentId.GetOr(""),
      paymentStatus := input.paymentStatus.GetOr(""),
      deliveryAddress := input.deliveryAddress,
      subTotalAmt := input.subTotalAmt.GetOr(0),
      totalAmt := input.totalAmt.GetOr(0),
      invoiceReceipt := "",
      trackingStatus := Pending,
      trackingHistory := [],
      isCancelled := false,
      cancellationReason := "",
      cancellationDate := None,
      isDeleted := false,
      createdAt := now,
      updatedAt := now)
  }

  // ---------------------------------------------------------------------------
  // Query filters

  /** The filter documents the controllers query with. */
  datatype Filter =
    | ByIdAndUser(orderId: string, userId: ObjectId)     // { orderId, userId }
    | LiveById(orderId: string)                          // { orderId, isDeleted: false }
    | ById(orderId: string)                              // { orderId }
    | ByUser(userId: ObjectId)                           // { userId }
    | ByUserAndProduct(userId: ObjectId, productId: ObjectId)  // { userId, productId }
    | Live                                               // { isDeleted: false }
    | LiveCancelled                                      // { isDeleted: false, isCancelled: true }
    | LiveDelivered                                      // { isDeleted: false, tracking_status: "Delivered" }

  predicate Matches(f: Filter, o: Order) {
    match f
    case ByIdAndUser(id, u) => o.orderId == id && o.userId == u
    case LiveById(id) => o.orderId == id && !o.isDeleted
    case ById(id) => o.orderId == id
    case ByUser(u) => o.userId == u
    case ByUserAndProduct(u, p) => o.userId == u && o.productId == p
    case Live => !o.isDeleted
    case LiveCancelled => !o.isDeleted && o.isCancelled
    case LiveDelivered => !o.isDeleted && o.trackingStatus == Delivered
  }

  /** `findOne(filter)`: the position of the first matching document. */
  function FindOne(orders: seq<Order>, f: Filter): (r: Option<nat>)
    ensures r.Some? ==> r.value < |orders| && Matches(f, orders[r.value])
    ensures r.Some? ==> forall j :: 0 <= j < r.value ==> !Matches(f, orders[j])
    ensures r.None? ==> forall j :: 0 <= j < |orders| ==> !Matches(f, orders[j])
    decreases |orders|
  {
    if |orders| == 0 then None
    else if Matches(f, orders[0]) then Some(0)
    else match FindOne(orders[1..], f)
      case None => None
      case Some(k) => Some(k + 1)
  }

  /** `find(filter)`: the matching documents, in store order. */
  function FindAll(orders: seq<Order>, f: Filter): (r: seq<Order>)
    ensures |r| <= |orders|
    ensures forall o :: o in r <==> o in orders && Matches(f, o)
    decreases |orders|
  {
    if |orders| == 0 then []
    else if Matches(f, orders[0]) then [orders[0]] + FindAll(orders[1..], f)
    else FindAll(orders[1..], f)
  }

  /** Every matching document appears in `find`'s answer as often as it is
      stored, and no other document appears. */
  lemma {:induction false} FindAllMultiplicity(orders: seq<Order>, f: Filter)
    ensures forall o :: multiset(FindAll(orders, f))[o] == if Matches(f, o) then multiset(orders)[o] else 0
    decreases |orders|
  {
    if |orders| > 0 {
      FindAllMultiplicity(orders[1..], f);
      assert orders == [orders[0]] + orders[1..];
    }
  }

  /** `find` keeps the store's order: the matches of a concatenation are the
      matches of the first part followed by those of the second. */
  lemma {:induction false} FindAllAppend(a: seq<Order>, b: seq<Order>, f: Filter)
    ensures FindAll(a + b, f) == FindAll(a, f) + FindAll(b, f)
    decreases |a|
  {
    if |a| > 0 {
      assert (a + b)[0] == a[0] && (a + b)[1..] == a[1..] + b;
      FindAllAppend(a[1..], b, f);
      var head := if Matches(f, a[0]) then [a[0]] else [];
      assert FindAll(a, f) == head + FindAll(a[1..], f);
      assert FindAll(a + b, f) == head + FindAll(a[1..] + b, f);
    } else {
      assert a + b == b;
    }
  }

  /** The positions of the stored documents a filter matches. */
  ghost function MatchingPositions(orders: seq<Order>, f: Filter): set<int> {
    set i | 0 <= i < |orders| && Matches(f, orders[i])
  }

  /** The matching positions of a store are those of all but its last
      document, plus the last position when that document matches. */
  lemma MatchingPositionsSnoc(orders: seq<Order>, f: Filter)
    requires |orders| > 0
    ensures var n := |orders| - 1;
            MatchingPositions(orders, f) ==
              MatchingPositions(orders[..n], f) + (if Matches(f, orders[n]) then {n} else {})
  {
    var n := |orders| - 1;
    var p := orders[..n];
    forall i | 0 <= i < n ensures p[i] == orders[i] { }
  }

  /** `find` returns one document per matching position. */
  lemma {:induction false} FindAllCountsPositions(orders: seq<Order>, f: Filter)
    ensures |FindAll(orders, f)| == |MatchingPositions(orders, f)|
    decreases |orders|
  {
    if |orders| == 0 {
      assert MatchingPositions(orders, f) == {};
    } else {
      var n := |orders| - 1;
      var p := orders[..n];
      assert orders == p + [orders[n]];
      FindAllAppend(p, [orders[n]], f);
      FindAllCountsPositions(p, f);
      MatchingPositionsSnoc(orders, f);
      assert n !in MatchingPositions(p, f);
    }
  }

  /** `countDocuments(filter)`: the number of stored documents the filter
      matches. */
  function CountDocuments(orders: seq<Order>, f: Filter): (n: nat)
    ensures n <= |orders|
    ensures n == |MatchingPositions(orders, f)|
  {
    FindAllCountsPositions(orders, f);
    |FindAll(orders, f)|
  }

  /** No two stored orders share an `orderId` (the schema's `unique: true`). */
  ghost predicate UniqueOrderIds(orders: seq<Order>) {
    forall i, j :: 0 <= i < j < |orders| ==> orders[i].orderId != orders[j].orderId
  }

  /** With unique ids, looking an order up by id finds the one position that
      holds it, whatever else the filter asks. */
  lemma FindByUniqueId(orders: seq<Order>, i: nat, f: Filter)
    requires UniqueOrderIds(orders)
    requires i < |orders| && Matches(f, orders[i])
    requires f.ByIdAndUser? || f.LiveById? || f.ById?
    ensures FindOne(orders, f) == Some(i)
  {
    var r := FindOne(orders, f);
    assert r.Some? && r.value <= i;
    if r.value < i {
      assert false;
    }
  }
}
