/** The customer's order list (`MyOrders`): the status badge maps, the
    cancel dialog's eligibility check, the reason it sends and the reset of
    its state after every attempt. */
module MyOrders {
  import opened Common
  import opened OrderModel
  import opened OrderController

  // ---------------------------------------------------------------------------
  // Status badges

  datatype BadgeStyle = BadgeStyle(bgcolor: string, color: string)

  /** The lucide icons a badge can carry. */
  datatype BadgeIcon = CheckIcon | ClockIcon | RotateCcwIcon | TruckIcon | XIcon | PackageIcon

  const DefaultStyle: BadgeStyle := BadgeStyle("#6b7280", "#ffffff")

  /** `getStatusStyles`, on the status text as the server sends it. */
  function StatusStyle(status: string): (st: BadgeStyle)
    ensures st.color == "#ffffff"
  {
    if status == "Delivered" then BadgeStyle("#16a34a", "#ffffff")
    else if status == "Pending" then BadgeStyle("#f59e0b", "#ffffff")
    else if status == "Processing" then BadgeStyle("#3b82f6", "#ffffff")
    else if status == "Shipped" then BadgeStyle("#8b5cf6", "#ffffff")
    else if status == "Cancelled" then BadgeStyle("#ef4444", "#ffffff")
    else DefaultStyle
  }

  /** `getStatusIcon`: the package icon exactly for text that is not a
      status. */
  function StatusIcon(status: string): (r: BadgeIcon)
    ensures r == PackageIcon <==> ParseStatus(status).None?
  {
    if status == "Delivered" then CheckIcon
    else if status == "Pending" then ClockIcon
    else if status == "Processing" then RotateCcwIcon
    else if status == "Shipped" then TruckIcon
    else if status == "Cancelled" then XIcon
    else PackageIcon
  }

  /** Each of the five statuses has a badge of its own, different from the
      others' and from the default. */
  lemma KnownStatusBadges(s: TrackingStatus, t: TrackingStatus)
    ensures StatusStyle(StatusName(s)) != DefaultStyle && StatusIcon(StatusName(s)) != PackageIcon
    ensures s != t ==> && StatusStyle(StatusName(s)).bgcolor != StatusStyle(StatusName(t)).bgcolor
                       && StatusIcon(StatusName(s)) != StatusIcon(StatusName(t))
  {
  }

  /** Any text that is not a status gets the grey package badge. */
  lemma UnknownStatusBadge(other: string)
    requires ParseStatus(other).None?
    ensures StatusStyle(other) == DefaultStyle && StatusIcon(other) == PackageIcon
  {
    assert other != StatusName(Delivered) && other != StatusName(Pending) && other != StatusName(Processing)
           && other != StatusName(Shipped) && other != StatusName(Cancelled);
  }

  // ---------------------------------------------------------------------------
  // Cancellation

  /** The check of `handleOpenCancelModal`: neither Shipped, Delivered nor
      already cancelled. For a consistent order these are exactly the
      Pending and Processing ones. */
  function CancelEligible(o: Order): (r: bool)
    ensures Consistent(o) ==> (r <==> o.trackingStatus == Pending || o.trackingStatus == Processing)
    ensures r ==> !o.isCancelled
  {
    !(o.trackingStatus == Shipped || o.trackingStatus == Delivered || o.isCancelled)
  }

  /** The Cancel Order menu item is rendered for every order not cancelled. */
  predicate CancelMenuItemShown(o: Order) {
    !o.isCancelled
  }

  /** The menu offers Cancel Order on more orders than the dialog accepts:
      every order the dialog opens for has the entry, and the entry is also
      shown, only to be refused with a toast, on the Shipped and Delivered
      orders not cancelled. */
  lemma CancelMenuOffersMoreThanDialog(o: Order)
    ensures CancelEligible(o) ==> CancelMenuItemShown(o)
    ensures CancelMenuItemShown(o) && !CancelEligible(o) <==>
              !o.isCancelled && (o.trackingStatus == Shipped || o.trackingStatus == Delivered)
  {
  }

  /** The client refuses exactly the orders the cancel handler refuses once
      the request carries an id and a reason. */
  lemma ClientEligibilityMatchesServer(o: Order, reason: string, now: Time)
    requires o.orderId != "" && reason != ""
    ensures CancelEligible(o) <==> CancelOrder(o.orderId, reason, Some(o), now).Success?
  {
  }

  /** The reason radio buttons. */
  const ReasonOptions: seq<string> := ["Changed my mind", "Found a better alternative", "Order placed by mistake", "Other"]

  /** The reason sent: the text field's exactly when "Other" is selected. */
  function EffectiveReason(selection: string, custom: string): (r: string)
    ensures selection == "Other" ==> r == custom
    ensures selection != "Other" ==> r == selection
    ensures selection in ReasonOptions[..3] ==> r != ""
  {
    if selection == "Other" then custom else selection
  }

  class CancelDialog {
    var open: bool
    var selectedOrder: Option<Order>
    var cancellationReason: string
    var customReason: string
    /** Whether an order's action menu is open (`anchorEl`/`menuOrderId`). */
    var menuOpen: bool

    /** The dialog is open exactly while an order is selected, and the
        selected order is one the client lets its customer cancel. */
    predicate Valid()
      reads this
    {
      && (open <==> selectedOrder.Some?)
      && (selectedOrder.Some? ==> CancelEligible(selectedOrder.value))
    }

    constructor()
      ensures !open && selectedOrder.None? && cancellationReason == "" && customReason == "" && !menuOpen
      ensures Valid()
    {
      open := false;
      selectedOrder := None;
      cancellationReason := "";
      customReason := "";
      menuOpen := false;
    }

    method OpenMenu()
      modifies this`menuOpen
      ensures menuOpen
    {
      menuOpen := true;
    }

    /** `handleOpenCancelModal`: an ineligible order changes nothing. */
    method OpenCancelModal(o: Order)
      requires Valid()
      modifies this`open, this`selectedOrder, this`menuOpen
      ensures Valid()
      ensures !CancelEligible(o) ==> open == old(open) && selectedOrder == old(selectedOrder) && menuOpen == old(menuOpen)
      ensures CancelEligible(o) ==> open && selectedOrder == Some(o) && !menuOpen
    {
      if o.trackingStatus == Shipped || o.trackingStatus == Delivered || o.isCancelled {
        return;
      }
      selectedOrder := Some(o);
      open := true;
      menuOpen := false;
    }

    /** `handleCloseCancelModal`. */
    method CloseCancelModal()
      modifies this`open, this`selectedOrder, this`cancellationReason, this`customReason
      ensures !open && selectedOrder.None? && cancellationReason == "" && customReason == ""
      ensures Valid()
    {
      open := false;
      selectedOrder := None;
      cancellationReason := "";
      customReason := "";
    }

    method ChooseReason(r: string)
      requires r in ReasonOptions
      modifies this`cancellationReason
      ensures cancellationReason == r
    {
      cancellationReason := r;
    }

    /** Typing into the text field shown for "Other". */
    method EnterCustomReason(text: string)
      requires cancellationReason == "Other"
      modifies this`customReason
      ensures customReason == text
    {
      customReason := text;
    }

    /** `handleCancelOrder` (Confirm is disabled while no order is selected).
        It returns the request body it sends, if any. Without a selection or
        an effective reason nothing is sent and the dialog stays as it is;
        otherwise, whatever the server answers, the dialog closes and resets. */
    method SubmitCancel(now: Time) returns (request: Option<(string, string)>)
      requires selectedOrder.Some?
      modifies this`open, this`selectedOrder, this`cancellationReason, this`customReason
      ensures old(cancellationReason) == "" || EffectiveReason(old(cancellationReason), old(customReason)) == "" ==>
                request.None? && open == old(open) && selectedOrder == old(selectedOrder)
                && cancellationReason == old(cancellationReason) && customReason == old(customReason)
      ensures old(cancellationReason) != "" && EffectiveReason(old(cancellationReason), old(customReason)) != "" ==>
                && request == Some((old(selectedOrder).value.orderId, EffectiveReason(old(cancellationReason), old(customReason))))
                && !open && selectedOrder.None? && cancellationReason == "" && customReason == ""
      ensures old(Valid()) ==> Valid()
      ensures old(Valid()) && request.Some? && request.value.0 != "" ==>
                CancelOrder(request.value.0, request.value.1, old(selectedOrder), now).Success?
    {
      if cancellationReason == "" {
        return None;
      }
      var reason := if cancellationReason == "Other" then customReason else cancellationReason;
      if reason == "" {
        return None;
      }
      request := Some((selectedOrder.value.orderId, reason));
      CloseCancelModal();
    }
  }
}
