/** The administrator's tracking dialog (`TrackingModal`): the statuses it
    offers, its selection state, and the gating of the status selector and
    the Update button. */
module TrackingModal {
  import opened Common
  import opened OrderModel
  import opened OrderController
  import TrackingStepper

  /** The statuses offered as radio buttons: the four steps from the current
      one on. `current` is None when the order (or its status) is absent; a
      status outside the four steps, Cancelled included, has index −1 and so
      offers all four. */
  function AvailableStatuses(current: Option<TrackingStatus>): (r: seq<TrackingStatus>)
    ensures current.Some? && current.value in Steps ==> r == Steps[StepIndex(current.value)..]
    ensures current.Some? && current.value in Steps ==> r[0] == current.value
    ensures current.None? || current.value !in Steps ==> r == Steps
    ensures forall s :: s in r && current.Some? && current.value in Steps ==> StepIndex(s) >= StepIndex(current.value)
  {
    var i := if current.None? then -1 else StepIndex(current.value);
    var k := if i == -1 then 0 else i;
    Steps[k..]
  }

  /** `order?.tracking_status || "Pending"`. */
  function InitialSelection(current: Option<TrackingStatus>): (s: TrackingStatus)
    ensures current.Some? ==> s == current.value
    ensures current.None? ==> s == Pending
  {
    current.GetOr(Pending)
  }

  /** The stepper inside this dialog is handed `trackingStatus`, a prop it
      does not read, so its `activeStep` is absent. */
  function DialogStepper(isCancelled: bool): (steps: seq<TrackingStepper.StepView>)
    ensures |steps| == |Steps|
    ensures forall i :: 0 <= i < |steps| ==> !steps[i].completed && !steps[i].checkIcon && !steps[i].bold
  {
    TrackingStepper.NoActiveStepShowsNoProgress(isCancelled);
    TrackingStepper.Render(None, isCancelled)
  }

  class TrackingDialog {
    /** The order's status and cancellation flag, as passed in the props.
        The parent keeps the dialog mounted and hands it a new `order` when
        another order's tracking is opened. */
    var current: Option<TrackingStatus>
    var isCancelled: bool
    /** `selectedStatus`. */
    var selected: TrackingStatus

    /** The selection is the initial one, or one the enabled radio buttons let
        the user pick. */
    predicate Valid()
      reads this
    {
      selected == InitialSelection(current) || RadioEnabled(selected)
    }

    /** The status selector and the Update button are rendered only for an
        order that is not cancelled. */
    predicate ControlsShown()
      reads this`isCancelled
    {
      !isCancelled
    }

    /** A radio button is offered and not disabled. */
    predicate RadioEnabled(s: TrackingStatus)
      reads this`current
    {
      s in AvailableStatuses(current) && Some(s) != current
    }

    predicate UpdateEnabled()
      reads this
    {
      ControlsShown() && Some(selected) != current
    }

    constructor(current: Option<TrackingStatus>, isCancelled: bool)
      ensures this.current == current && this.isCancelled == isCancelled
      ensures selected == InitialSelection(current)
      ensures Valid()
      ensures current.Some? ==> !UpdateEnabled()
    {
      this.current := current;
      this.isCancelled := isCancelled;
      selected := InitialSelection(current);
    }

    /** The parent passes another order. `useState` reads its initial value
        only at mount, so the selection stays what it was. */
    method ShowOrder(current: Option<TrackingStatus>, isCancelled: bool)
      modifies this`current, this`isCancelled
      ensures this.current == current && this.isCancelled == isCancelled
      ensures selected == old(selected)
    {
      this.current := current;
      this.isCancelled := isCancelled;
    }

    /** The same prop change with the selection re-read from the new order,
        as an effect on `order` would do. */
    method ShowOrderResynced(current: Option<TrackingStatus>, isCancelled: bool)
      modifies this`current, this`isCancelled, this`selected
      ensures this.current == current && this.isCancelled == isCancelled
      ensures selected == InitialSelection(current)
      ensures Valid()
      ensures current.Some? ==> !UpdateEnabled()
    {
      this.current := current;
      this.isCancelled := isCancelled;
      selected := InitialSelection(current);
    }

    /** The radio group's `onChange`, on an enabled button. */
    method Select(s: TrackingStatus)
      requires ControlsShown() && RadioEnabled(s)
      modifies this`selected
      ensures selected == s
      ensures Valid() && UpdateEnabled()
    {
      selected := s;
    }

    /** The body of the request the Update button sends. */
    function UpdateRequest(orderId: string): (body: (string, string))
      reads this`selected
      ensures ParseStatus(body.1) == Some(selected)
    {
      ParseStatusName(selected);
      (orderId, StatusName(selected))
    }
  }

  /** The statuses the dialog lets an administrator pick for a live order are
      exactly those the tracking update accepts, apart from the current one
      (which the handler accepts only from Pending). */
  lemma OfferedStatusesAreAccepted(o: Order, s: TrackingStatus, caller: ObjectId, now: Time)
    requires Consistent(o) && !o.isCancelled && o.orderId != ""
    ensures s in AvailableStatuses(Some(o.trackingStatus)) && s != o.trackingStatus
            <==> UpdateTracking(o.orderId, StatusName(s), Some(o), caller, now).Success? && s != o.trackingStatus
  {
    TrackingOrder(o, o.orderId, s, caller, now);
    ParseStatusName(s);
    var k := StepIndex(o.trackingStatus);
    assert AvailableStatuses(Some(o.trackingStatus)) == Steps[k..];
    if s in Steps[k..] {
      assert StepIndex(s) >= k;
    }
    if s in Steps && StepIndex(s) > k {
      assert Steps[k..][StepIndex(s) - k] == s;
    }
  }

  /** Whenever the Update button is enabled for a live order and the
      selection was made on the order now shown (`Valid`), the request it
      sends is accepted by the tracking update. */
  lemma UpdateButtonRequestIsAccepted(d: TrackingDialog, o: Order, caller: ObjectId, now: Time)
    requires d.Valid() && d.UpdateEnabled()
    requires d.current == Some(o.trackingStatus) && d.isCancelled == o.isCancelled
    requires Consistent(o) && o.orderId != ""
    ensures var body := d.UpdateRequest(o.orderId);
      UpdateTracking(body.0, body.1, Some(o), caller, now).Success?
  {
    OfferedStatusesAreAccepted(o, d.selected, caller, now);
  }

  /** The dialog as written: opened on an order at an earlier step, then on
      a live order at a later step (a Pending order, then a Delivered one).
      The carried-over selection enables Update, and the request it sends is
      refused as a revert. */
  method StaleSelectionAfterReopen(first: Order, second: Order, caller: ObjectId, now: Time)
    returns (d: TrackingDialog, reply: Outcome<Order>)
    requires first.trackingStatus in Steps && second.trackingStatus in Steps
    requires StepIndex(first.trackingStatus) < StepIndex(second.trackingStatus)
    requires !second.isCancelled && second.orderId != ""
    ensures d.current == Some(second.trackingStatus) && d.selected == first.trackingStatus
    ensures d.UpdateEnabled() && !d.Valid()
    ensures reply == UpdateTracking(d.UpdateRequest(second.orderId).0, d.UpdateRequest(second.orderId).1,
                                    Some(second), caller, now)
    ensures reply == Failure(400, "Cannot revert to a previous tracking status")
  {
    d := new TrackingDialog(Some(first.trackingStatus), first.isCancelled);
    d.ShowOrder(Some(second.trackingStatus), second.isCancelled);
    ParseStatusName(first.trackingStatus);
    var body := d.UpdateRequest(second.orderId);
    reply := UpdateTracking(body.0, body.1, Some(second), caller, now);
  }

  /** The corrected dialog: whatever order it showed before, reopened on a
      live order and set to any enabled status, Update sends a request the
      tracking update accepts, moving the order to that status. */
  method ResyncedReopenIsAccepted(d: TrackingDialog, second: Order, s: TrackingStatus, caller: ObjectId, now: Time)
    returns (body: (string, string), reply: Outcome<Order>)
    requires Consistent(second) && !second.isCancelled && second.orderId != ""
    requires s in AvailableStatuses(Some(second.trackingStatus)) && s != second.trackingStatus
    modifies d
    ensures d.current == Some(second.trackingStatus) && d.selected == s && d.UpdateEnabled()
    ensures body == d.UpdateRequest(second.orderId)
    ensures reply == UpdateTracking(body.0, body.1, Some(second), caller, now)
    ensures reply.Success? && reply.data.trackingStatus == s
  {
    ReopenResyncedAndSelect(d, second, s);
    body := d.UpdateRequest(second.orderId);
    assert body == (second.orderId, StatusName(s));
    OfferedSelectionMovesTo(second, s, caller, now);
    reply := UpdateTracking(body.0, body.1, Some(second), caller, now);
  }

  /** The corrected dialog reopened on a live order, then set to an enabled
      status. */
  method ReopenResyncedAndSelect(d: TrackingDialog, second: Order, s: TrackingStatus)
    requires !second.isCancelled
    requires s in AvailableStatuses(Some(second.trackingStatus)) && s != second.trackingStatus
    modifies d
    ensures d.current == Some(second.trackingStatus) && d.selected == s && d.UpdateEnabled()
  {
    d.ShowOrderResynced(Some(second.trackingStatus), second.isCancelled);
    d.Select(s);
  }

  /** A status the dialog offers for a live order, other than the current
      one, is accepted and becomes the order's status. */
  lemma OfferedSelectionMovesTo(o: Order, s: TrackingStatus, caller: ObjectId, now: Time)
    requires Consistent(o) && !o.isCancelled && o.orderId != ""
    requires s in AvailableStatuses(Some(o.trackingStatus)) && s != o.trackingStatus
    ensures var r := UpdateTracking(o.orderId, StatusName(s), Some(o), caller, now);
      r.Success? && r.data.trackingStatus == s
  {
    OfferedStatusesAreAccepted(o, s, caller, now);
    ParseStatusName(s);
  }
}
