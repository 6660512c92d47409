/** The customer's tracking dialog (`UserTrackingModal`): the step the
    stepper should reach, and the effect that walks `currentStep` up to it one
    interval tick at a time. */
module UserTrackingModal {
  import opened Common
  import opened OrderModel
  import TrackingStepper

  /** `targetStep`: −1 for a cancelled order, otherwise the position of the
      status among the four steps (−1 when it is not one of them). `status`
      is None when the order or its status is absent. */
  function TargetStep(isCancelled: bool, status: Option<TrackingStatus>): (t: int)
    ensures -1 <= t < |Steps|
    ensures t == -1 <==> isCancelled || status.None? || status.value !in Steps
    ensures t >= 0 ==> Steps[t] == status.value
  {
    if isCancelled then -1
    else if status.None? then -1
    else StepIndex(status.value)
  }

  /** The values 0, 1, …, n − 1. */
  function UpTo(n: nat): (r: seq<int>)
    ensures |r| == n
    ensures forall i :: 0 <= i < n ==> r[i] == i
  {
    seq(n, i => i)
  }

  class ProgressDialog {
    /** `currentStep`, the `activeStep` handed to the stepper. */
    var currentStep: int
    /** The values written to `currentStep` by the last run of the effect. */
    ghost var written: seq<int>

    constructor()
      ensures currentStep == 0 && written == []
    {
      currentStep := 0;
      written := [];
    }

    /** One run of the effect on `[open, targetStep]`. The interval fires
        `ticks` times before it is cleared by the cleanup (the dialog closing
        or the target changing); a tick that finds the walk finished does
        nothing but clear the interval. */
    method RunEffect(open: bool, target: int, ticks: nat)
      requires -1 <= target < |Steps|
      modifies this
      ensures !open ==> currentStep == 0 && written == [0]
      ensures open && target == -1 ==> currentStep == -1 && written == [-1]
      ensures open && target >= 0 ==> written == UpTo(if ticks <= target + 1 then ticks else target + 1)
      ensures open && target >= 0 ==> (if ticks == 0 then currentStep == old(currentStep)
                                       else currentStep == |written| - 1)
      ensures open && target >= 0 ==> forall i :: 0 <= i < |written| ==> 0 <= written[i] <= target
    {
      if !open {
        currentStep := 0;
        written := [0];
        return;
      }
      if target == -1 {
        currentStep := -1;
        written := [-1];
        return;
      }
      written := [];
      var step := 0;
      var fired := 0;
      while fired < ticks
        invariant 0 <= fired <= ticks
        invariant step == (if fired <= target + 1 then fired else target + 1)
        invariant written == UpTo(step)
        invariant step == 0 ==> currentStep == old(currentStep)
        invariant step > 0 ==> currentStep == step - 1
      {
        if step <= target {
          currentStep := step;
          written := written + [step];
          step := step + 1;
        }
        fired := fired + 1;
      }
    }
  }

  /** Once the walk has run to its end for an order that is not cancelled, the
      stepper shows exactly the steps up to the order's status as completed,
      with the status itself in bold. */
  lemma FinishedWalkShowsStatus(status: TrackingStatus, finalStep: int)
    requires status in Steps
    requires finalStep == TargetStep(false, Some(status))
    ensures var steps := TrackingStepper.Render(Some(finalStep), false);
      && (forall i :: 0 <= i < |steps| ==> (steps[i].completed <==> i <= StepIndex(status)))
      && (forall i :: 0 <= i < |steps| ==> (steps[i].bold <==> Steps[i] == status))
  {
    var steps := TrackingStepper.Render(Some(finalStep), false);
    forall i | 0 <= i < |steps|
      ensures steps[i].bold <==> Steps[i] == status
    {
      if Steps[i] == status {
        assert StepIndex(status) == i;
      }
    }
  }
}
