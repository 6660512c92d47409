/** The four-step progress bar drawn for an order (`TrackingStepper`): which
    steps are completed, which carry the check mark, which label is bold and
    which is greyed, as functions of the `activeStep` and `isCancelled` props. */
module TrackingStepper {
  import opened Common

  /** The labels of the four steps, in the order they are drawn. */
  const StepLabels: seq<string> := ["Order Received", "Processing", "Shipped", "Delivered"]

  /** How one step is drawn: `checkIcon` is the green check mark in place of
      the step's own icon, `greyed` the secondary text colour. */
  datatype StepView = StepView(caption: string, completed: bool, checkIcon: bool, greyed: bool, bold: bool)

  /** The `activeStep` prop is `None` when it is not passed at all: every
      comparison of a number with `undefined` is false in JavaScript. */
  predicate AtOrBefore(index: int, activeStep: Option<int>) {
    activeStep.Some? && index <= activeStep.value
  }

  predicate Beyond(index: int, activeStep: Option<int>) {
    activeStep.Some? && index > activeStep.value
  }

  function RenderStep(index: nat, activeStep: Option<int>, isCancelled: bool): StepView
    requires index < |StepLabels|
  {
    StepView(
      StepLabels[index],
      completed := AtOrBefore(index, activeStep) && !isCancelled,
      checkIcon := AtOrBefore(index, activeStep) && !isCancelled,
      greyed := isCancelled || Beyond(index, activeStep),
      bold := activeStep == Some(index) && !isCancelled)
  }

  /** The stepper: one view per step, in order. */
  function Render(activeStep: Option<int>, isCancelled: bool): (steps: seq<StepView>)
    ensures |steps| == |StepLabels|
    ensures forall i :: 0 <= i < |steps| ==> steps[i].caption == StepLabels[i]
  {
    seq(|StepLabels|, i requires 0 <= i < |StepLabels| => RenderStep(i, activeStep, isCancelled))
  }

  /** The number of completed steps: the steps up to and including the active
      one, none when the order is cancelled or no step is active. */
  function CompletedCount(activeStep: Option<int>, isCancelled: bool): (k: nat)
    ensures k <= |StepLabels|
    ensures isCancelled || activeStep.None? || activeStep.value < 0 ==> k == 0
  {
    if isCancelled || activeStep.None? || activeStep.value < 0 then 0
    else if activeStep.value >= |StepLabels| then |StepLabels|
    else activeStep.value + 1
  }

  /** The completed steps form a prefix of the bar, empty for a cancelled
      order and while no step is active. */
  lemma CompletedStepsFormPrefix(activeStep: Option<int>, isCancelled: bool)
    ensures var steps := Render(activeStep, isCancelled);
      forall i :: 0 <= i < |steps| ==> (steps[i].completed <==> i < CompletedCount(activeStep, isCancelled))
    ensures var steps := Render(activeStep, isCancelled);
      forall i, j :: 0 <= i <= j < |steps| && steps[j].completed ==> steps[i].completed
  {
  }

  /** The check mark is drawn on exactly the completed steps. */
  lemma CheckMarkOnCompletedSteps(activeStep: Option<int>, isCancelled: bool)
    ensures var steps := Render(activeStep, isCancelled);
      forall i :: 0 <= i < |steps| ==> (steps[i].checkIcon <==> steps[i].completed)
  {
  }

  /** At most one label is bold, and only a completed step's, the last one. */
  lemma AtMostOneBoldLabel(activeStep: Option<int>, isCancelled: bool)
    ensures var steps := Render(activeStep, isCancelled);
      forall i, j :: 0 <= i < |steps| && 0 <= j < |steps| && steps[i].bold && steps[j].bold ==> i == j
    ensures var steps := Render(activeStep, isCancelled);
      forall i :: 0 <= i < |steps| && steps[i].bold ==>
        steps[i].completed && i + 1 == CompletedCount(activeStep, isCancelled)
  {
  }

  /** A label is greyed exactly when the order is cancelled or the step lies
      beyond the active one. With an active step and no cancellation, the
      greyed labels are exactly those of the steps not completed. */
  lemma GreyedLabels(activeStep: Option<int>, isCancelled: bool)
    ensures var steps := Render(activeStep, isCancelled);
      forall i :: 0 <= i < |steps| ==>
        (steps[i].greyed <==> isCancelled || (activeStep.Some? && i > activeStep.value))
    ensures var steps := Render(activeStep, isCancelled);
      activeStep.Some? && !isCancelled ==> forall i :: 0 <= i < |steps| ==> (steps[i].greyed <==> !steps[i].completed)
  {
  }

  /** Without an `activeStep` prop nothing is completed or bold, and for an
      order that is not cancelled nothing is greyed either. */
  lemma NoActiveStepShowsNoProgress(isCancelled: bool)
    ensures var steps := Render(None, isCancelled);
      forall i :: 0 <= i < |steps| ==> !steps[i].completed && !steps[i].bold && steps[i].greyed == isCancelled
  {
  }
}
