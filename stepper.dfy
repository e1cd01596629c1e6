/** The progress bar of the listing wizard: every step is drawn as completed, current or
    upcoming by comparing its index with the current step, and every step but the last
    carries right padding. */
module Stepper {

  datatype Step = Step(id: string, name: string)

  datatype StepStatus = Completed | Current | Upcoming

  /** One drawn step: its label, its status and whether it gets right padding.
      `aria-current="step"` is set exactly on the `Current` one. */
  datatype StepView = StepView(name: string, status: StepStatus, padded: bool)

  /** The three-way conditional on the step index. */
  function StatusOf(idx: int, currentStep: int): (s: StepStatus)
  {
    if idx < currentStep then Completed
    else if idx == currentStep then Current
    else Upcoming
  }

  /** Each step is exactly one of the three, by its position relative to the current step. */
  lemma StatusTrichotomy(idx: int, currentStep: int)
    ensures StatusOf(idx, currentStep) == Completed <==> idx < currentStep
    ensures StatusOf(idx, currentStep) == Current <==> idx == currentStep
    ensures StatusOf(idx, currentStep) == Upcoming <==> idx > currentStep
  {
  }

  /** `steps.map(...)`: the views in step order. */
  function Render(steps: seq<Step>, currentStep: int): (r: seq<StepView>)
    ensures |r| == |steps|
  {
    seq(|steps|, i requires 0 <= i < |steps| =>
      StepView(steps[i].name, StatusOf(i, currentStep), i != |steps| - 1))
  }

  /** The indices whose view is the current one. */
  function CurrentIndices(views: seq<StepView>): set<int>
  {
    set i | 0 <= i < |views| && views[i].status == Current
  }

  /** Within range, exactly one step is current, earlier steps are completed and later
      ones upcoming. */
  lemma ExactlyOneCurrent(steps: seq<Step>, currentStep: int)
    requires 0 <= currentStep < |steps|
    ensures CurrentIndices(Render(steps, currentStep)) == {currentStep}
    ensures forall i :: 0 <= i < |steps| ==>
      (Render(steps, currentStep)[i].status == Completed <==> i < currentStep)
  {
    var r := Render(steps, currentStep);
    forall i | i in CurrentIndices(r) ensures i == currentStep {
      assert r[i].status == StatusOf(i, currentStep);
    }
    assert r[currentStep].status == Current;
  }

  /** One past the last step, which the wizard reaches after a successful submission, every
      step is completed and none is current. */
  lemma AllCompletedAtEnd(steps: seq<Step>)
    ensures forall i :: 0 <= i < |steps| ==> Render(steps, |steps|)[i].status == Completed
    ensures CurrentIndices(Render(steps, |steps|)) == {}
  {
    var r := Render(steps, |steps|);
    forall i | 0 <= i < |steps| ensures r[i].status == Completed {
      assert r[i].status == StatusOf(i, |steps|);
    }
    assert forall i :: i in CurrentIndices(r) ==> r[i].status == Current;
  }

  /** Before the first step every step is upcoming. */
  lemma AllUpcomingBefore(steps: seq<Step>, currentStep: int)
    requires currentStep < 0
    ensures forall i :: 0 <= i < |steps| ==> Render(steps, currentStep)[i].status == Upcoming
  {
    var r := Render(steps, currentStep);
    forall i | 0 <= i < |steps| ensures r[i].status == Upcoming {
      assert r[i].status == StatusOf(i, currentStep);
    }
  }

  /** The padding rule does not depend on the current step: all but the last are padded. */
  lemma PaddingRule(steps: seq<Step>, currentStep: int)
    ensures forall i :: 0 <= i < |steps| ==> (Render(steps, currentStep)[i].padded <==> i < |steps| - 1)
    ensures forall i :: 0 <= i < |steps| ==> Render(steps, currentStep)[i].name == steps[i].name
  {
    var r := Render(steps, currentStep);
    forall i | 0 <= i < |steps|
      ensures (r[i].padded <==> i < |steps| - 1) && r[i].name == steps[i].name
    {
      assert r[i] == StepView(steps[i].name, StatusOf(i, currentStep), i != |steps| - 1);
    }
  }
}
