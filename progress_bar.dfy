/**
 * The step indicator above each wizard: every step is drawn as a numbered
 * circle in one of three styles, followed by a connector unless it is last.
 */
module ProgressBar {

  datatype StepStatus = Active | Completed | PendingStep

  /** What is drawn for one step. */
  datatype StepView = StepView(title: string, number: int, status: StepStatus, connector: bool)

  /** The circle style: active wins over completed, which wins over pending. */
  function StepStatusAt(index: int, currentStep: int): (s: StepStatus)
    ensures s == Active <==> index == currentStep
    ensures s == Completed <==> index < currentStep
    ensures s == PendingStep <==> index > currentStep
  {
    if index == currentStep then Active
    else if index < currentStep then Completed
    else PendingStep
  }

  /** `steps.map((step, index) => ...)`: one view per step, in order. */
  function Render(steps: seq<string>, currentStep: int): (r: seq<StepView>)
    ensures |r| == |steps|
    ensures forall i :: 0 <= i < |r| ==>
      r[i] == StepView(steps[i], i + 1, StepStatusAt(i, currentStep), i < |steps| - 1)
  {
    seq(|steps|, i requires 0 <= i < |steps| =>
      StepView(steps[i], i + 1, StepStatusAt(i, currentStep), i < |steps| - 1))
  }

  function CountStatus(views: seq<StepView>, s: StepStatus): nat {
    if views == [] then 0
    else CountStatus(views[..|views| - 1], s) + (if views[|views| - 1].status == s then 1 else 0)
  }

  function CountConnectors(views: seq<StepView>): nat {
    if views == [] then 0
    else CountConnectors(views[..|views| - 1]) + (if views[|views| - 1].connector then 1 else 0)
  }

  lemma {:induction false} ActivePrefix(steps: seq<string>, c: int, k: nat)
    requires k <= |steps|
    ensures CountStatus(Render(steps, c)[..k], Active) == if 0 <= c < k then 1 else 0
  {
    if k > 0 {
      var v := Render(steps, c);
      assert v[..k][..k - 1] == v[..k - 1];
      ActivePrefix(steps, c, k - 1);
    }
  }

  lemma {:induction false} CompletedPrefix(steps: seq<string>, c: int, k: nat)
    requires k <= |steps|
    ensures CountStatus(Render(steps, c)[..k], Completed) == if c <= 0 then 0 else if c < k then c else k
  {
    if k > 0 {
      var v := Render(steps, c);
      assert v[..k][..k - 1] == v[..k - 1];
      CompletedPrefix(steps, c, k - 1);
    }
  }

  lemma {:induction false} ConnectorPrefix(steps: seq<string>, c: int, k: nat)
    requires k <= |steps|
    ensures CountConnectors(Render(steps, c)[..k]) == if k == |steps| && k > 0 then k - 1 else k
  {
    if k > 0 {
      var v := Render(steps, c);
      assert v[..k][..k - 1] == v[..k - 1];
      ConnectorPrefix(steps, c, k - 1);
    }
  }

  /** With the current step in range, exactly one step is active and exactly `currentStep` are completed. */
  lemma InRangeCounts(steps: seq<string>, currentStep: int)
    requires 0 <= currentStep < |steps|
    ensures CountStatus(Render(steps, currentStep), Active) == 1
    ensures CountStatus(Render(steps, currentStep), Completed) == currentStep
    ensures CountStatus(Render(steps, currentStep), PendingStep) == |steps| - 1 - currentStep
  {
    var v := Render(steps, currentStep);
    assert v[..|steps|] == v;
    ActivePrefix(steps, currentStep, |steps|);
    CompletedPrefix(steps, currentStep, |steps|);
    StatusesPartition(v);
  }

  /** Every step has exactly one of the three styles. */
  lemma {:induction false} StatusesPartition(v: seq<StepView>)
    ensures CountStatus(v, Active) + CountStatus(v, Completed) + CountStatus(v, PendingStep) == |v|
  {
    if v != [] {
      StatusesPartition(v[..|v| - 1]);
    }
  }

  /** A connector follows every step but the last. */
  lemma Connectors(steps: seq<string>, currentStep: int)
    requires |steps| > 0
    ensures CountConnectors(Render(steps, currentStep)) == |steps| - 1
  {
    var v := Render(steps, currentStep);
    assert v[..|steps|] == v;
    ConnectorPrefix(steps, currentStep, |steps|);
  }
}
