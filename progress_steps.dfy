/** The wizard's progress header: a bar filled to the current step, one
    indicator per step, and the title and description of the current step. */
module ProgressSteps {
  import opened Types
  import opened OnboardingSchema

  /** Which of `isCompleted`, `isActive` and `isPending` holds. */
  datatype Status = Completed | Active | Pending

  /** What the step circle shows: a checkmark or the step's id. */
  datatype Badge = Checkmark | Number(id: int)

  /** One rendered step indicator. */
  datatype Indicator = Indicator(status: Status, badge: Badge, title: string)

  /** The classification of the step at `index` (0-based) while the wizard
      is on `currentStep` (1-based). */
  function StatusOf(index: int, currentStep: int): (st: Status)
    ensures st == Completed <==> index < currentStep - 1
    ensures st == Active <==> index == currentStep - 1
    ensures st == Pending <==> index > currentStep - 1
  {
    if index < currentStep - 1 then Completed
    else if index == currentStep - 1 then Active
    else Pending
  }

  /** A completed step shows a checkmark; every other step shows its id. */
  function BadgeOf(step: Step, st: Status): (b: Badge)
    ensures b == Checkmark <==> st == Completed
    ensures b.Number? ==> b.id == step.id
  {
    if st == Completed then Checkmark else Number(step.id)
  }

  /** `steps.map(...)`: the indicator of each step. */
  function Row(steps: seq<Step>, currentStep: int): (row: seq<Indicator>)
    ensures |row| == |steps|
    ensures forall i :: 0 <= i < |steps| ==>
              row[i].status == StatusOf(i, currentStep) && row[i].title == steps[i].title
    ensures forall i :: 0 <= i < |steps| ==>
              row[i].badge == BadgeOf(steps[i], row[i].status)
  {
    seq(|steps|, i requires 0 <= i < |steps| =>
      Indicator(StatusOf(i, currentStep), BadgeOf(steps[i], StatusOf(i, currentStep)), steps[i].title))
  }

  /** The number of completed indicators of `row`. */
  function NumCompleted(row: seq<Indicator>): (n: nat)
    ensures n <= |row|
  {
    if row == [] then 0
    else NumCompleted(row[..|row| - 1]) + (if row[|row| - 1].status == Completed then 1 else 0)
  }

  /** `currentStep - 1` clamped to `0..count`. */
  function StepsBefore(currentStep: int, count: nat): (n: nat)
    ensures n <= count
  {
    if currentStep - 1 < 0 then 0 else if currentStep - 1 > count then count else currentStep - 1
  }

  /** The indicators before the current step are the completed ones: on a
      step of the wizard, exactly `currentStep - 1` of them. */
  lemma {:induction false} CompletedCount(steps: seq<Step>, currentStep: int)
    ensures NumCompleted(Row(steps, currentStep)) == StepsBefore(currentStep, |steps|)
    ensures 1 <= currentStep <= |steps| ==> NumCompleted(Row(steps, currentStep)) == currentStep - 1
  {
    if steps != [] {
      var init := steps[..|steps| - 1];
      var row := Row(steps, currentStep);
      assert row[..|row| - 1] == Row(init, currentStep);
      CompletedCount(init, currentStep);
    }
  }

  /** At most one indicator is active, the one at `currentStep - 1`. */
  lemma AtMostOneActive(steps: seq<Step>, currentStep: int, i: int, j: int)
    requires 0 <= i < |steps| && 0 <= j < |steps|
    requires Row(steps, currentStep)[i].status == Active
    requires Row(steps, currentStep)[j].status == Active
    ensures i == j == currentStep - 1
  {
  }

  /** `steps[currentStep - 1]?`: the step shown in the header, absent when
      `currentStep` is out of range. */
  function CurrentStepInfo(steps: seq<Step>, currentStep: int): (r: Option<Step>)
    ensures r.Some? <==> 1 <= currentStep <= |steps|
    ensures r.Some? ==> r.value == steps[currentStep - 1] && r.value in steps
  {
    if 1 <= currentStep <= |steps| then Some(steps[currentStep - 1]) else None
  }

  /** `currentStep / steps.length`, the filled part of the bar; an empty
      list gives no number. */
  function FillFraction(currentStep: int, count: nat): (r: Option<real>)
    ensures r.None? <==> count == 0
    ensures r.Some? ==> r.value * count as real == currentStep as real
  {
    if count == 0 then None else Some(currentStep as real / count as real)
  }

  /** The bar is full exactly on the last step, and on a step of the wizard
      it is filled strictly between nothing and all before that. */
  lemma FullExactlyAtLast(currentStep: int, count: nat)
    requires count > 0
    ensures FillFraction(currentStep, count) == Some(1.0) <==> currentStep == count
    ensures 1 <= currentStep < count ==>
              0.0 < FillFraction(currentStep, count).value < 1.0
  {
    var f := FillFraction(currentStep, count).value;
    assert f * count as real == currentStep as real;
  }
}
