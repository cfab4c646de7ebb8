/**
  The application shell: the table of the seven steps, the lookup
  `steps[step - 1]` (undefined outside the table) and the progress bar,
  one segment per step, filled up to the current step.
 */
module App {
  import opened Js

  datatype StepView =
    | PersonalInfoView | ExperienceView | EducationView | SkillsView
    | ReferencesView | SummaryView | SubmitView

  const Steps: seq<StepView> :=
    [PersonalInfoView, ExperienceView, EducationView, SkillsView, ReferencesView, SummaryView, SubmitView]

  /** `steps[step - 1]`: `None` stands for `undefined`. */
  function StepComponent(step: int): (r: Option<StepView>)
    ensures r.Some? <==> 1 <= step <= 7
  {
    if 1 <= step <= |Steps| then Some(Steps[step - 1]) else None
  }

  /** The step number that shows a view. */
  function StepNumber(v: StepView): (n: int)
    ensures 1 <= n <= 7
  {
    match v
    case PersonalInfoView => 1
    case ExperienceView => 2
    case EducationView => 3
    case SkillsView => 4
    case ReferencesView => 5
    case SummaryView => 6
    case SubmitView => 7
  }

  /** The table lists every view exactly once, in the order of the step numbers. */
  lemma StepTableRoundTrip(v: StepView, step: int)
    ensures StepComponent(StepNumber(v)) == Some(v)
    ensures 1 <= step <= 7 ==> StepNumber(StepComponent(step).value) == step
  {
  }

  /**
    Segment `index` is filled when `index + 1 <= step`. How many segments
    that fills is proved by `CountProgress` and `ProgressBarFill`.
   */
  function Progress(n: nat, step: int): (r: seq<bool>)
    ensures |r| == n
    ensures forall i :: 0 <= i < n ==> (r[i] <==> i + 1 <= step)
  {
    seq(n, i requires 0 <= i < n => i + 1 <= step)
  }

  function ProgressBar(step: int): seq<bool> {
    Progress(|Steps|, step)
  }

  function CountFilled(s: seq<bool>): nat
    decreases |s|
  {
    if s == [] then 0 else CountFilled(s[..|s| - 1]) + (if s[|s| - 1] then 1 else 0)
  }

  function Clamp(x: int, lo: int, hi: int): int
    requires lo <= hi
  {
    if x < lo then lo else if x > hi then hi else x
  }

  lemma {:induction false} CountProgress(n: nat, step: int)
    ensures CountFilled(Progress(n, step)) == Clamp(step, 0, n)
    decreases n
  {
    if n > 0 {
      CountProgress(n - 1, step);
      assert Progress(n, step)[..n - 1] == Progress(n - 1, step);
    }
  }

  /** The bar has seven segments, and as many are filled as the step, clamped to 0..7. */
  lemma ProgressBarFill(step: int)
    ensures |ProgressBar(step)| == 7
    ensures CountFilled(ProgressBar(step)) == Clamp(step, 0, 7)
  {
    CountProgress(7, step);
  }

  /** Steps moved past either end show no component and a bar that is empty or full. */
  lemma OutOfRangeSteps()
    ensures StepComponent(0).None? && StepComponent(8).None?
    ensures CountFilled(ProgressBar(0)) == 0 && CountFilled(ProgressBar(8)) == 7
  {
    ProgressBarFill(0);
    ProgressBarFill(8);
  }
}
