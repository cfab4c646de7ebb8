/**
  The Summary step. It reads the store and derives the total years of
  experience, which sections to draw and the age line; its buttons only
  move the step.
 */
module SummaryScreen {
  import opened Js
  import opened FormTypes
  import opened SeqOps
  import opened ValidateDates
  import opened Age
  import opened FormState
  import opened PersonalInfoScreen
  import opened App

  /** The milliseconds an entry spans, end minus start; `None` when either date is NaN. */
  function SpanOf(e: Experience, env: Env): (r: Option<int>)
    ensures r.Some? <==> StartOf(e, env).Some? && EffectiveEnd(e, env).Some?
  {
    match (StartOf(e, env), EffectiveEnd(e, env))
    case (Some(start), Some(end)) => Some(end - start)
    case _ => None
  }

  /** `(end.getTime() - start.getTime()) / (1000 * 60 * 60 * 24 * 365.25)` for one entry. */
  function YearsOf(e: Experience, env: Env): Option<real> {
    match SpanOf(e, env)
    case None => None
    case Some(ms) => Some(ms as real / MsPerYear as real)
  }

  /** `acc + years`, where NaN absorbs everything. */
  function AddYears(acc: Option<real>, years: Option<real>): Option<real> {
    if acc.Some? && years.Some? then Some(acc.value + years.value) else None
  }

  /** `experiences.reduce((acc, exp) => acc + years(exp), 0)`, folding from the left. */
  function TotalExperienceYears(exps: seq<Experience>, env: Env): Option<real>
    decreases |exps|
  {
    if exps == [] then Some(0.0)
    else AddYears(TotalExperienceYears(exps[..|exps| - 1], env), YearsOf(exps[|exps| - 1], env))
  }

  predicate AllSpansDefined(exps: seq<Experience>, env: Env) {
    forall i :: 0 <= i < |exps| ==> SpanOf(exps[i], env).Some?
  }

  /** The sum of the entries' spans in milliseconds. */
  function SpanSum(exps: seq<Experience>, env: Env): int
    requires AllSpansDefined(exps, env)
    decreases |exps|
  {
    if exps == [] then 0
    else SpanSum(exps[..|exps| - 1], env) + SpanOf(exps[|exps| - 1], env).value
  }

  /**
    The total is NaN exactly when some entry has a date that does not parse;
    otherwise it is the summed milliseconds divided by one 365.25-day year.
   */
  lemma {:induction false} TotalIsSpanSum(exps: seq<Experience>, env: Env)
    ensures TotalExperienceYears(exps, env).Some? <==> AllSpansDefined(exps, env)
    ensures AllSpansDefined(exps, env) ==>
      TotalExperienceYears(exps, env) == Some(SpanSum(exps, env) as real / MsPerYear as real)
    decreases |exps|
  {
    if exps != [] {
      var front := exps[..|exps| - 1];
      TotalIsSpanSum(front, env);
      assert forall i :: 0 <= i < |front| ==> front[i] == exps[i];
      if !AllSpansDefined(front, env) {
        var i :| 0 <= i < |front| && SpanOf(front[i], env).None?;
        assert SpanOf(exps[i], env).None?;
      }
    }
  }

  /** No experience: a total of 0. */
  lemma EmptyTotal(env: Env)
    ensures TotalExperienceYears([], env) == Some(0.0)
  {
  }

  /** Taking out one entry takes out exactly its span. */
  lemma {:induction false} SpanSumWithout(exps: seq<Experience>, k: int, env: Env)
    requires AllSpansDefined(exps, env) && 0 <= k < |exps|
    ensures AllSpansDefined(Without(exps, k), env)
    ensures SpanSum(exps, env) == SpanOf(exps[k], env).value + SpanSum(Without(exps, k), env)
    decreases |exps|
  {
    var n := |exps| - 1;
    var front := exps[..n];
    var rest := Without(exps, k);
    forall i | 0 <= i < |rest|
      ensures SpanOf(rest[i], env).Some?
    {
      var i' := if k <= i then i + 1 else i;
      assert rest[i] == exps[i'];
    }
    SpansDefinedPrefix(exps, n, env);
    if k == n {
      assert rest == front;
    } else {
      SpanSumWithout(front, k, env);
      WithoutBeforeLast(exps, k);
      var inner := Without(front, k);
      assert rest[..|rest| - 1] == inner && rest[|rest| - 1] == exps[n];
      assert SpanSum(rest, env) == SpanSum(inner, env) + SpanOf(exps[n], env).value;
      assert SpanSum(exps, env) == SpanSum(front, env) + SpanOf(exps[n], env).value;
      assert front[k] == exps[k];
    }
  }

  lemma SpansDefinedPrefix(s: seq<Experience>, n: int, env: Env)
    requires AllSpansDefined(s, env) && 0 <= n <= |s|
    ensures AllSpansDefined(s[..n], env)
  {
    assert forall i :: 0 <= i < n ==> s[..n][i] == s[i];
  }

  /** The sum depends only on the bag of entries. */
  lemma {:induction false} SpanSumPermutation(s: seq<Experience>, t: seq<Experience>, env: Env)
    requires multiset(s) == multiset(t) && AllSpansDefined(s, env) && AllSpansDefined(t, env)
    ensures SpanSum(s, env) == SpanSum(t, env)
    decreases |s|
  {
    if s == [] {
      assert |t| == |multiset(t)|;
    } else {
      var n := |s| - 1;
      assert s[n] in multiset(t) by {
        assert s[n] in multiset(s);
      }
      var k := FindOne(t, s[n]);
      BagWithoutLast(s, t, k);
      SpanSumWithout(t, k, env);
      SpansDefinedPrefix(s, n, env);
      SpanSumPermutation(s[..n], Without(t, k), env);
    }
  }

  /** Reordering the experiences leaves the total unchanged. */
  lemma TotalPermutation(s: seq<Experience>, t: seq<Experience>, env: Env)
    requires multiset(s) == multiset(t)
    ensures TotalExperienceYears(s, env) == TotalExperienceYears(t, env)
  {
    TotalIsSpanSum(s, env);
    TotalIsSpanSum(t, env);
    assert AllSpansDefined(s, env) <==> AllSpansDefined(t, env) by {
      if AllSpansDefined(s, env) {
        forall i | 0 <= i < |t| ensures SpanOf(t[i], env).Some? {
          assert t[i] in multiset(s);
          var j := FindOne(s, t[i]);
        }
      }
      if AllSpansDefined(t, env) {
        forall i | 0 <= i < |s| ensures SpanOf(s[i], env).Some? {
          assert s[i] in multiset(t);
          var j := FindOne(t, s[i]);
        }
      }
    }
    if AllSpansDefined(s, env) {
      SpanSumPermutation(s, t, env);
    }
  }

  /** The sections with an Edit button. */
  datatype Section = PersonalSection | ExperienceSection | EducationSection | SkillsSection | ReferencesSection

  /** The step each Edit button jumps to. */
  function EditTarget(s: Section): int {
    match s
    case PersonalSection => 1
    case ExperienceSection => 2
    case EducationSection => 3
    case SkillsSection => 4
    case ReferencesSection => 5
  }

  /** Each Edit button lands on the step that edits its own section. */
  lemma EditTargetsShowTheirSteps(s: Section)
    ensures StepComponent(EditTarget(s)) == Some(match s
      case PersonalSection => PersonalInfoView
      case ExperienceSection => ExperienceView
      case EducationSection => EducationView
      case SkillsSection => SkillsView
      case ReferencesSection => ReferencesView)
  {
  }

  /** Which sections are drawn: personal, experience and skills always; education and references on conditions. */
  predicate SectionShown(d: FormData, s: Section) {
    match s
    case EducationSection => |d.educations| > 0
    case ReferencesSection => !d.skipReferences && |d.references| > 0
    case _ => true
  }

  /** Skipped references are hidden even when some were added before skipping. */
  lemma SkippedReferencesHidden(d: FormData)
    requires d.skipReferences
    ensures !SectionShown(d, ReferencesSection)
    ensures SectionShown(d, PersonalSection) && SectionShown(d, ExperienceSection) && SectionShown(d, SkillsSection)
  {
  }

  /**
    The education section is drawn exactly when some education was added,
    whatever level of education was declared.
   */
  lemma EducationSectionShown(d: FormData, level: Option<string>)
    ensures SectionShown(d, EducationSection) <==> d.educations != []
    ensures SectionShown(d.(personalInfo := d.personalInfo.(educationLevel := level)), EducationSection)
      == SectionShown(d, EducationSection)
  {
  }

  class SummaryStep {
    const store: FormStore

    constructor(store: FormStore)
      ensures this.store == store
    {
      this.store := store;
    }

    /** The age line of the personal section; drawn only for a non-empty date of birth. */
    function AgeShown(env: Env): Option<Option<int>>
      reads store
    {
      AgeLine(store.personalInfo, env)
    }

    method HandleEdit(s: Section)
      modifies store
      ensures store.Snapshot() == old(store.Snapshot()).(step := EditTarget(s))
    {
      store.GoToStep(EditTarget(s));
    }

    method HandlePrevious()
      modifies store
      ensures store.Snapshot() == old(store.Snapshot()).(step := old(store.step) - 1)
    {
      store.PrevStep();
    }

    method HandleProceed()
      modifies store
      ensures store.Snapshot() == old(store.Snapshot()).(step := old(store.step) + 1)
    {
      store.NextStep();
    }
  }
}
