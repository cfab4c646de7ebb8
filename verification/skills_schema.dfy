/**
  `skillsSchema`: a skill needs a name; its years of experience, when
  given, must be a whole number from 0 to 50. All three number checks run,
  so a negative fraction reports two issues.
 */
module SkillsSchema {
  import opened Js
  import opened FormTypes
  import opened Issues

  const SkillNameRequired := "Skill name is required"
  const NotInteger := "Expected integer, received float"
  const Negative := "Number must be greater than or equal to 0"
  const TooLarge := "Number must be less than or equal to 50"

  /** The largest number of years the schema allows. */
  const MaxYears := 50

  predicate IsWhole(y: real) {
    y == y.Floor as real
  }

  function YearsIssues(years: Option<real>): seq<Issue> {
    match years
    case None => []
    case Some(y) =>
      Check(IsWhole(y), "years", NotInteger)
      + (Check(y >= 0.0, "years", Negative)
      + Check(y <= MaxYears as real, "years", TooLarge))
  }

  /** The issues `skillsSchema.parse` reports, in order. */
  function SkillIssues(s: Skill): seq<Issue> {
    Check(|s.name| >= 1, "name", SkillNameRequired) + YearsIssues(s.years)
  }

  predicate SkillValid(s: Skill) {
    SkillIssues(s) == []
  }

  /** A name issue, if any, comes first; every later issue is on the years. */
  lemma SkillIssueOrder(s: Skill)
    ensures forall k :: 0 <= k < |SkillIssues(s)| ==> SkillIssues(s)[k].field == "name" || SkillIssues(s)[k].field == "years"
    ensures forall k :: 0 < k < |SkillIssues(s)| ==> SkillIssues(s)[k].field == "years"
  {
  }

  /**
    The schema accepts exactly the skills with a name whose years are absent
    or the integers 0 to 50.
   */
  lemma SkillAcceptedIff(s: Skill)
    ensures SkillValid(s) <==>
      s.name != "" && (s.years.Some? ==> exists n: int {:trigger n as real} :: 0 <= n <= MaxYears && s.years.value == n as real)
  {
    if s.years.Some? {
      var y := s.years.value;
      if IsWhole(y) && 0.0 <= y <= MaxYears as real {
        var n := y.Floor;
        assert 0 <= n <= MaxYears && y == n as real;
      }
    }
  }

  /** A value that breaks several number checks reports each of them: -0.5 is neither whole nor non-negative. */
  lemma NegativeFractionTwoIssues()
    ensures YearsIssues(Some(-0.5)) == [Issue("years", NotInteger), Issue("years", Negative)]
  {
    assert (-0.5).Floor == -1;
  }
}
