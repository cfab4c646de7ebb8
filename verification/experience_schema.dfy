/**
  `experienceSchema`: five required strings and an enum, then one
  record-level refinement on `endDate`. A value outside the enum makes zod
  abandon the record before record-level refinements run, so the `endDate`
  rule is only evaluated when the employment type is one of the five labels.
 */
module ExperienceSchema {
  import opened Js
  import opened FormTypes
  import opened Issues

  const JobTitleRequired := "Job title is required"
  const CompanyRequired := "Company is required"
  const StartDateRequired := "Start Date is required"
  const ResponsibilitiesRequired := "Responsibilities are required"
  const EndDateRequired := "End date is required unless currently working"

  /** `!!data.endDate`: present and not the empty string. */
  predicate HasText(s: Option<string>) {
    s.Some? && s.value != ""
  }

  function FieldIssues(e: Experience): seq<Issue> {
    Check(|e.jobTitle| >= 1, "jobTitle", JobTitleRequired)
    + Check(|e.company| >= 1, "company", CompanyRequired)
    + Check(EmploymentTypeOf(e.employmentType).Some?, "employmentType",
            EnumMessage(EmploymentTypeLabels, e.employmentType))
    + Check(|e.startDate| >= 1, "startDate", StartDateRequired)
    + Check(|e.responsibilities| >= 1, "responsibilities", ResponsibilitiesRequired)
  }

  /** `.refine(data => data.currentlyWorking || !!data.endDate, { path: ['endDate'] })`. */
  function EndDateIssues(e: Experience): seq<Issue> {
    Check(e.currentlyWorking || HasText(e.endDate), "endDate", EndDateRequired)
  }

  /** The keys that can carry an issue; `currentlyWorking` is a boolean and never does. */
  const ExperienceKeys: seq<string> := ["jobTitle", "company", "employmentType", "startDate", "responsibilities", "endDate"]

  /** The issues `experienceSchema.parse` reports, in order. */
  function ExperienceIssues(e: Experience): seq<Issue> {
    FieldIssues(e) + (if EmploymentTypeOf(e.employmentType).Some? then EndDateIssues(e) else [])
  }

  predicate ExperienceValid(e: Experience) {
    ExperienceIssues(e) == []
  }

  /**
    The schema accepts exactly the entries with non-empty title, company,
    start date and responsibilities, one of the five exact type labels, and
    an end date unless currently working.
   */
  lemma ExperienceAcceptedIff(e: Experience)
    ensures ExperienceValid(e) <==>
      && e.jobTitle != "" && e.company != "" && e.startDate != "" && e.responsibilities != ""
      && e.employmentType in EmploymentTypeLabels
      && (e.currentlyWorking || HasText(e.endDate))
  {
  }

  /** At most one issue per key, each on a key that can carry one. */
  lemma ExperienceIssueKeys(e: Experience)
    ensures |ExperienceIssues(e)| <= |ExperienceKeys|
    ensures forall k :: 0 <= k < |ExperienceIssues(e)| ==> ExperienceIssues(e)[k].field in ExperienceKeys
  {
  }

  /** An empty required field is reported with that field's own message. */
  lemma ExperienceRequiredMessages(e: Experience)
    ensures e.jobTitle == "" ==> Issue("jobTitle", JobTitleRequired) in ExperienceIssues(e)
    ensures e.company == "" ==> Issue("company", CompanyRequired) in ExperienceIssues(e)
    ensures e.startDate == "" ==> Issue("startDate", StartDateRequired) in ExperienceIssues(e)
    ensures e.responsibilities == "" ==> Issue("responsibilities", ResponsibilitiesRequired) in ExperienceIssues(e)
  {
  }

  /**
    With a valid type the `endDate` issue is raised exactly when the entry is
    not current and its end date is absent or empty; either way such an
    entry is rejected.
   */
  lemma EndDateRule(e: Experience)
    ensures e.employmentType in EmploymentTypeLabels ==>
      (Issue("endDate", EndDateRequired) in ExperienceIssues(e) <==> !e.currentlyWorking && !HasText(e.endDate))
    ensures !e.currentlyWorking && !HasText(e.endDate) ==> !ExperienceValid(e)
  {
    assert forall k :: 0 <= k < |FieldIssues(e)| ==> FieldIssues(e)[k].field != "endDate";
  }

  /** A current position never fails because of its end date, whatever it holds. */
  lemma CurrentlyWorkingIgnoresEndDate(e: Experience, endDate: Option<string>)
    requires e.currentlyWorking
    ensures ExperienceIssues(e.(endDate := endDate)) == ExperienceIssues(e)
  {
  }

  /**
    Dates are only required to be non-empty: the schema neither parses them
    nor compares start with end, so replacing them by other non-empty
    strings changes nothing.
   */
  lemma DatesOnlyNeedText(e: Experience, startDate: string, endDate: string)
    requires e.startDate != "" && startDate != ""
    requires HasText(e.endDate) && endDate != ""
    ensures ExperienceIssues(e.(startDate := startDate, endDate := Some(endDate))) == ExperienceIssues(e)
  {
  }

  /** The spellings 'Full-time' and 'Part-time' fail on `employmentType`, and the `endDate` rule is then skipped. */
  lemma LowerCaseTypesRejected(e: Experience)
    requires e.employmentType == "Full-time" || e.employmentType == "Part-time"
    ensures !ExperienceValid(e)
    ensures Issue("employmentType", EnumMessage(EmploymentTypeLabels, e.employmentType)) in ExperienceIssues(e)
    ensures Issue("endDate", EndDateRequired) !in ExperienceIssues(e)
  {
    EmploymentTypeCaseSensitive();
  }
}
