/**
  `educationSchema`: three required strings, two year strings each checked
  three ways, optional grade and certificates, and one record-level rule
  that the end year is not before the start year. No check of this schema
  aborts, so the record-level rule always runs. The current year is read
  once, when the schema is built; here it is a parameter.
 */
module EducationSchema {
  import opened Js
  import opened FormTypes
  import opened Issues
  import opened Patterns
  import opened CertificateSchema

  const SchoolRequired := "School / University name is required"
  const DegreeRequired := "Degree is required"
  const FieldRequired := "Field of study is required"
  const StartYearRequired := "Start year is required"
  const EndYearRequired := "End year is required"
  const FourDigitYear := "Must be a 4-digit year"
  const StartYearRange := "Must be between 1900 and current year"
  const EndYearRange := "Must be between 1900 and a reasonable future year"
  const EndBeforeStart := "End year must be after start year"

  /** The earliest year either year field accepts. */
  const MinYear := 1900
  /** How far past the current year an end year may lie. */
  const FutureYears := 10

  /** `Number(val)` lies in [1900, max]; NaN lies nowhere. */
  predicate YearInRange(s: string, max: int) {
    var n := JsNumber(s);
    n.Some? && MinYear <= n.value <= max
  }

  /** The three checks of one year string: non-empty, four digits, in range. */
  function YearIssues(s: string, field: string, required: string, max: int, rangeMessage: string): (r: seq<Issue>)
    ensures forall k :: 0 <= k < |r| ==> r[k].field == field
    ensures forall k :: 0 <= k < |r| ==>
      r[k].message == required || r[k].message == FourDigitYear || r[k].message == rangeMessage
  {
    Check(|s| >= 1, field, required)
    + (Check(FourDigitPattern(s), field, FourDigitYear)
    + Check(YearInRange(s, max), field, rangeMessage))
  }

  /** The issues of each certificate in turn, before re-rooting under `certificates`. */
  function CertificateListIssues(cs: seq<Certificate>): (r: seq<Issue>)
    ensures r == [] <==> forall k :: 0 <= k < |cs| ==> cs[k].name != ""
    decreases |cs|
  {
    if cs == [] then []
    else
      var rest := CertificateListIssues(cs[1..]);
      assert forall k :: 1 <= k < |cs| ==> cs[k] == cs[1..][k - 1];
      CertificateIssues(cs[0]) + rest
  }

  function CertificatesIssues(certificates: Option<seq<Certificate>>): (r: seq<Issue>)
    ensures forall k :: 0 <= k < |r| ==> r[k].field == "certificates"
  {
    match certificates
    case None => []
    case Some(cs) => Nest("certificates", CertificateListIssues(cs))
  }

  /**
    The record-level rule: both years non-empty and `Number(endYear) <
    Number(startYear)`. A comparison with NaN is false.
   */
  predicate EndBeforeStartYear(startYear: string, endYear: string) {
    var s := JsNumber(startYear);
    var e := JsNumber(endYear);
    startYear != "" && endYear != "" && s.Some? && e.Some? && e.value < s.value
  }

  function OrderIssues(e: Education): seq<Issue> {
    Check(!EndBeforeStartYear(e.startYear, e.endYear), "endYear", EndBeforeStart)
  }

  /** The issues of the object's own keys, in declaration order. */
  function FieldIssues(e: Education, currentYear: int): seq<Issue> {
    Check(|e.school| >= 1, "school", SchoolRequired)
    + (Check(|e.degree| >= 1, "degree", DegreeRequired)
    + (Check(|e.field| >= 1, "field", FieldRequired)
    + (YearIssues(e.startYear, "startYear", StartYearRequired, currentYear, StartYearRange)
    + (YearIssues(e.endYear, "endYear", EndYearRequired, currentYear + FutureYears, EndYearRange)
    + CertificatesIssues(e.certificates)))))
  }

  /** Every issue names a key that can carry one: never `grade`. */
  lemma EducationIssueKeys(e: Education, currentYear: int)
    ensures forall k :: 0 <= k < |EducationIssues(e, currentYear)| ==>
      EducationIssues(e, currentYear)[k].field in EducationKeys
  {
    var fields := FieldIssues(e, currentYear);
    var order := OrderIssues(e);
    KeysOfParts(
      Check(|e.school| >= 1, "school", SchoolRequired),
      Check(|e.degree| >= 1, "degree", DegreeRequired),
      Check(|e.field| >= 1, "field", FieldRequired),
      YearIssues(e.startYear, "startYear", StartYearRequired, currentYear, StartYearRange),
      YearIssues(e.endYear, "endYear", EndYearRequired, currentYear + FutureYears, EndYearRange),
      CertificatesIssues(e.certificates));
    assert forall k :: 0 <= k < |order| ==> order[k].field in EducationKeys;
    assert forall k :: 0 <= k < |fields + order| ==>
      (fields + order)[k] == if k < |fields| then fields[k] else order[k - |fields|];
  }

  /** Six lists, each on its own key, concatenate to a list on the keys. */
  lemma KeysOfParts(school: seq<Issue>, degree: seq<Issue>, field: seq<Issue>,
                    start: seq<Issue>, end: seq<Issue>, certificates: seq<Issue>)
    requires forall k :: 0 <= k < |school| ==> school[k].field == "school"
    requires forall k :: 0 <= k < |degree| ==> degree[k].field == "degree"
    requires forall k :: 0 <= k < |field| ==> field[k].field == "field"
    requires forall k :: 0 <= k < |start| ==> start[k].field == "startYear"
    requires forall k :: 0 <= k < |end| ==> end[k].field == "endYear"
    requires forall k :: 0 <= k < |certificates| ==> certificates[k].field == "certificates"
    ensures var r := school + (degree + (field + (start + (end + certificates))));
      forall k :: 0 <= k < |r| ==> r[k].field in EducationKeys
  {
  }

  /** The keys that can carry an issue; `grade` never does. */
  const EducationKeys: seq<string> := ["school", "degree", "field", "startYear", "endYear", "certificates"]

  /** The issues `educationSchema.parse` reports, in order. */
  function EducationIssues(e: Education, currentYear: int): seq<Issue> {
    FieldIssues(e, currentYear) + OrderIssues(e)
  }

  predicate EducationValid(e: Education, currentYear: int) {
    EducationIssues(e, currentYear) == []
  }

  /** A year string the field checks accept. */
  predicate YearOk(s: string, max: int) {
    FourDigitPattern(s) && YearInRange(s, max)
  }

  /**
    The schema accepts exactly the entries with school, degree and field of
    study filled in, a four-digit start year from 1900 to the current year,
    a four-digit end year from 1900 to ten years ahead, not before the start
    year, and a name on every certificate; the grade is never checked.
   */
  lemma EducationAcceptedIff(e: Education, currentYear: int)
    ensures EducationValid(e, currentYear) <==>
      && e.school != "" && e.degree != "" && e.field != ""
      && YearOk(e.startYear, currentYear)
      && YearOk(e.endYear, currentYear + FutureYears)
      && DigitsValue(e.startYear) <= DigitsValue(e.endYear)
      && (e.certificates.Some? ==> forall k :: 0 <= k < |e.certificates.value| ==> e.certificates.value[k].name != "")
  {
  }

  /** The grade plays no part. */
  lemma GradeUnchecked(e: Education, currentYear: int, grade: Option<string>)
    ensures EducationIssues(e.(grade := grade), currentYear) == EducationIssues(e, currentYear)
  {
  }

  /**
    When the end year is before the start year, the record-level issue is
    the last one reported, so it is the message shown for `endYear` whatever
    the field checks said.
   */
  lemma EndBeforeStartShown(e: Education, currentYear: int)
    requires EndBeforeStartYear(e.startYear, e.endYear)
    ensures !EducationValid(e, currentYear)
    ensures var errors := ErrorMap(EducationIssues(e, currentYear));
      "endYear" in errors && errors["endYear"] == EndBeforeStart
  {
    var all := EducationIssues(e, currentYear);
    assert all[|all| - 1] == Issue("endYear", EndBeforeStart);
    ErrorMapLastOf(all, [], "endYear", EndBeforeStart);
    assert all + [] == all;
  }

  /**
    The record-level message is reported exactly when both years are
    non-empty numbers and the end year is the smaller; no field check uses
    that message.
   */
  lemma OrderIssueIff(e: Education, currentYear: int)
    ensures Issue("endYear", EndBeforeStart) in EducationIssues(e, currentYear) <==>
      EndBeforeStartYear(e.startYear, e.endYear)
  {
    var target := Issue("endYear", EndBeforeStart);
    var school := Check(|e.school| >= 1, "school", SchoolRequired);
    var degree := Check(|e.degree| >= 1, "degree", DegreeRequired);
    var field := Check(|e.field| >= 1, "field", FieldRequired);
    var start := YearIssues(e.startYear, "startYear", StartYearRequired, currentYear, StartYearRange);
    var end := YearIssues(e.endYear, "endYear", EndYearRequired, currentYear + FutureYears, EndYearRange);
    var certificates := CertificatesIssues(e.certificates);
    assert FieldIssues(e, currentYear) == school + (degree + (field + (start + (end + certificates))));
    assert target !in end by {
      assert |EndBeforeStart| == 33 && |EndYearRequired| == 20 && |FourDigitYear| == 22 && |EndYearRange| == 49;
    }
    assert target !in school && target !in degree && target !in field;
    assert target !in start && target !in certificates;
  }

  /** The start and end year may be equal: a one-year programme passes the order rule. */
  lemma EqualYearsInOrder(y: string)
    ensures !EndBeforeStartYear(y, y)
  {
  }

  /** '2019' as start and '2020' as end are in order; the reverse is refused. */
  lemma YearOrderExamples()
    ensures !EndBeforeStartYear("2019", "2020")
    ensures EndBeforeStartYear("2020", "2019")
  {
    assert DigitsValue("20") == 20 by {
      assert "20"[..1] == "2" && "2"[..0] == "";
      assert DigitsValue("2") == 2;
    }
    assert DigitsValue("201") == 201 by {
      assert "201"[..2] == "20";
    }
    assert DigitsValue("202") == 202 by {
      assert "202"[..2] == "20";
    }
    assert DigitsValue("2019") == 2019 by {
      assert "2019"[..3] == "201";
    }
    assert DigitsValue("2020") == 2020 by {
      assert "2020"[..3] == "202";
    }
  }

  /**
    An empty start year fails all three of its checks (`Number('')` is 0),
    and the range message, reported last, is the one shown.
   */
  lemma EmptyStartYearShowsRange(e: Education, currentYear: int)
    requires e.startYear == ""
    ensures var errors := ErrorMap(EducationIssues(e, currentYear));
      "startYear" in errors && errors["startYear"] == StartYearRange
  {
    var start := YearIssues(e.startYear, "startYear", StartYearRequired, currentYear, StartYearRange);
    var rest := YearIssues(e.endYear, "endYear", EndYearRequired, currentYear + FutureYears, EndYearRange)
      + CertificatesIssues(e.certificates);
    assert start == [Issue("startYear", StartYearRequired), Issue("startYear", FourDigitYear), Issue("startYear", StartYearRange)];
    ErrorMapLastOf(start, rest, "startYear", StartYearRange);
    var front := Check(|e.field| >= 1, "field", FieldRequired);
    ErrorMapKeepsLater(front, start + rest, "startYear");
    var mid := Check(|e.degree| >= 1, "degree", DegreeRequired);
    ErrorMapKeepsLater(mid, front + (start + rest), "startYear");
    var head := Check(|e.school| >= 1, "school", SchoolRequired);
    ErrorMapKeepsLater(head, mid + (front + (start + rest)), "startYear");
    var fields := FieldIssues(e, currentYear);
    assert fields == head + (mid + (front + (start + rest)));
    ErrorMapIgnoresLater(fields, OrderIssues(e), "startYear");
  }
}
