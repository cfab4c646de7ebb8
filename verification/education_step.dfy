/**
  The Education step. Adding first compares the two year strings as
  strings and, when the start sorts after the end, writes a message for
  the start year; it then validates the draft with the education schema
  and writes the messages again, so that first write never survives.
  Moving on requires at least one entry, whatever the education level.
 */
module EducationScreen {
  import opened Js
  import opened FormTypes
  import opened Issues
  import opened EducationSchema
  import opened FormState

  const YearsOutOfOrder := "It must be appropriate"
  const AtLeastOneEducation := "At least one education entry is required"
  const NextLabel := "Next"
  const SkipLabel := "Skip Education"

  function DefaultEducationDraft(): Education {
    Education(
      school := "", degree := "", field := "", startYear := "", endYear := "",
      grade := Some(""), certificates := Some([]))
  }

  /** The caption of the forward button: 'Skip Education' while the list is empty. */
  function SubmitLabel(educations: seq<Education>): (caption: string)
    ensures caption == SkipLabel <==> educations == []
  {
    if |educations| > 0 then NextLabel else SkipLabel
  }

  class EducationStep {
    const store: FormStore
    var draft: Education
    var errors: map<string, string>

    constructor(store: FormStore)
      ensures this.store == store && draft == DefaultEducationDraft() && errors == map[]
    {
      this.store := store;
      draft := DefaultEducationDraft();
      errors := map[];
    }

    method SetDraft(d: Education)
      modifies this
      ensures draft == d && errors == old(errors)
    {
      draft := d;
    }

    /**
      The outcome depends on the schema alone: a valid draft is appended and
      the form cleared, an invalid one leaves the store and the draft and
      shows the schema's messages. The string comparison of the years leaves
      no trace.
     */
    method HandleAdd(env: Env)
      modifies this, store
      ensures var issues := EducationIssues(old(draft), env.currentYear);
        if issues == [] then
          && store.Snapshot() == old(store.Snapshot()).(educations := old(store.educations) + [old(draft)])
          && errors == map[] && draft == DefaultEducationDraft()
        else
          && store.Snapshot() == old(store.Snapshot())
          && errors == ErrorMap(issues) && draft == old(draft)
    {
      if StringGreater(draft.startYear, draft.endYear) {
        errors := map["startYear" := YearsOutOfOrder];
      }
      var issues := EducationIssues(draft, env.currentYear);
      if issues == [] {
        store.AddEducation(draft);
        errors := map[];
        draft := DefaultEducationDraft();
      } else {
        errors := FormatErrors(issues);
      }
    }

    /**
      An empty list blocks, even while the button reads 'Skip Education' and
      whatever level of education was declared; any entry lets the step
      advance by one.
     */
    method HandleSubmit()
      modifies this`errors, store
      ensures draft == old(draft)
      ensures SubmitLabel(old(store.educations)) == SkipLabel ==>
        errors == map["school" := AtLeastOneEducation] && store.Snapshot() == old(store.Snapshot())
      ensures |old(store.educations)| > 0 ==>
        errors == old(errors) && store.Snapshot() == old(store.Snapshot()).(step := old(store.step) + 1)
    {
      if |store.educations| == 0 {
        errors := map["school" := AtLeastOneEducation];
        return;
      }
      store.NextStep();
    }

    method HandlePrevious()
      modifies store
      ensures store.Snapshot() == old(store.Snapshot()).(step := old(store.step) - 1)
    {
      store.PrevStep();
    }
  }

  /**
    The string comparison disagrees with the numeric rule: '999' sorts after
    '1000' although it is the smaller number, and '2019' against '2020' is
    rightly not flagged.
   */
  lemma StringOrderExamples()
    ensures StringGreater("999", "1000")
    ensures !StringGreater("2019", "2020")
  {
    assert "999"[1..] == "99" && "1000"[1..] == "000";
    assert "2019"[1..] == "019" && "2020"[1..] == "020";
    assert "019"[1..] == "19" && "020"[1..] == "20";
  }

  /** The default draft cannot be added: school, degree, field and both years are empty. */
  lemma DefaultDraftRejected(currentYear: int)
    ensures !EducationValid(DefaultEducationDraft(), currentYear)
  {
  }
}
