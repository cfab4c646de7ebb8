/**
  The Work Experience step. Adding validates the draft with the experience
  schema, then checks the list with the draft appended for overlapping
  dates, and only then commits the draft to the store. Moving on requires
  at least one committed experience.
 */
module ExperienceScreen {
  import opened Js
  import opened FormTypes
  import opened Issues
  import opened ExperienceSchema
  import opened ValidateDates
  import opened FormState

  const OverlapMessage := "Experience dates overlap with existing entries"
  const AtLeastOneExperience := "At least one experience is required"

  /** The draft the form starts with and returns to after a commit. */
  function DefaultExperienceDraft(): Experience {
    Experience(
      jobTitle := "", company := "", employmentType := "Full-time",
      startDate := "", endDate := Some(""), currentlyWorking := false,
      responsibilities := "")
  }

  /** The values the employment type select offers, in order. */
  const EmploymentTypeOptions: seq<string> := ["Full-time", "Part-time", "Internship", "Contract", "Freelance"]

  /**
    Of the five offered values exactly the first two are outside the schema's
    enum, and the default draft uses the first, so it can never be added.
   */
  lemma OfferedTypes()
    ensures forall k :: 0 <= k < |EmploymentTypeOptions| ==>
      (EmploymentTypeOf(EmploymentTypeOptions[k]).Some? <==> k >= 2)
    ensures !ExperienceValid(DefaultExperienceDraft())
  {
    EmploymentTypeCaseSensitive();
  }

  class ExperienceStep {
    const store: FormStore
    var draft: Experience
    var errors: map<string, string>
    var overlapError: string

    constructor(store: FormStore)
      ensures this.store == store && draft == DefaultExperienceDraft()
      ensures errors == map[] && overlapError == ""
    {
      this.store := store;
      draft := DefaultExperienceDraft();
      errors := map[];
      overlapError := "";
    }

    /** Any edit of the form replaces the draft. */
    method SetDraft(d: Experience)
      modifies this
      ensures draft == d && errors == old(errors) && overlapError == old(overlapError)
    {
      draft := d;
    }

    /**
      A draft the schema refuses leaves the store and the overlap message as
      they were and shows the schema's messages. A valid draft that would
      overlap an entry leaves the store and the field messages as they were
      and shows the overlap message. Otherwise the draft is appended, both
      messages are cleared and the draft is reset.
     */
    method HandleAdd(env: Env)
      modifies this, store
      ensures var issues := ExperienceIssues(old(draft));
        issues != [] ==>
          && store.Snapshot() == old(store.Snapshot())
          && errors == ErrorMap(issues) && overlapError == old(overlapError) && draft == old(draft)
      ensures var appended := old(store.experiences) + [old(draft)];
        ExperienceValid(old(draft)) && HasOverlap(appended, env) ==>
          && store.Snapshot() == old(store.Snapshot())
          && errors == old(errors) && overlapError == OverlapMessage && draft == old(draft)
      ensures var appended := old(store.experiences) + [old(draft)];
        ExperienceValid(old(draft)) && !HasOverlap(appended, env) ==>
          && store.Snapshot() == old(store.Snapshot()).(experiences := appended)
          && errors == map[] && overlapError == "" && draft == DefaultExperienceDraft()
      ensures !HasOverlap(old(store.experiences), env) ==> !HasOverlap(store.experiences, env)
    {
      var issues := ExperienceIssues(draft);
      if issues != [] {
        errors := FormatErrors(issues);
        return;
      }
      var appended := store.experiences + [draft];
      var overlapping := HasOverlappingDates(appended, env);
      if overlapping {
        overlapError := OverlapMessage;
        return;
      }
      store.AddExperience(draft);
      errors := map[];
      overlapError := "";
      draft := DefaultExperienceDraft();
    }

    /** Moving on needs at least one committed experience. */
    method HandleSubmit()
      modifies this`errors, store
      ensures draft == old(draft) && overlapError == old(overlapError)
      ensures |old(store.experiences)| == 0 ==>
        errors == map["jobTitle" := AtLeastOneExperience] && store.Snapshot() == old(store.Snapshot())
      ensures |old(store.experiences)| > 0 ==>
        errors == old(errors) && store.Snapshot() == old(store.Snapshot()).(step := old(store.step) + 1)
    {
      if |store.experiences| == 0 {
        errors := map["jobTitle" := AtLeastOneExperience];
        return;
      }
      store.NextStep();
    }

    method HandlePrevious()
      modifies store
      ensures store.Snapshot() == old(store.Snapshot()).(step := old(store.step) - 1)
    {
      store.PrevStep();
    }
  }

  /**
    Whatever the draft, committing it after the two checks never creates an
    overlap in a list that had none: the list after a commit is exactly the
    appended list that was checked.
   */
  lemma CommitKeepsOverlapFree(list: seq<Experience>, draft: Experience, env: Env)
    requires !HasOverlap(list + [draft], env)
    ensures !HasOverlap(list, env)
    ensures forall i | 0 <= i < |list| :: !PairOverlaps(list[i], draft, env)
  {
    HasOverlapAppend(list, draft, env);
  }
}
