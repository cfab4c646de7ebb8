/**
  The References step. A check box switches the skip flag; while it is on
  the add form is not drawn, and moving on needs no reference. Turning it
  on keeps the references already added.
 */
module ReferencesScreen {
  import opened Js
  import opened FormTypes
  import opened Issues
  import opened ReferenceSchema
  import opened FormState

  const AtLeastOneReference := "At least one reference is required unless skipped"

  function DefaultReferenceDraft(): Reference {
    Reference(name := "", relationship := "", company := "", contact := "")
  }

  /** `!skipReferences && (...the add form...)`. */
  predicate AddFormOffered(d: FormData) {
    !d.skipReferences
  }

  /** The forward button blocks exactly when references are neither skipped nor present. */
  predicate SubmitBlocks(d: FormData) {
    !d.skipReferences && |d.references| == 0
  }

  /** The default draft cannot be added: every field is empty. */
  lemma DefaultDraftRejected()
    ensures !ReferenceValid(DefaultReferenceDraft())
  {
  }

  class ReferencesStep {
    const store: FormStore
    var draft: Reference
    var errors: map<string, string>

    constructor(store: FormStore)
      ensures this.store == store && draft == DefaultReferenceDraft() && errors == map[]
    {
      this.store := store;
      draft := DefaultReferenceDraft();
      errors := map[];
    }

    method SetDraft(d: Reference)
      modifies this
      ensures draft == d && errors == old(errors)
    {
      draft := d;
    }

    /** A draft the schema accepts is appended and the form cleared; otherwise its messages are shown. */
    method HandleAdd()
      modifies this, store
      ensures var issues := ReferenceIssues(old(draft));
        if issues == [] then
          && store.Snapshot() == old(store.Snapshot()).(references := old(store.references) + [old(draft)])
          && errors == map[] && draft == DefaultReferenceDraft()
        else
          && store.Snapshot() == old(store.Snapshot())
          && errors == ErrorMap(issues) && draft == old(draft)
    {
      var issues := ReferenceIssues(draft);
      if issues == [] {
        store.AddReference(draft);
        errors := map[];
        draft := DefaultReferenceDraft();
      } else {
        errors := FormatErrors(issues);
      }
    }

    method HandleSubmit()
      modifies this`errors, store
      ensures draft == old(draft)
      ensures SubmitBlocks(old(store.Snapshot())) ==>
        errors == map["name" := AtLeastOneReference] && store.Snapshot() == old(store.Snapshot())
      ensures !SubmitBlocks(old(store.Snapshot())) ==>
        errors == old(errors) && store.Snapshot() == old(store.Snapshot()).(step := old(store.step) + 1)
    {
      if !store.skipReferences && |store.references| == 0 {
        errors := map["name" := AtLeastOneReference];
        return;
      }
      store.NextStep();
    }

    /** The check box sets the flag and nothing else: added references stay. */
    method HandleSkipChange(checked: bool)
      modifies store
      ensures store.Snapshot() == old(store.Snapshot()).(skipReferences := checked)
      ensures store.references == old(store.references)
      ensures AddFormOffered(store.Snapshot()) <==> !checked
    {
      store.SetSkipReferences(checked);
    }

    method HandlePrevious()
      modifies store
      ensures store.Snapshot() == old(store.Snapshot()).(step := old(store.step) - 1)
    {
      store.PrevStep();
    }
  }

  /** With skipping on, the step never blocks, with or without references. */
  lemma SkipNeverBlocks(d: FormData)
    requires d.skipReferences
    ensures !SubmitBlocks(d) && !AddFormOffered(d)
  {
  }
}
