/**
  The Submit step. `validateAll` re-checks every section of the store and
  lists what is wrong, section by section; submitting succeeds only with
  an empty list and the terms accepted.
 */
module SubmitScreen {
  import opened Js
  import opened FormTypes
  import opened Issues
  import opened PersonalInfoSchema
  import opened ExperienceSchema
  import opened EducationSchema
  import opened ReferenceSchema
  import opened FormState

  const PersonalInvalid := "Personal Information is incomplete or invalid"
  const NoExperience := "At least one experience is required"
  const NoEducation := "At least one education entry is required"
  const NoReference := "At least one reference is required unless skipped"
  const TermsRequired := "You must agree to the terms and conditions"

  /** `${section} entry ${k} is invalid`. */
  function EntryMessage(section: string, k: nat): string {
    section + " entry " + NatToString(k) + " is invalid"
  }

  /** Messages naming different entries differ. */
  lemma EntryMessageInjective(section: string, k: nat, m: nat)
    requires EntryMessage(section, k) == EntryMessage(section, m)
    ensures k == m
  {
    CancelAround(section + " entry ", NatToString(k), NatToString(m), " is invalid");
    NatToStringInjective(k, m);
  }

  /** The same text around two strings of equal length pins them down. */
  lemma CancelAround(front: string, a: string, b: string, back: string)
    requires front + a + back == front + b + back
    ensures a == b
  {
    var s, t := front + a + back, front + b + back;
    assert |a| == |b|;
    forall i | 0 <= i < |a|
      ensures a[i] == b[i]
    {
      assert s[|front| + i] == a[i];
      assert t[|front| + i] == b[i];
    }
  }

  /**
    The `forEach` over one list: a message for each entry the schema
    refuses, numbered from 1, in list order.
   */
  function InvalidEntries<T>(items: seq<T>, valid: T -> bool, section: string): (r: seq<string>)
    ensures |r| <= |items|
    ensures r == [] <==> forall i :: 0 <= i < |items| ==> valid(items[i])
    decreases |items|
  {
    if items == [] then []
    else
      var n := |items|;
      var front := InvalidEntries(items[..n - 1], valid, section);
      assert forall i :: 0 <= i < n - 1 ==> items[..n - 1][i] == items[i];
      front + (if valid(items[n - 1]) then [] else [EntryMessage(section, n)])
  }

  /** Entry k is reported exactly when it is refused. */
  lemma {:induction false} InvalidEntriesNames<T>(items: seq<T>, valid: T -> bool, section: string, k: nat)
    ensures EntryMessage(section, k) in InvalidEntries(items, valid, section) <==>
      1 <= k <= |items| && !valid(items[k - 1])
    decreases |items|
  {
    if items != [] {
      var n := |items|;
      var front := items[..n - 1];
      var last := if valid(items[n - 1]) then [] else [EntryMessage(section, n)];
      assert InvalidEntries(items, valid, section) == InvalidEntries(front, valid, section) + last;
      InvalidEntriesNames(front, valid, section, k);
      if EntryMessage(section, k) in last {
        EntryMessageInjective(section, k, n);
      }
      if 1 <= k < n {
        assert front[k - 1] == items[k - 1];
      }
    }
  }

  function ExperienceCheck(): Experience -> bool {
    e => ExperienceValid(e)
  }

  function EducationCheck(currentYear: int): Education -> bool {
    e => EducationValid(e, currentYear)
  }

  function ReferenceCheck(): Reference -> bool {
    r => ReferenceValid(r)
  }

  function PersonalErrors(d: FormData, env: Env): seq<string> {
    if PersonalInfoValid(d.personalInfo, env) then [] else [PersonalInvalid]
  }

  function ExperienceErrors(d: FormData): seq<string> {
    if |d.experiences| == 0 then [NoExperience]
    else InvalidEntries(d.experiences, ExperienceCheck(), "Experience")
  }

  /** The list may be empty unless the declared level is 'Graduate or higher'. */
  function EducationErrors(d: FormData, env: Env): seq<string> {
    if d.personalInfo.educationLevel == Some(GraduateOrHigher.Label()) && |d.educations| == 0 then [NoEducation]
    else InvalidEntries(d.educations, EducationCheck(env.currentYear), "Education")
  }

  function ReferenceErrors(d: FormData): seq<string> {
    if !d.skipReferences && |d.references| == 0 then [NoReference]
    else if !d.skipReferences then InvalidEntries(d.references, ReferenceCheck(), "Reference")
    else []
  }

  /** What `validateAll` returns: personal, then experience, then education, then reference messages. */
  function ValidationErrors(d: FormData, env: Env): seq<string> {
    PersonalErrors(d, env) + (ExperienceErrors(d) + (EducationErrors(d, env) + ReferenceErrors(d)))
  }

  /** The form data `handleSubmit` lets through. */
  predicate Submittable(d: FormData, env: Env) {
    && PersonalInfoValid(d.personalInfo, env)
    && |d.experiences| > 0 && (forall i :: 0 <= i < |d.experiences| ==> ExperienceValid(d.experiences[i]))
    && !(d.personalInfo.educationLevel == Some(GraduateOrHigher.Label()) && |d.educations| == 0)
    && (forall i :: 0 <= i < |d.educations| ==> EducationValid(d.educations[i], env.currentYear))
    && (!d.skipReferences ==>
         |d.references| > 0 && forall i :: 0 <= i < |d.references| ==> ReferenceValid(d.references[i]))
  }

  lemma ExperienceErrorsEmptyIff(d: FormData)
    ensures ExperienceErrors(d) == [] <==>
      |d.experiences| > 0 && forall i :: 0 <= i < |d.experiences| ==> ExperienceValid(d.experiences[i])
  {
    if |d.experiences| > 0 {
      var r := InvalidEntries(d.experiences, ExperienceCheck(), "Experience");
      assert r == [] <==> forall i :: 0 <= i < |d.experiences| ==> ExperienceCheck()(d.experiences[i]);
    }
  }

  lemma EducationErrorsEmptyIff(d: FormData, env: Env)
    ensures EducationErrors(d, env) == [] <==>
      && !(d.personalInfo.educationLevel == Some(GraduateOrHigher.Label()) && |d.educations| == 0)
      && forall i :: 0 <= i < |d.educations| ==> EducationValid(d.educations[i], env.currentYear)
  {
    var r := InvalidEntries(d.educations, EducationCheck(env.currentYear), "Education");
    assert r == [] <==> forall i :: 0 <= i < |d.educations| ==> EducationCheck(env.currentYear)(d.educations[i]);
  }

  lemma ReferenceErrorsEmptyIff(d: FormData)
    ensures ReferenceErrors(d) == [] <==>
      (!d.skipReferences ==>
         |d.references| > 0 && forall i :: 0 <= i < |d.references| ==> ReferenceValid(d.references[i]))
  {
    var r := InvalidEntries(d.references, ReferenceCheck(), "Reference");
    assert r == [] <==> forall i :: 0 <= i < |d.references| ==> ReferenceCheck()(d.references[i]);
  }

  /** The list is empty exactly for data every section accepts. */
  lemma ValidationErrorsEmptyIff(d: FormData, env: Env)
    ensures ValidationErrors(d, env) == [] <==> Submittable(d, env)
  {
    ExperienceErrorsEmptyIff(d);
    EducationErrorsEmptyIff(d, env);
    ReferenceErrorsEmptyIff(d);
    var p, x, e, r := PersonalErrors(d, env), ExperienceErrors(d), EducationErrors(d, env), ReferenceErrors(d);
    assert ValidationErrors(d, env) == p + (x + (e + r));
    assert |p + (x + (e + r))| == |p| + |x| + |e| + |r|;
  }

  /** With references skipped, what they hold cannot change the list. */
  lemma SkipIgnoresReferences(d: FormData, env: Env, references: seq<Reference>)
    requires d.skipReferences
    ensures ValidationErrors(d.(references := references), env) == ValidationErrors(d, env)
  {
  }

  /**
    Invalid personal information contributes one message, at the head of
    the list; the other sections' messages follow it unchanged.
   */
  lemma PersonalMessageFirst(d: FormData, env: Env)
    ensures var rest := ExperienceErrors(d) + (EducationErrors(d, env) + ReferenceErrors(d));
      && (!PersonalInfoValid(d.personalInfo, env) ==>
            ValidationErrors(d, env) == [PersonalInvalid] + rest)
      && (PersonalInfoValid(d.personalInfo, env) ==> ValidationErrors(d, env) == rest)
  {
  }

  /** Entry k of the experiences is reported exactly when the schema refuses it. */
  lemma ExperienceEntryReported(d: FormData, k: nat)
    requires |d.experiences| > 0
    ensures EntryMessage("Experience", k) in ExperienceErrors(d) <==>
      1 <= k <= |d.experiences| && !ExperienceValid(d.experiences[k - 1])
  {
    InvalidEntriesNames(d.experiences, ExperienceCheck(), "Experience", k);
  }

  /** One forEach loop: push a message for each refused entry. */
  method CollectInvalid<T>(items: seq<T>, valid: T -> bool, section: string, errs: seq<string>) returns (out: seq<string>)
    ensures out == errs + InvalidEntries(items, valid, section)
  {
    out := errs;
    var index := 0;
    while index < |items|
      invariant 0 <= index <= |items|
      invariant out == errs + InvalidEntries(items[..index], valid, section)
    {
      ghost var before := InvalidEntries(items[..index], valid, section);
      assert items[..index + 1][..index] == items[..index];
      assert InvalidEntries(items[..index + 1], valid, section) ==
        before + (if valid(items[index]) then [] else [EntryMessage(section, index + 1)]);
      if !valid(items[index]) {
        assert out + [EntryMessage(section, index + 1)] == errs + (before + [EntryMessage(section, index + 1)]);
        out := out + [EntryMessage(section, index + 1)];
      } else {
        assert before + [] == before;
      }
      index := index + 1;
    }
    assert items[..|items|] == items;
  }

  method PushPersonalErrors(d: FormData, env: Env, errs: seq<string>) returns (out: seq<string>)
    ensures out == errs + PersonalErrors(d, env)
  {
    out := errs;
    if !PersonalInfoValid(d.personalInfo, env) {
      out := out + [PersonalInvalid];
    }
  }

  method PushExperienceErrors(d: FormData, errs: seq<string>) returns (out: seq<string>)
    ensures out == errs + ExperienceErrors(d)
  {
    if |d.experiences| == 0 {
      out := errs + [NoExperience];
    } else {
      out := CollectInvalid(d.experiences, ExperienceCheck(), "Experience", errs);
    }
  }

  method PushEducationErrors(d: FormData, env: Env, errs: seq<string>) returns (out: seq<string>)
    ensures out == errs + EducationErrors(d, env)
  {
    if d.personalInfo.educationLevel == Some(GraduateOrHigher.Label()) && |d.educations| == 0 {
      out := errs + [NoEducation];
    } else {
      out := CollectInvalid(d.educations, EducationCheck(env.currentYear), "Education", errs);
    }
  }

  method PushReferenceErrors(d: FormData, errs: seq<string>) returns (out: seq<string>)
    ensures out == errs + ReferenceErrors(d)
  {
    if !d.skipReferences && |d.references| == 0 {
      out := errs + [NoReference];
    } else if !d.skipReferences {
      out := CollectInvalid(d.references, ReferenceCheck(), "Reference", errs);
    } else {
      out := errs;
    }
  }

  /** `validateAll`, pushing onto one list section by section. */
  method ValidateAll(d: FormData, env: Env) returns (errs: seq<string>)
    ensures errs == ValidationErrors(d, env)
  {
    errs := PushPersonalErrors(d, env, []);
    errs := PushExperienceErrors(d, errs);
    errs := PushEducationErrors(d, env, errs);
    errs := PushReferenceErrors(d, errs);
    Regroup(PersonalErrors(d, env), ExperienceErrors(d), EducationErrors(d, env), ReferenceErrors(d));
  }

  lemma Regroup(a: seq<string>, b: seq<string>, c: seq<string>, e: seq<string>)
    ensures ((([] + a) + b) + c) + e == a + (b + (c + e))
  {
  }

  class SubmitStep {
    const store: FormStore
    var termsAgreed: bool
    var errors: seq<string>
    var success: bool

    constructor(store: FormStore)
      ensures this.store == store && !termsAgreed && errors == [] && !success
    {
      this.store := store;
      termsAgreed := false;
      errors := [];
      success := false;
    }

    method SetTermsAgreed(agreed: bool)
      modifies this
      ensures termsAgreed == agreed && errors == old(errors) && success == old(success)
    {
      termsAgreed := agreed;
    }

    /**
      Validation messages win over the terms message, which replaces the
      whole list; success is set only for valid data with the terms accepted.
      The store is not touched.
     */
    method HandleSubmit(env: Env)
      modifies this
      ensures termsAgreed == old(termsAgreed)
      ensures var v := ValidationErrors(store.Snapshot(), env);
        if v != [] then errors == v && success == old(success)
        else if !termsAgreed then errors == [TermsRequired] && success == old(success)
        else errors == [] && success
      ensures !old(success) ==> (success <==> Submittable(store.Snapshot(), env) && termsAgreed)
    {
      var data := store.Snapshot();
      var v := ValidateAll(data, env);
      ValidationErrorsEmptyIff(data, env);
      if |v| > 0 {
        errors := v;
      } else if !termsAgreed {
        errors := [TermsRequired];
      } else {
        errors := [];
        success := true;
      }
      assert store.Snapshot() == data;
    }

    method HandlePrevious()
      modifies store
      ensures store.Snapshot() == old(store.Snapshot()).(step := old(store.step) - 1)
    {
      store.PrevStep();
    }
  }
}
