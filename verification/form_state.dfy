/**
  The form store (`useFormStore`): one record of form data and the actions
  that replace its slices. Each action hands `set` a partial record, which
  is merged into the state, so an action changes its own field and no
  other. Nothing bounds the step: it moves by one or jumps to any number.
 */
module FormState {
  import opened Js
  import opened FormTypes
  import opened SeqOps

  /** The data part of the store. */
  datatype FormData = FormData(
    step: int,
    personalInfo: PersonalInfo,
    experiences: seq<Experience>,
    educations: seq<Education>,
    skills: seq<Skill>,
    references: seq<Reference>,
    skipReferences: bool)

  /** The personal information the store starts with: empty texts, no date of birth. */
  function InitialPersonalInfo(): PersonalInfo {
    PersonalInfo(
      fullName := "", email := "", phone := "", dob := None,
      gender := PreferNotToSay.Label(), location := "",
      educationLevel := Some(HighSchool.Label()))
  }

  function InitialFormData(): FormData {
    FormData(1, InitialPersonalInfo(), [], [], [], [], false)
  }

  /**
    The store starts on step 1 with no entries and references not skipped;
    its gender and education level are members of their unions, the
    defaults 'Prefer not to say' and 'High School'.
   */
  lemma InitialState()
    ensures var d := InitialFormData();
      && d.step == 1
      && d.experiences == [] && d.educations == [] && d.skills == [] && d.references == []
      && !d.skipReferences
      && GenderOf(d.personalInfo.gender) == Some(PreferNotToSay)
      && d.personalInfo.educationLevel.Some?
      && EducationLevelOf(d.personalInfo.educationLevel.value) == Some(HighSchool)
      && d.personalInfo.dob.None?
  {
    GenderLabelRoundTrip(PreferNotToSay);
    EducationLevelLabelRoundTrip(HighSchool);
  }

  class FormStore {
    var step: int
    var personalInfo: PersonalInfo
    var experiences: seq<Experience>
    var educations: seq<Education>
    var skills: seq<Skill>
    var references: seq<Reference>
    var skipReferences: bool

    function Snapshot(): FormData
      reads this
    {
      FormData(step, personalInfo, experiences, educations, skills, references, skipReferences)
    }

    constructor()
      ensures Snapshot() == InitialFormData()
    {
      step := 1;
      personalInfo := InitialPersonalInfo();
      experiences := [];
      educations := [];
      skills := [];
      references := [];
      skipReferences := false;
    }

    method SetPersonalInfo(data: PersonalInfo)
      modifies this
      ensures Snapshot() == old(Snapshot()).(personalInfo := data)
    {
      personalInfo := data;
    }

    method AddExperience(data: Experience)
      modifies this
      ensures Snapshot() == old(Snapshot()).(experiences := old(experiences) + [data])
    {
      experiences := experiences + [data];
    }

    method UpdateExperience(index: int, data: Experience)
      modifies this
      ensures Snapshot() == old(Snapshot()).(experiences := Replaced(old(experiences), index, data))
    {
      experiences := Replaced(experiences, index, data);
    }

    method RemoveExperience(index: int)
      modifies this
      ensures Snapshot() == old(Snapshot()).(experiences := Without(old(experiences), index))
    {
      experiences := Without(experiences, index);
    }

    method AddEducation(data: Education)
      modifies this
      ensures Snapshot() == old(Snapshot()).(educations := old(educations) + [data])
    {
      educations := educations + [data];
    }

    method UpdateEducation(index: int, data: Education)
      modifies this
      ensures Snapshot() == old(Snapshot()).(educations := Replaced(old(educations), index, data))
    {
      educations := Replaced(educations, index, data);
    }

    method RemoveEducation(index: int)
      modifies this
      ensures Snapshot() == old(Snapshot()).(educations := Without(old(educations), index))
    {
      educations := Without(educations, index);
    }

    method SetSkills(newSkills: seq<Skill>)
      modifies this
      ensures Snapshot() == old(Snapshot()).(skills := newSkills)
    {
      skills := newSkills;
    }

    method AddReference(data: Reference)
      modifies this
      ensures Snapshot() == old(Snapshot()).(references := old(references) + [data])
    {
      references := references + [data];
    }

    method UpdateReference(index: int, data: Reference)
      modifies this
      ensures Snapshot() == old(Snapshot()).(references := Replaced(old(references), index, data))
    {
      references := Replaced(references, index, data);
    }

    method RemoveReference(index: int)
      modifies this
      ensures Snapshot() == old(Snapshot()).(references := Without(old(references), index))
    {
      references := Without(references, index);
    }

    method SetSkipReferences(skip: bool)
      modifies this
      ensures Snapshot() == old(Snapshot()).(skipReferences := skip)
    {
      skipReferences := skip;
    }

    /** No upper bound: from step 7 this goes to 8. */
    method NextStep()
      modifies this
      ensures Snapshot() == old(Snapshot()).(step := old(step) + 1)
    {
      step := step + 1;
    }

    /** No lower bound: from step 1 this goes to 0. */
    method PrevStep()
      modifies this
      ensures Snapshot() == old(Snapshot()).(step := old(step) - 1)
    {
      step := step - 1;
    }

    /** Any number is taken as it is. */
    method GoToStep(n: int)
      modifies this
      ensures Snapshot() == old(Snapshot()).(step := n)
    {
      step := n;
    }
  }

  /** Going forward and back again returns to the same step and the same data. */
  method NextThenPrevious(store: FormStore)
    modifies store
    ensures store.Snapshot() == old(store.Snapshot())
  {
    store.NextStep();
    store.PrevStep();
  }

  /** Adding an entry and removing the last position restores the list. */
  method AddThenRemoveLast(store: FormStore, data: Experience)
    modifies store
    ensures store.Snapshot() == old(store.Snapshot())
  {
    store.AddExperience(data);
    store.RemoveExperience(|store.experiences| - 1);
    WithoutUndoesAppend(old(store.experiences), data);
  }
}
