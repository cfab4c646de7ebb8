/**
  The Personal Information step. Its inputs write one field of the stored
  record at a time; its submit handler validates the stored record, and
  either advances the step or shows the schema's messages, one per field.
 */
module PersonalInfoScreen {
  import opened Js
  import opened FormTypes
  import opened Issues
  import opened PersonalInfoSchema
  import opened Age
  import opened FormState

  /** The keys of `PersonalInfo` the inputs write. */
  datatype PersonalField = FullName | Email | Phone | Dob | Gender | Location | EducationLevel

  /** The value a key holds; `None` for an absent optional key. */
  function FieldValue(p: PersonalInfo, f: PersonalField): Option<string> {
    match f
    case FullName => Some(p.fullName)
    case Email => Some(p.email)
    case Phone => Some(p.phone)
    case Dob => p.dob
    case Gender => Some(p.gender)
    case Location => Some(p.location)
    case EducationLevel => p.educationLevel
  }

  /** `{ ...personalInfo, [field]: value }`. */
  function WithField(p: PersonalInfo, f: PersonalField, value: string): (r: PersonalInfo)
    ensures FieldValue(r, f) == Some(value)
    ensures forall g :: g != f ==> FieldValue(r, g) == FieldValue(p, g)
  {
    match f
    case FullName => p.(fullName := value)
    case Email => p.(email := value)
    case Phone => p.(phone := value)
    case Dob => p.(dob := Some(value))
    case Gender => p.(gender := value)
    case Location => p.(location := value)
    case EducationLevel => p.(educationLevel := Some(value))
  }

  /** Writing a field twice keeps the second value only. */
  lemma WithFieldOverwrites(p: PersonalInfo, f: PersonalField, v: string, w: string)
    ensures WithField(WithField(p, f, v), f, w) == WithField(p, f, w)
  {
  }

  /** The values the education level select offers, in the order it lists them. */
  const LevelOptions: seq<string> := ["High School", "Undergraduate", "Graduate or higher"]

  /**
    Every level the select offers passes the schema's enum, so choosing one
    never produces an `educationLevel` issue; the values are exactly the
    three labels of `EducationLevel`.
   */
  lemma OfferedLevelsAccepted(p: PersonalInfo, k: int)
    requires 0 <= k < |LevelOptions|
    ensures EducationLevelIssues(WithField(p, EducationLevel, LevelOptions[k]).educationLevel) == []
    ensures forall l: EducationLevel :: l.Label() in LevelOptions
  {
  }

  /** `personalInfo.dob && ... calculateAge(personalInfo.dob)`: the age line, when it is drawn. */
  function AgeLine(p: PersonalInfo, env: Env): (r: Option<Option<int>>)
    ensures r.Some? <==> p.dob.Some? && p.dob.value != ""
    ensures r.Some? ==> r.value == CalculateAge(p.dob.value, env)
  {
    if p.dob.Some? && p.dob.value != "" then Some(CalculateAge(p.dob.value, env)) else None
  }

  /** The record the store starts with cannot pass: its name, e-mail, phone and location are empty. */
  lemma InitialPersonalInfoRejected(env: Env)
    ensures !PersonalInfoValid(InitialPersonalInfo(), env)
    ensures AgeLine(InitialPersonalInfo(), env).None?
  {
  }

  class PersonalInfoStep {
    const store: FormStore
    var errors: map<string, string>

    constructor(store: FormStore)
      ensures this.store == store && errors == map[]
    {
      this.store := store;
      errors := map[];
    }

    /**
      Advance by one exactly when the schema accepts the stored record, and
      then clear the messages; otherwise keep the step and show, for each
      field, the last message reported on it.
     */
    method HandleSubmit(env: Env)
      modifies this, store
      ensures var issues := PersonalInfoIssues(old(store.personalInfo), env);
        if issues == [] then
          errors == map[] && store.Snapshot() == old(store.Snapshot()).(step := old(store.step) + 1)
        else
          errors == ErrorMap(issues) && store.Snapshot() == old(store.Snapshot())
    {
      var issues := PersonalInfoIssues(store.personalInfo, env);
      if issues == [] {
        errors := map[];
        store.NextStep();
      } else {
        errors := FormatErrors(issues);
      }
    }

    method HandleChange(f: PersonalField, value: string)
      modifies store
      ensures store.Snapshot() == old(store.Snapshot()).(personalInfo := WithField(old(store.personalInfo), f, value))
    {
      store.SetPersonalInfo(WithField(store.personalInfo, f, value));
    }
  }
}
