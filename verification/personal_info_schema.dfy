/**
  `personalInfoSchema`: the rules on the personal information record. zod
  checks the declared keys in order and runs every check of a string even
  after an earlier one failed, so one field can report two issues. `gender`
  and `dob` are not declared keys: they are stripped, never checked.
 */
module PersonalInfoSchema {
  import opened Js
  import opened FormTypes
  import opened Issues
  import opened Patterns

  const FullNameRequired := "Full name is required"
  const FullNameLettersOnly := "Only letters & Spaces are Allowed"
  const EmailRequired := "Email is required"
  const EmailInvalid := "Invalid email address"
  const PhoneRequired := "Phone number is required"
  const PhoneInvalid := "Invalid phone number"
  const LocationRequired := "Location is required"

  const EducationLevelLabels: seq<string> := ["High School", "Undergraduate", "Graduate or higher"]

  /** `educationLevel: z.enum([...]).optional()`: absent is fine, present must be a label. */
  function EducationLevelIssues(level: Option<string>): seq<Issue> {
    match level
    case None => []
    case Some(v) =>
      Check(EducationLevelOf(v).Some?, "educationLevel", EnumMessage(EducationLevelLabels, v))
  }

  function FullNameIssues(fullName: string): seq<Issue> {
    Check(|fullName| >= 1, "fullName", FullNameRequired)
    + Check(FullNamePattern(fullName), "fullName", FullNameLettersOnly)
  }

  function EmailIssues(email: string, env: Env): seq<Issue> {
    Check(|email| >= 1, "email", EmailRequired) + Check(env.isEmail(email), "email", EmailInvalid)
  }

  function PhoneIssues(phone: string): seq<Issue> {
    Check(|phone| >= 1, "phone", PhoneRequired) + Check(PhonePatternAsWritten(phone), "phone", PhoneInvalid)
  }

  /** The keys the schema declares; `gender` and `dob` are not among them. */
  const PersonalInfoKeys: seq<string> := ["fullName", "email", "phone", "location", "educationLevel"]

  /** The issues `personalInfoSchema.parse` reports, in the order zod reports them. */
  function PersonalInfoIssues(p: PersonalInfo, env: Env): seq<Issue> {
    FullNameIssues(p.fullName)
    + (EmailIssues(p.email, env)
    + (PhoneIssues(p.phone)
    + (Check(|p.location| >= 1, "location", LocationRequired)
    + EducationLevelIssues(p.educationLevel))))
  }

  predicate PersonalInfoValid(p: PersonalInfo, env: Env) {
    PersonalInfoIssues(p, env) == []
  }

  /**
    The schema accepts exactly the records whose name is letters and spaces,
    whose e-mail is non-empty and passes zod's e-mail test, whose phone
    matches the literal pattern, whose location is non-empty and whose
    education level, if any, is one of the three labels.
   */
  lemma PersonalInfoAcceptedIff(p: PersonalInfo, env: Env)
    ensures PersonalInfoValid(p, env) <==>
      && FullNamePattern(p.fullName)
      && |p.email| >= 1 && env.isEmail(p.email)
      && PhonePatternAsWritten(p.phone)
      && |p.location| >= 1
      && (p.educationLevel.Some? ==> p.educationLevel.value in EducationLevelLabels)
  {
  }

  /** Each required-field message is reported exactly when its field is empty. */
  lemma RequiredMessages(p: PersonalInfo, env: Env)
    ensures Issue("fullName", FullNameRequired) in PersonalInfoIssues(p, env) <==> p.fullName == ""
    ensures Issue("email", EmailRequired) in PersonalInfoIssues(p, env) <==> p.email == ""
    ensures Issue("phone", PhoneRequired) in PersonalInfoIssues(p, env) <==> p.phone == ""
    ensures Issue("location", LocationRequired) in PersonalInfoIssues(p, env) <==> p.location == ""
  {
    var name, email, phone := FullNameIssues(p.fullName), EmailIssues(p.email, env), PhoneIssues(p.phone);
    var location := Check(|p.location| >= 1, "location", LocationRequired);
    var level := EducationLevelIssues(p.educationLevel);
    assert PersonalInfoIssues(p, env) == name + (email + (phone + (location + level)));
    OnlyOn(name, "fullName", Issue("email", EmailRequired));
    OnlyOn(name, "fullName", Issue("phone", PhoneRequired));
    OnlyOn(name, "fullName", Issue("location", LocationRequired));
    OnlyOn(email, "email", Issue("fullName", FullNameRequired));
    OnlyOn(email, "email", Issue("phone", PhoneRequired));
    OnlyOn(email, "email", Issue("location", LocationRequired));
    OnlyOn(phone, "phone", Issue("fullName", FullNameRequired));
    OnlyOn(phone, "phone", Issue("email", EmailRequired));
    OnlyOn(phone, "phone", Issue("location", LocationRequired));
    OnlyOn(location, "location", Issue("fullName", FullNameRequired));
    OnlyOn(location, "location", Issue("email", EmailRequired));
    OnlyOn(location, "location", Issue("phone", PhoneRequired));
    OnlyOn(level, "educationLevel", Issue("fullName", FullNameRequired));
    OnlyOn(level, "educationLevel", Issue("email", EmailRequired));
    OnlyOn(level, "educationLevel", Issue("phone", PhoneRequired));
    OnlyOn(level, "educationLevel", Issue("location", LocationRequired));
  }

  /** Every issue names a declared key: never `gender` nor `dob`. */
  lemma PersonalInfoIssueKeys(p: PersonalInfo, env: Env)
    ensures forall k :: 0 <= k < |PersonalInfoIssues(p, env)| ==> PersonalInfoIssues(p, env)[k].field in PersonalInfoKeys
  {
    var name, email, phone := FullNameIssues(p.fullName), EmailIssues(p.email, env), PhoneIssues(p.phone);
    var location := Check(|p.location| >= 1, "location", LocationRequired);
    var level := EducationLevelIssues(p.educationLevel);
    assert PersonalInfoIssues(p, env) == name + (email + (phone + (location + level)));
  }

  /** A list whose issues are all on one field holds no issue on another. */
  lemma OnlyOn(issues: seq<Issue>, f: string, x: Issue)
    requires forall k :: 0 <= k < |issues| ==> issues[k].field == f
    requires x.field != f
    ensures x !in issues
  {
  }

  /** The letters-only message is reported exactly when some character is not a letter or space (or the name is empty). */
  lemma FullNameLettersMessage(p: PersonalInfo, env: Env)
    ensures Issue("fullName", FullNameLettersOnly) in PersonalInfoIssues(p, env) <==>
      (p.fullName == "" || exists i :: 0 <= i < |p.fullName| && !IsAsciiLetter(p.fullName[i]) && !IsJsWhitespace(p.fullName[i]))
  {
  }

  /**
    For an empty full name both checks fail and the letters-only message is
    the later one, so it is the message the Personal step shows; the
    "required" message never reaches the screen.
   */
  lemma EmptyFullNameShowsLettersMessage(p: PersonalInfo, env: Env)
    requires p.fullName == ""
    ensures Issue("fullName", FullNameRequired) in PersonalInfoIssues(p, env)
    ensures var errors := ErrorMap(PersonalInfoIssues(p, env));
      "fullName" in errors && errors["fullName"] == FullNameLettersOnly
  {
    var head := FullNameIssues(p.fullName);
    var tail := EmailIssues(p.email, env)
      + (PhoneIssues(p.phone)
      + (Check(|p.location| >= 1, "location", LocationRequired)
      + EducationLevelIssues(p.educationLevel)));
    assert head == [Issue("fullName", FullNameRequired), Issue("fullName", FullNameLettersOnly)];
    ErrorMapLastOf(head, tail, "fullName", FullNameLettersOnly);
  }

  /** The placeholder shown in the phone box, '+919820202034', is refused with 'Invalid phone number'. */
  lemma PlaceholderPhoneRejected(p: PersonalInfo, env: Env)
    requires p.phone == "+919820202034"
    ensures !PersonalInfoValid(p, env)
    ensures var errors := ErrorMap(PersonalInfoIssues(p, env));
      "phone" in errors && errors["phone"] == PhoneInvalid
  {
    PlaceholderPhone();
    var phone := PhoneIssues(p.phone);
    var rest := Check(|p.location| >= 1, "location", LocationRequired)
      + EducationLevelIssues(p.educationLevel);
    assert phone == [Issue("phone", PhoneInvalid)];
    ErrorMapLastOf(phone, rest, "phone", PhoneInvalid);
    ErrorMapKeepsLater(EmailIssues(p.email, env), phone + rest, "phone");
    ErrorMapKeepsLater(FullNameIssues(p.fullName), EmailIssues(p.email, env) + (phone + rest), "phone");
  }

  /** Neither gender nor date of birth can make the schema report anything. */
  lemma GenderAndDobUnchecked(p: PersonalInfo, env: Env, gender: string, dob: Option<string>)
    ensures PersonalInfoIssues(p.(gender := gender, dob := dob), env) == PersonalInfoIssues(p, env)
  {
  }
}
