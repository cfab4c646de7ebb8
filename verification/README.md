# Multi-step form: progression and validation engine

This project models the engine behind the multi-step CV form. That form
walks an applicant through seven screens in order: Personal Information,
Work Experience, Education, Skills, References, Summary and Submit. The
model covers these parts:

- **The form store.** This is a single object holding the current step,
  the personal record, the lists of experiences, educations, skills and
  references, and the "skip references" flag. Its setters replace one
  field each. The model is the class `FormState.FormStore`; each of its
  methods states the whole new store as the old store with one field
  replaced.
- **The five zod schemas.** These are the personal information,
  experience, education (with certificates), reference and skill schemas.
  Each is modelled as a function from a record to the ordered list of
  issues the schema reports, with `(field, message)` pairs and zod's own
  messages. An acceptance lemma then characterises exactly the records
  each schema lets through.
- **The helpers.** These are the date-overlap check (`hasOverlappingDates`),
  the age calculation (`calculateAge`) and the year list
  (`generateYearOptions`).
- **The screens.** Each step component is a class with the component's
  local state as fields and the store as a collaborator. Its handlers are
  methods whose contracts state what the store and the local state become.
  This includes the chip input that edits the skills list, the Summary's
  experience total and edit links, and the Submit screen's full-form check.
- **The step table and progress bar** of `App.tsx`.

Several things outside the program are parameters, gathered in
`Js.Env`:

- the clock (`now`, in milliseconds);
- the current calendar year;
- JavaScript's `new Date(string)` (`parseDate`, where `None` stands for an
  invalid date);
- zod's e-mail test (`isEmail`).

An issue list is turned into the per-field message map the screens show
by keeping the last message for each field (`Issues.ErrorMap`), because
each later assignment overwrites the earlier one.

## Model

| member | source | states |
|---|---|---|
| Js.JsNumber | multi-step-form/src/schemas/educationSchema.ts:14 | `Number(s)` is 0 for the empty string and a non-negative number exactly when every character is a decimal digit |
| Js.NatToStringValue | multi-step-form/src/components/steps/Submit.tsx:39 | the decimal rendering of an entry number reads back as that number |
| Js.NatToStringInjective | multi-step-form/src/components/steps/Submit.tsx:39 | distinct entry numbers render to distinct strings |
| Js.Lower | multi-step-form/src/components/ui/ChipInput.tsx:19 | `toLowerCase` keeps the length and lowers each ASCII capital, leaving every other character alone |
| Js.LowerIdempotent | multi-step-form/src/components/ui/ChipInput.tsx:39-40 | lowering twice is lowering once |
| Js.IncludesEmpty | multi-step-form/src/components/ui/ChipInput.tsx:39 | every string includes the empty string, so an empty box filters nothing out |
| Js.IncludesSelf | multi-step-form/src/components/ui/ChipInput.tsx:39 | every string includes itself |
| FormTypes.GenderOf | multi-step-form/src/types/form.ts:6 | a string is read as a gender only when it is that gender's exact label |
| FormTypes.GenderLabelRoundTrip | multi-step-form/src/types/form.ts:6 | reading a gender's label gives back that gender |
| FormTypes.EducationLevelOf | multi-step-form/src/types/form.ts:8 | a string is read as a level only when it is that level's exact label |
| FormTypes.EducationLevelLabelRoundTrip | multi-step-form/src/types/form.ts:8 | reading a level's label gives back that level |
| FormTypes.EmploymentTypeOf | multi-step-form/src/types/form.ts:14 | a string is read as an employment type exactly when it is one of the five labels, and then as the type with that label |
| FormTypes.EmploymentTypeLabelRoundTrip | multi-step-form/src/types/form.ts:14 | reading a type's label gives back that type |
| FormTypes.EmploymentTypeCaseSensitive | multi-step-form/src/schemas/experienceSchema.ts:10-11 | 'Full-time' and 'Part-time' are not employment types |
| Issues.Check | multi-step-form/src/schemas/personalInfoSchema.ts:6 | a check reports nothing when it holds and exactly its one issue when it fails |
| Issues.Nest | multi-step-form/src/schemas/educationSchema.ts:25 | issues inside the certificate array keep their messages and their order, re-rooted under `certificates` |
| Issues.ErrorMapDomain | multi-step-form/src/components/steps/PersonalInfoStep.tsx:22-25 | a field has a shown message exactly when some issue is on that field |
| Issues.ErrorMapLastWins | multi-step-form/src/components/steps/PersonalInfoStep.tsx:22-25 | the message shown for a field is that of the last issue on it |
| Issues.ErrorMapLastOf | multi-step-form/src/components/steps/PersonalInfoStep.tsx:22-25 | a field's last issue in a prefix is shown when no later issue is on that field |
| Issues.ErrorMapIgnoresLater | multi-step-form/src/components/steps/PersonalInfoStep.tsx:22-25 | later issues on other fields change neither whether nor what a field shows |
| Issues.ErrorMapKeepsLater | multi-step-form/src/components/steps/PersonalInfoStep.tsx:22-25 | a field with a message in a suffix shows that message whatever the prefix says |
| Issues.FormatErrors | multi-step-form/src/components/steps/PersonalInfoStep.tsx:22-25 | the reduce loop builds exactly the last-message-per-field map |
| Issues.ErrorMap | multi-step-form/src/components/steps/PersonalInfoStep.tsx:22-25 | the `reduce` that writes each issue's message under its field, later issues overwriting earlier ones; its keys and values are stated by `ErrorMapDomain` and `ErrorMapLastWins` |
| Patterns.FullNamePattern | multi-step-form/src/schemas/personalInfoSchema.ts:7 | `^[a-zA-Z\s]+$`: one or more characters, each an ASCII letter or JavaScript white space |
| Patterns.IntlPhonePattern | multi-step-form/src/schemas/referenceSchema.ts:9 | `^\+?[1-9]\d{1,14}$`: an optional plus, then 2 to 15 digits, the first not 0 |
| Patterns.BasicEmailPattern | multi-step-form/src/schemas/referenceSchema.ts:9 | `^[^@]+@[^@]+\.[^@]+$` by the positions of its `@` and of a `.` after it; `BasicEmailPatternParts` proves it equal to the concatenation reading |
| Patterns.FourDigitPattern | multi-step-form/src/schemas/educationSchema.ts:12 | `^\d{4}$`: exactly four ASCII digits |
| Patterns.NoNumericPhoneMatchesAsWritten | multi-step-form/src/schemas/personalInfoSchema.ts:15 | the phone pattern as written (`\d{1, 14}` with a space, which is literal text) is matched by no all-digit number, with or without a leading '+' |
| Patterns.PhonePatternAsWritten | multi-step-form/src/schemas/personalInfoSchema.ts:15 | `^\+?[1-9]\d{1, 14}$` as a JavaScript engine reads it: the braces with a space are literal text after a single digit |
| Patterns.PlaceholderPhone | multi-step-form/src/schemas/personalInfoSchema.ts:15 | the placeholder number fails the personal phone pattern but passes the reference contact's international pattern |
| Patterns.PhoneAsWrittenExample | multi-step-form/src/schemas/personalInfoSchema.ts:15 | the literal text '+91{1, 14}' matches the phone pattern as written |
| Patterns.BasicEmailPatternParts | multi-step-form/src/schemas/referenceSchema.ts:9 | `^[^@]+@[^@]+\.[^@]+$` matches exactly the strings a@c.d with a, c and d non-empty and free of '@' |
| PersonalInfoSchema.PersonalInfoIssues | multi-step-form/src/schemas/personalInfoSchema.ts:3-22 | the issues `parse` reports, key by key in declaration order, every check of a string run even after one fails; characterised by `PersonalInfoAcceptedIff` |
| PersonalInfoSchema.PersonalInfoAcceptedIff | multi-step-form/src/schemas/personalInfoSchema.ts:3-22 | the schema accepts exactly: a name of letters and white space, a non-empty e-mail passing zod's test, a phone matching the literal pattern, a non-empty location, and an education level that is absent or one of the three labels |
| PersonalInfoSchema.PersonalInfoIssueKeys | multi-step-form/src/schemas/personalInfoSchema.ts:3-22 | every issue is on a declared key, never on `gender` or `dob` |
| PersonalInfoSchema.RequiredMessages | multi-step-form/src/schemas/personalInfoSchema.ts:6-18 | each "is required" message is reported exactly when its field is empty |
| PersonalInfoSchema.FullNameLettersMessage | multi-step-form/src/schemas/personalInfoSchema.ts:7 | the letters-only message is reported exactly when the name is empty or has a character that is neither an ASCII letter nor white space |
| PersonalInfoSchema.EmptyFullNameShowsLettersMessage | multi-step-form/src/schemas/personalInfoSchema.ts:4-7 | an empty name reports both messages, and the screen shows the letters-only one |
| PersonalInfoSchema.PlaceholderPhoneRejected | multi-step-form/src/schemas/personalInfoSchema.ts:12-15 | the placeholder phone is refused and 'Invalid phone number' is shown for it |
| PersonalInfoSchema.GenderAndDobUnchecked | multi-step-form/src/schemas/personalInfoSchema.ts:3-22 | gender and date of birth are not keys of the schema and never change what it reports |
| ExperienceSchema.ExperienceIssues | multi-step-form/src/schemas/experienceSchema.ts:3-25 | the field issues in key order, then the end-date refinement, which an enum failure skips; characterised by `ExperienceAcceptedIff` |
| ExperienceSchema.ExperienceAcceptedIff | multi-step-form/src/schemas/experienceSchema.ts:3-25 | the schema accepts exactly: non-empty title, company, start date and responsibilities, one of the five exact type labels, and an end date unless currently working |
| ExperienceSchema.ExperienceIssueKeys | multi-step-form/src/schemas/experienceSchema.ts:3-25 | at most one issue per key, each on a key that can carry one (never `currentlyWorking`) |
| ExperienceSchema.ExperienceRequiredMessages | multi-step-form/src/schemas/experienceSchema.ts:4-21 | an empty required field is reported with its own message |
| ExperienceSchema.EndDateRule | multi-step-form/src/schemas/experienceSchema.ts:22-25 | with a valid type, the end-date issue appears exactly for a past position whose end date is absent or empty; such an entry is always refused |
| ExperienceSchema.CurrentlyWorkingIgnoresEndDate | multi-step-form/src/schemas/experienceSchema.ts:23 | a current position's end date never matters |
| ExperienceSchema.DatesOnlyNeedText | multi-step-form/src/schemas/experienceSchema.ts:12-17 | dates are neither parsed nor compared: any non-empty replacements give the same issues |
| ExperienceSchema.LowerCaseTypesRejected | multi-step-form/src/schemas/experienceSchema.ts:10-11 | 'Full-time' and 'Part-time' are refused with the enum message, and the end-date rule is then skipped |
| CertificateSchema.CertificateIssues | multi-step-form/src/schemas/certificateSchema.ts:3-6 | every issue of a certificate is on its name |
| CertificateSchema.CertificateAcceptedIff | multi-step-form/src/schemas/certificateSchema.ts:4-5 | a certificate is refused exactly when its name is empty, with the one message, and its file plays no part |
| EducationSchema.CertificateListIssues | multi-step-form/src/schemas/educationSchema.ts:25 | the certificate list reports nothing exactly when every certificate has a name |
| EducationSchema.EducationIssues | multi-step-form/src/schemas/educationSchema.ts:6-34 | the field issues in key order (three per year), then the record-level order issue; characterised by `EducationAcceptedIff` and `OrderIssueIff` |
| EducationSchema.EducationAcceptedIff | multi-step-form/src/schemas/educationSchema.ts:6-34 | the schema accepts exactly: school, degree and field non-empty; a 4-digit start year from 1900 to the current year; a 4-digit end year from 1900 to ten years ahead, not below the start year; and a name on every certificate |
| EducationSchema.EducationIssueKeys | multi-step-form/src/schemas/educationSchema.ts:6-34 | every issue is on a key that can carry one, never on `grade` |
| EducationSchema.GradeUnchecked | multi-step-form/src/schemas/educationSchema.ts:24 | the grade never changes what the schema reports |
| EducationSchema.EndBeforeStartShown | multi-step-form/src/schemas/educationSchema.ts:26-34 | an end year below the start year is refused, and 'End year must be after start year' is the message shown for `endYear` |
| EducationSchema.OrderIssueIff | multi-step-form/src/schemas/educationSchema.ts:26-34 | the order issue appears exactly when both years are non-empty numbers and the end year is the smaller |
| EducationSchema.EqualYearsInOrder | multi-step-form/src/schemas/educationSchema.ts:27 | equal start and end years pass the order rule |
| EducationSchema.YearOrderExamples | multi-step-form/src/schemas/educationSchema.ts:27 | 2019 to 2020 is in order; 2020 to 2019 is not |
| EducationSchema.EmptyStartYearShowsRange | multi-step-form/src/schemas/educationSchema.ts:10-16 | an empty start year fails all three checks, and the range message is the one shown |
| ReferenceSchema.ReferenceIssues | multi-step-form/src/schemas/referenceSchema.ts:3-14 | the issues `parse` reports, in key order, the contact refinement running after a failed `min`; characterised by `ReferenceAcceptedIff` |
| ReferenceSchema.ReferenceAcceptedIff | multi-step-form/src/schemas/referenceSchema.ts:3-14 | a reference is accepted exactly when name, relationship and company are non-empty and the contact is an e-mail or an international phone number by the two patterns; a matching contact is never empty |
| ReferenceSchema.ReferenceIssueKeys | multi-step-form/src/schemas/referenceSchema.ts:3-14 | at most five issues, each on one of the four keys |
| ReferenceSchema.EmptyContactShowsPatternMessage | multi-step-form/src/schemas/referenceSchema.ts:7-13 | an empty contact reports both messages, and 'Enter a valid phone or email' is the one shown |
| ReferenceSchema.ContactExamples | multi-step-form/src/schemas/referenceSchema.ts:9 | '+919820202034' and 'a@b.co' are valid contacts; '0123456' is not |
| SkillsSchema.SkillIssues | multi-step-form/src/schemas/skillsSchema.ts:3-13 | the name issue, then every failing number check on the years; characterised by `SkillAcceptedIff` |
| SkillsSchema.SkillAcceptedIff | multi-step-form/src/schemas/skillsSchema.ts:3-13 | a skill is accepted exactly when its name is non-empty and its years are absent or a whole number from 0 to 50 |
| SkillsSchema.SkillIssueOrder | multi-step-form/src/schemas/skillsSchema.ts:3-13 | a name issue, if any, comes first and every later issue is on the years |
| SkillsSchema.NegativeFractionTwoIssues | multi-step-form/src/schemas/skillsSchema.ts:7-12 | -0.5 years reports the integer issue and then the non-negative issue |
| ValidateDates.PairOverlaps | multi-step-form/src/utils/validateDates.ts:8-12 | `start1 <= end2 && start2 <= end1` on timestamps, false when either side is NaN |
| ValidateDates.HasOverlap | multi-step-form/src/utils/validateDates.ts:3-17 | some pair of positions i < j holds overlapping entries; the loop is proved equal to it by `HasOverlappingDates` |
| ValidateDates.EffectiveEnd | multi-step-form/src/utils/validateDates.ts:9 | a current position ends now; a past one without an end date has no valid end |
| ValidateDates.HasOverlappingDates | multi-step-form/src/utils/validateDates.ts:3-17 | the nested loops answer true exactly when some pair of distinct positions overlaps |
| ValidateDates.PairOverlapsSymmetric | multi-step-form/src/utils/validateDates.ts:12 | whether two entries overlap does not depend on their order |
| ValidateDates.ShortListsNoOverlap | multi-step-form/src/utils/validateDates.ts:4-5 | lists of at most one entry never overlap |
| ValidateDates.TouchingIntervalsOverlap | multi-step-form/src/utils/validateDates.ts:12 | intervals are closed: one ending at the instant another starts overlaps it |
| ValidateDates.HasOverlapAppend | multi-step-form/src/utils/validateDates.ts:4-16 | appending an entry overlaps exactly when the list already did or the new entry overlaps one already there |
| ValidateDates.HasOverlapMonotone | multi-step-form/src/utils/validateDates.ts:4-16 | appending never removes an overlap |
| ValidateDates.HasOverlapIffBag | multi-step-form/src/utils/validateDates.ts:4-16 | the answer depends only on the multiset of entries |
| ValidateDates.HasOverlapPermutation | multi-step-form/src/utils/validateDates.ts:4-16 | reordering the experiences never changes the answer |
| ValidateDates.OverlapExamples | multi-step-form/src/utils/validateDates.ts:12 | January–June 2020 overlaps March–September 2020 but not July–December 2020 |
| Age.AgeAt | multi-step-form/src/utils/calculateAge.ts:4-6 | the age is the floor of the elapsed time in years of 365.25 days |
| Age.CalculateAge | multi-step-form/src/utils/calculateAge.ts:1-7 | an empty date gives 0; otherwise there is an age exactly when the date parses, and it is the floor of the elapsed years |
| Age.AgeMonotoneInNow | multi-step-form/src/utils/calculateAge.ts:5-6 | a later clock never gives a smaller age |
| Age.AgeAntitoneInBirth | multi-step-form/src/utils/calculateAge.ts:5-6 | a later birth date never gives a larger age |
| Age.AgeAtBirthIsZero | multi-step-form/src/utils/calculateAge.ts:5-6 | the age at the instant of birth is 0 |
| Age.FutureBirthIsNegative | multi-step-form/src/utils/calculateAge.ts:5-6 | a birth date in the future gives a negative age |
| Age.AgeExample | multi-step-form/src/utils/calculateAge.ts:5-6 | born 2000-01-01, the age on 2024-01-01 is 24 |
| Years.GenerateYearOptions | multi-step-form/src/utils/years.ts:2-11 | the list runs downward by one from current+endOffset to current−startOffset, with startOffset+endOffset+1 entries (none when that is negative) |
| Years.DefaultYearOptions | multi-step-form/src/utils/years.ts:2 | with the defaults there are 52 years, from next year down to fifty years ago |
| SeqOps.Replaced | multi-step-form/src/state/formState.ts:48 | `map((x, i) => i === index ? data : x)` keeps the length and replaces exactly the position `index` |
| SeqOps.Without | multi-step-form/src/state/formState.ts:52 | `filter((_, i) => i !== index)` drops exactly position `index`, shifting later entries down by one, and is the identity out of range |
| SeqOps.WithoutIsSlices | multi-step-form/src/state/formState.ts:52 | removal is the list before `index` followed by the list after it |
| SeqOps.ReplacedIsUpdate | multi-step-form/src/state/formState.ts:48 | an in-range update is a positional assignment; an out-of-range one changes nothing |
| SeqOps.WithoutUndoesAppend | multi-step-form/src/state/formState.ts:45-53 | removing the entry just appended restores the list |
| SeqOps.WithoutMultiset | multi-step-form/src/state/formState.ts:52 | removal takes exactly one occurrence of the removed entry out of the multiset |
| SeqOps.ReplacedSame | multi-step-form/src/state/formState.ts:48 | replacing an entry by itself changes nothing |
| FormState.InitialState | multi-step-form/src/state/formState.ts:29-43 | the store starts at step 1 with empty lists, references not skipped, gender 'Prefer not to say', level 'High School' and no date of birth |
| FormState.FormStore.constructor | multi-step-form/src/state/formState.ts:29-43 | a new store holds the initial state |
| FormState.FormStore.SetPersonalInfo | multi-step-form/src/state/formState.ts:44 | replaces the personal record, nothing else |
| FormState.FormStore.AddExperience | multi-step-form/src/state/formState.ts:45 | appends the entry to the experiences, nothing else |
| FormState.FormStore.UpdateExperience | multi-step-form/src/state/formState.ts:46-49 | replaces the experience at `index` (none when out of range), nothing else |
| FormState.FormStore.RemoveExperience | multi-step-form/src/state/formState.ts:50-53 | drops the experience at `index` (none when out of range), nothing else |
| FormState.FormStore.AddEducation | multi-step-form/src/state/formState.ts:54 | appends the entry to the educations, nothing else |
| FormState.FormStore.UpdateEducation | multi-step-form/src/state/formState.ts:55-58 | replaces the education at `index`, nothing else |
| FormState.FormStore.RemoveEducation | multi-step-form/src/state/formState.ts:59-62 | drops the education at `index`, nothing else |
| FormState.FormStore.SetSkills | multi-step-form/src/state/formState.ts:63 | replaces the whole skills list, nothing else |
| FormState.FormStore.AddReference | multi-step-form/src/state/formState.ts:64 | appends the entry to the references, nothing else |
| FormState.FormStore.UpdateReference | multi-step-form/src/state/formState.ts:65-68 | replaces the reference at `index`, nothing else |
| FormState.FormStore.RemoveReference | multi-step-form/src/state/formState.ts:69-72 | drops the reference at `index`, nothing else |
| FormState.FormStore.SetSkipReferences | multi-step-form/src/state/formState.ts:73 | sets the flag, nothing else; the references stay |
| FormState.FormStore.NextStep | multi-step-form/src/state/formState.ts:74 | adds one to the step, unbounded, nothing else |
| FormState.FormStore.PrevStep | multi-step-form/src/state/formState.ts:75 | subtracts one from the step, unbounded, nothing else |
| FormState.FormStore.GoToStep | multi-step-form/src/state/formState.ts:76 | sets the step to any number, nothing else |
| FormState.NextThenPrevious | multi-step-form/src/state/formState.ts:74-75 | next then previous restores the whole store |
| FormState.AddThenRemoveLast | multi-step-form/src/state/formState.ts:45-53 | adding an experience and removing the last one restores the whole store |
| ChipInput.AddSkill | multi-step-form/src/components/ui/ChipInput.tsx:18-24 | a name is appended (with no years) exactly when it is non-empty and no skill has the same name ignoring ASCII case; otherwise the list is unchanged; afterwards a non-empty name is present |
| ChipInput.AddSkillKeepsDistinct | multi-step-form/src/components/ui/ChipInput.tsx:19 | adding keeps skill names pairwise distinct ignoring case |
| ChipInput.AddAllKeepsDistinct | multi-step-form/src/components/ui/ChipInput.tsx:18-24 | any sequence of additions keeps names distinct |
| ChipInput.AddSkillIdempotent | multi-step-form/src/components/ui/ChipInput.tsx:19 | adding the same name twice is adding it once |
| ChipInput.RemoveKeepsDistinct | multi-step-form/src/components/ui/ChipInput.tsx:26-28 | removing a chip keeps names distinct |
| ChipInput.EditsKeepDistinct | multi-step-form/src/components/ui/ChipInput.tsx:26-35 | removing a chip or changing its years keeps names distinct |
| ChipInput.WithYears | multi-step-form/src/components/ui/ChipInput.tsx:30-35 | the years of the chip at `index` are set, with no range check; every name and every other chip is unchanged |
| ChipInput.Suggestions | multi-step-form/src/components/ui/ChipInput.tsx:37-41 | a predefined skill is offered exactly when it includes the typed text ignoring case and no chip has its name; offers keep the predefined order |
| ChipInput.CaseExample | multi-step-form/src/components/ui/ChipInput.tsx:19 | 'react' is refused beside 'React', but ' React' is added |
| ChipInput.SuggestionAlwaysAdded | multi-step-form/src/components/ui/ChipInput.tsx:37-41 | clicking an offered non-empty suggestion always appends it |
| ChipInput.EmptyInputOffersAll | multi-step-form/src/components/ui/ChipInput.tsx:37-41 | with an empty box every predefined skill not yet chosen is offered |
| ChipInput.ChipInput.constructor | multi-step-form/src/components/ui/ChipInput.tsx:15-16 | the box starts empty with suggestions hidden |
| ChipInput.ChipInput.HandleInputChange | multi-step-form/src/components/ui/ChipInput.tsx:50-53 | typing sets the text and switches suggestions on; the list is then drawn exactly when some predefined skill matches the new text (line 63) |
| ChipInput.ChipInput.HandleAddSkill | multi-step-form/src/components/ui/ChipInput.tsx:18-24 | the store's skills become AddSkill of the name; on an addition the box is cleared and the suggestion list hidden, otherwise both stay |
| ChipInput.ChipInput.HandleEnter | multi-step-form/src/components/ui/ChipInput.tsx:54-59 | Enter adds the typed text (nothing for an empty box); the box is cleared and suggestions hidden exactly when the skill is added, otherwise both stay |
| ChipInput.ChipInput.HandleRemoveSkill | multi-step-form/src/components/ui/ChipInput.tsx:26-28 | the store's skills lose the chip at `index`, nothing else changes |
| ChipInput.ChipInput.HandleYearsChange | multi-step-form/src/components/ui/ChipInput.tsx:30-35 | the store's skills get the new years at `index`, nothing else changes |
| PersonalInfoScreen.WithField | multi-step-form/src/components/steps/PersonalInfoStep.tsx:31-33 | the edited field takes the new text and every other field keeps its value |
| PersonalInfoScreen.WithFieldOverwrites | multi-step-form/src/components/steps/PersonalInfoStep.tsx:31-33 | two edits of one field leave only the second |
| PersonalInfoScreen.OfferedLevelsAccepted | multi-step-form/src/components/steps/PersonalInfoStep.tsx:93-103 | every value the level select offers passes the schema's level enum, so choosing one never produces a level issue; the offered values cover all three levels |
| PersonalInfoScreen.AgeLine | multi-step-form/src/components/steps/PersonalInfoStep.tsx:72-74 | the age line appears exactly for a non-empty date of birth and shows `calculateAge` of it |
| PersonalInfoScreen.InitialPersonalInfoRejected | multi-step-form/src/state/formState.ts:31-38 | the initial personal record cannot pass the first step, and it shows no age |
| PersonalInfoScreen.PersonalInfoStep.constructor | multi-step-form/src/components/steps/PersonalInfoStep.tsx:15 | no messages at first |
| PersonalInfoScreen.PersonalInfoStep.HandleSubmit | multi-step-form/src/components/steps/PersonalInfoStep.tsx:15-29 | a valid record clears the messages and advances one step; otherwise the step stays and each field shows its last message |
| PersonalInfoScreen.PersonalInfoStep.HandleChange | multi-step-form/src/components/steps/PersonalInfoStep.tsx:31-33 | the store's personal record gets the one field edited, nothing else changes |
| ExperienceScreen.OfferedTypes | multi-step-form/src/components/steps/ExperienceStep.tsx:91-97 | 'Internship', 'Contract' and 'Freelance' of the offered options pass the enum, 'Full-time' and 'Part-time' do not, and the default draft is refused |
| ExperienceScreen.ExperienceStep.constructor | multi-step-form/src/components/steps/ExperienceStep.tsx:13-23 | the draft starts as the default, with no messages |
| ExperienceScreen.ExperienceStep.SetDraft | multi-step-form/src/components/steps/ExperienceStep.tsx:88-90 | editing the draft leaves the messages |
| ExperienceScreen.ExperienceStep.HandleAdd | multi-step-form/src/components/steps/ExperienceStep.tsx:25-54 | an invalid draft shows its messages and changes nothing else; a valid one that would overlap sets the overlap message and changes nothing else; otherwise it is appended, messages are cleared and the draft reset; an overlap-free list stays overlap-free |
| ExperienceScreen.ExperienceStep.HandleSubmit | multi-step-form/src/components/steps/ExperienceStep.tsx:56-62 | with no experience the step stays and the jobTitle message is set; otherwise it advances one step; the draft and the overlap message are never touched |
| ExperienceScreen.ExperienceStep.HandlePrevious | multi-step-form/src/components/steps/ExperienceStep.tsx:155 | goes back one step, nothing else changes |
| ExperienceScreen.CommitKeepsOverlapFree | multi-step-form/src/components/steps/ExperienceStep.tsx:28-33 | a committed list has no overlap among old entries nor between an old entry and the new one |
| EducationScreen.SubmitLabel | multi-step-form/src/components/steps/EducationStep.tsx:129 | the button reads 'Skip Education' exactly when no education was added |
| EducationScreen.EducationStep.constructor | multi-step-form/src/components/steps/EducationStep.tsx:11-19 | the draft starts as the default, with no messages |
| EducationScreen.EducationStep.SetDraft | multi-step-form/src/components/steps/EducationStep.tsx:11-19 | editing the draft leaves the messages |
| EducationScreen.EducationStep.HandleAdd | multi-step-form/src/components/steps/EducationStep.tsx:22-48 | a valid draft is appended, messages cleared and the draft reset; an invalid one shows its last message per field and changes nothing else |
| EducationScreen.EducationStep.HandleSubmit | multi-step-form/src/components/steps/EducationStep.tsx:50-56 | an empty list blocks with the school message even while the button reads 'Skip Education'; otherwise advances one step; the draft is never touched |
| EducationScreen.EducationStep.HandlePrevious | multi-step-form/src/components/steps/EducationStep.tsx:127 | goes back one step, nothing else changes |
| EducationScreen.StringOrderExamples | multi-step-form/src/components/steps/EducationStep.tsx:24 | the string comparison in the add handler puts '999' above '1000', unlike the numbers |
| EducationScreen.DefaultDraftRejected | multi-step-form/src/components/steps/EducationStep.tsx:11-19 | the default draft is refused |
| SkillsScreen.AllSuggestedAtFirst | multi-step-form/src/components/steps/SkillsStep.tsx:9-16 | with no chips and an empty box, all six predefined skills are offered in order |
| SkillsScreen.SuggestionsOfAll | multi-step-form/src/components/ui/ChipInput.tsx:37-41 | when every predefined skill passes the filter, the offer list is the whole predefined list |
| SkillsScreen.SkillsStep.constructor | multi-step-form/src/components/steps/SkillsStep.tsx:26-30 | the chip input edits the store's skills with the six predefined skills |
| SkillsScreen.SkillsStep.HandleNext | multi-step-form/src/components/steps/SkillsStep.tsx:35 | advances one step unconditionally |
| SkillsScreen.SkillsStep.HandlePrevious | multi-step-form/src/components/steps/SkillsStep.tsx:32 | goes back one step |
| ReferencesScreen.DefaultDraftRejected | multi-step-form/src/components/steps/ReferencesStep.tsx:11-16 | the empty draft is refused |
| ReferencesScreen.ReferencesStep.constructor | multi-step-form/src/components/steps/ReferencesStep.tsx:11-16 | the draft starts empty, with no messages |
| ReferencesScreen.ReferencesStep.SetDraft | multi-step-form/src/components/steps/ReferencesStep.tsx:11-16 | editing the draft leaves the messages |
| ReferencesScreen.ReferencesStep.HandleAdd | multi-step-form/src/components/steps/ReferencesStep.tsx:19-34 | a valid draft is appended, messages cleared and the draft reset; an invalid one shows its last message per field and changes nothing else |
| ReferencesScreen.ReferencesStep.HandleSubmit | multi-step-form/src/components/steps/ReferencesStep.tsx:36-42 | blocks with the name message exactly when references are not skipped and none was added; otherwise advances one step; the draft is never touched |
| ReferencesScreen.ReferencesStep.HandleSkipChange | multi-step-form/src/components/steps/ReferencesStep.tsx:53-57 | sets the flag only; added references stay; the add form is offered exactly when not skipped |
| ReferencesScreen.ReferencesStep.HandlePrevious | multi-step-form/src/components/steps/ReferencesStep.tsx:107 | goes back one step, nothing else changes |
| ReferencesScreen.SkipNeverBlocks | multi-step-form/src/components/steps/ReferencesStep.tsx:37 | with references skipped the step never blocks and hides the add form |
| SummaryScreen.SpanOf | multi-step-form/src/components/steps/SummaryStep.tsx:20-22 | an entry has a span exactly when its start and its end (now when current) are valid dates |
| SummaryScreen.TotalExperienceYears | multi-step-form/src/components/steps/SummaryStep.tsx:19-24 | the left fold adding each entry's years to the accumulator, NaN absorbing everything; `TotalIsSpanSum` gives its value |
| SummaryScreen.TotalIsSpanSum | multi-step-form/src/components/steps/SummaryStep.tsx:19-24 | the total is a number exactly when every span is; it is the sum of the spans divided by the length of a year of 365.25 days |
| SummaryScreen.EmptyTotal | multi-step-form/src/components/steps/SummaryStep.tsx:19-24 | with no experience the total is 0 |
| SummaryScreen.SpanSumWithout | multi-step-form/src/components/steps/SummaryStep.tsx:19-24 | the sum of spans is one entry's span plus the sum over the rest |
| SummaryScreen.SpanSumPermutation | multi-step-form/src/components/steps/SummaryStep.tsx:19-24 | the sum of spans does not depend on the order of the entries |
| SummaryScreen.TotalPermutation | multi-step-form/src/components/steps/SummaryStep.tsx:19-24 | the total experience does not depend on the order of the entries |
| SummaryScreen.EditTargetsShowTheirSteps | multi-step-form/src/components/steps/SummaryStep.tsx:38-113 | each section's Edit link leads to the screen for that section |
| SummaryScreen.SectionShown | multi-step-form/src/components/steps/SummaryStep.tsx:69-113 | which sections are drawn: education only when some was added, references only when not skipped and some were added, the rest always |
| SummaryScreen.EducationSectionShown | multi-step-form/src/components/steps/SummaryStep.tsx:69 | the education section is drawn exactly when some education was added, whatever level was declared |
| SummaryScreen.SkippedReferencesHidden | multi-step-form/src/components/steps/SummaryStep.tsx:109 | with references skipped their section is hidden, and the personal, experience and skills sections are always shown |
| SummaryScreen.SummaryStep.constructor | multi-step-form/src/components/steps/SummaryStep.tsx:19-24 | the summary reads the store it is given |
| SummaryScreen.SummaryStep.HandleEdit | multi-step-form/src/components/steps/SummaryStep.tsx:38-113 | an Edit link jumps to its section's step, nothing else changes |
| SummaryScreen.SummaryStep.HandlePrevious | multi-step-form/src/components/steps/SummaryStep.tsx:130 | goes back one step, nothing else changes |
| SummaryScreen.SummaryStep.HandleProceed | multi-step-form/src/components/steps/SummaryStep.tsx:133 | advances one step, nothing else changes |
| SubmitScreen.EntryMessageInjective | multi-step-form/src/components/steps/Submit.tsx:39 | two entry messages of one section are equal only for equal entry numbers |
| SubmitScreen.InvalidEntries | multi-step-form/src/components/steps/Submit.tsx:35-41 | at most one message per entry, and none exactly when every entry passes |
| SubmitScreen.InvalidEntriesNames | multi-step-form/src/components/steps/Submit.tsx:35-41 | 'entry k is invalid' is reported exactly when entry k (counting from 1) is refused |
| SubmitScreen.ExperienceErrorsEmptyIff | multi-step-form/src/components/steps/Submit.tsx:32-42 | the experience section reports nothing exactly when there is an experience and every one passes |
| SubmitScreen.EducationErrorsEmptyIff | multi-step-form/src/components/steps/Submit.tsx:44-54 | the education section reports nothing exactly when the list is not empty for a 'Graduate or higher' applicant and every entry passes |
| SubmitScreen.ReferenceErrorsEmptyIff | multi-step-form/src/components/steps/Submit.tsx:56-66 | the reference section reports nothing exactly when references are skipped, or there is one and every one passes |
| SubmitScreen.ValidationErrors | multi-step-form/src/components/steps/Submit.tsx:23-69 | the messages of the personal, experience, education and reference blocks, in that order; `ValidateAll` is proved to return it |
| SubmitScreen.Submittable | multi-step-form/src/components/steps/Submit.tsx:71-82 | the data `handleSubmit` lets through, stated section by section without the messages; `ValidationErrorsEmptyIff` ties it to the list |
| SubmitScreen.ValidationErrorsEmptyIff | multi-step-form/src/components/steps/Submit.tsx:23-69 | the list is empty exactly when the whole form is submittable section by section |
| SubmitScreen.SkipIgnoresReferences | multi-step-form/src/components/steps/Submit.tsx:56-66 | with references skipped, their contents never change the list |
| SubmitScreen.PersonalMessageFirst | multi-step-form/src/components/steps/Submit.tsx:26-30 | invalid personal information adds exactly one message, at the head, before the other sections' messages |
| SubmitScreen.ExperienceEntryReported | multi-step-form/src/components/steps/Submit.tsx:35-41 | 'Experience entry k is invalid' appears exactly when experience k is refused |
| SubmitScreen.CollectInvalid | multi-step-form/src/components/steps/Submit.tsx:35-41 | the forEach loop appends exactly the messages of the refused entries, in order |
| SubmitScreen.PushPersonalErrors | multi-step-form/src/components/steps/Submit.tsx:26-30 | appends the personal section's messages |
| SubmitScreen.PushExperienceErrors | multi-step-form/src/components/steps/Submit.tsx:32-42 | appends the experience section's messages |
| SubmitScreen.PushEducationErrors | multi-step-form/src/components/steps/Submit.tsx:44-54 | appends the education section's messages |
| SubmitScreen.PushReferenceErrors | multi-step-form/src/components/steps/Submit.tsx:56-66 | appends the reference section's messages |
| SubmitScreen.ValidateAll | multi-step-form/src/components/steps/Submit.tsx:23-69 | returns the messages of all four sections in section order |
| SubmitScreen.SubmitStep.constructor | multi-step-form/src/components/steps/Submit.tsx:19 | terms not agreed, no messages, no success |
| SubmitScreen.SubmitStep.SetTermsAgreed | multi-step-form/src/components/steps/Submit.tsx:19 | sets the terms flag only |
| SubmitScreen.SubmitStep.HandleSubmit | multi-step-form/src/components/steps/Submit.tsx:71-84 | validation messages win over the terms message; success only for a submittable form with the terms agreed; the store is untouched |
| SubmitScreen.SubmitStep.HandlePrevious | multi-step-form/src/components/steps/Submit.tsx:122 | goes back one step, nothing else changes |
| App.StepComponent | multi-step-form/src/App.tsx:11-24 | there is a screen exactly for steps 1 to 7 |
| App.StepNumber | multi-step-form/src/App.tsx:11-19 | every screen has a step from 1 to 7 |
| App.StepTableRoundTrip | multi-step-form/src/App.tsx:11-24 | step numbers and screens correspond one to one |
| App.Progress | multi-step-form/src/App.tsx:30-36 | segment i is filled exactly when i + 1 is at most the step |
| App.CountProgress | multi-step-form/src/App.tsx:30-36 | the number of filled segments is the step clamped to 0..n |
| App.ProgressBarFill | multi-step-form/src/App.tsx:30-36 | the bar has seven segments, and the step clamped to 0..7 of them are filled |
| App.OutOfRangeSteps | multi-step-form/src/App.tsx:24-36 | steps 0 and 8 have no screen; the bar is then empty or full |

## Left out

- Rendering, styling, animation and the shared components (`Button`, `Select`, `TextInput`): they decide nothing about data.
- `useAutosave`: it writes to `localStorage` and is I/O.
- zod's `.email()` test: it is a parameter of the model (`isEmail`), not its regular expression.
- Date parsing: `new Date(string)` is a parameter (`parseDate`).
- The clock: one `now` serves a whole call, while the source reads the clock at each comparison.
- The current year: it is a parameter. In `educationSchema` it is fixed once when the module loads.
- Js.JsNumber: `Number()` is modelled only for the empty string and strings of decimal digits. Every other string counts as NaN, although `Number('2020.0')`, `Number(' 2020')` or `Number('2e3')` give numbers. The Start Year and End Year boxes are `type="number"` inputs (multi-step-form/src/components/steps/EducationStep.tsx:87, 94), so such strings can reach the schema. Whether an entry is accepted never changes, because every such string also fails the four-digit pattern. The issues reported, and so the messages shown, can change; see the next line.
- EducationSchema.EducationIssues: for a year such as "2020.0" the source reports only "Must be a 4-digit year", since `Number` reads it as 2020, which is in range. The model adds the range message as well, and because the last message on a field is the one shown, the model shows the range message where the source shows the four-digit one. With start year "2020.0" and end year "2019" the source also adds "End year must be after start year" and the model does not. So the messages that `EducationScreen.EducationStep.HandleAdd` leaves in its error map differ from the source on such inputs.
- Js.Lower: `toLowerCase` is modelled on ASCII letters only. Non-ASCII case folding is not modelled.
- SummaryScreen.TotalIsSpanSum: the total is an exact rational, not a floating-point sum. `toFixed(1)` formatting is left out.
- Age.AgeAt: the floor uses exact arithmetic on milliseconds, with the year as 365.25 days, instead of floating-point division.
- CertificateSchema.CertificateIssues: a certificate file is always a `File`, so `z.instanceof(File)` never fails in the model.
- The draft setters (`SetDraft`): they stand for the many per-field `setFormData({...formData, f: v})` handlers of the experience, education and reference screens.
- React batching and re-rendering: only the final local state and store are modelled. In `EducationStep.handleAdd`, the early `setErrors({ startYear: 'It must be appropriate' })` is always overwritten by the later `setErrors` of the same handler, so it leaves no trace in the model.
- Import paths: several components and `App.tsx` import `state/formStore`, but the store is defined in `state/formState.ts`. `App.tsx` imports `SubmitStep` from `steps/SubmitStep`, but the component is in `Submit.tsx`. The model takes them to be the same store and component.
- `skillsSchema`: no screen uses it. It is modelled as a schema, with no screen calling it.
- Shown messages: when a field has several issues, the screens show the LAST message, because the reduce overwrites earlier entries. Each field shows one message, that of its last issue.
- Experience dates: no check compares an experience's start date with its end date, in the schema or in the screen. The only date rule is the overlap check between entries. The model has no such order rule.
- ExperienceSchema.ExperienceRequiredMessages: it states only that an empty field reports its message, not the converse.
- SubmitScreen.InvalidEntries: its own contract bounds the count and states when the list is empty; which entries are named is stated separately by `SubmitScreen.InvalidEntriesNames`.
