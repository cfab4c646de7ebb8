/**
  The records the form collects (types/form.ts). Every field keeps the value
  the program holds at run time: the string unions of the type declarations
  are only compile-time hints, and the schemas test the actual strings, so a
  field such as `employmentType` is a `string` here and the unions are enum
  datatypes with their exact, case-sensitive labels.
 */
module FormTypes {
  import opened Js

  datatype Gender = Male | Female | Other | PreferNotToSay {
    function Label(): string {
      match this
      case Male => "Male"
      case Female => "Female"
      case Other => "Other"
      case PreferNotToSay => "Prefer not to say"
    }
  }

  function GenderOf(s: string): (g: Option<Gender>)
    ensures g.Some? ==> g.value.Label() == s
  {
    if s == "Male" then Some(Male)
    else if s == "Female" then Some(Female)
    else if s == "Other" then Some(Other)
    else if s == "Prefer not to say" then Some(PreferNotToSay)
    else None
  }

  /** Every gender label reads back as that gender: the union has exactly four members. */
  lemma GenderLabelRoundTrip(g: Gender)
    ensures GenderOf(g.Label()) == Some(g)
  {
  }

  datatype EducationLevel = HighSchool | Undergraduate | GraduateOrHigher {
    function Label(): string {
      match this
      case HighSchool => "High School"
      case Undergraduate => "Undergraduate"
      case GraduateOrHigher => "Graduate or higher"
    }
  }

  function EducationLevelOf(s: string): (l: Option<EducationLevel>)
    ensures l.Some? ==> l.value.Label() == s
  {
    if s == "High School" then Some(HighSchool)
    else if s == "Undergraduate" then Some(Undergraduate)
    else if s == "Graduate or higher" then Some(GraduateOrHigher)
    else None
  }

  lemma EducationLevelLabelRoundTrip(l: EducationLevel)
    ensures EducationLevelOf(l.Label()) == Some(l)
  {
  }

  datatype EmploymentType = FullTime | PartTime | Internship | Contract | Freelance {
    function Label(): string {
      match this
      case FullTime => "Full-Time"
      case PartTime => "Part-Time"
      case Internship => "Internship"
      case Contract => "Contract"
      case Freelance => "Freelance"
    }
  }

  /** The five labels in declaration order; zod quotes them in this order in its enum message. */
  const EmploymentTypeLabels: seq<string> :=
    ["Full-Time", "Part-Time", "Internship", "Contract", "Freelance"]

  function EmploymentTypeOf(s: string): (t: Option<EmploymentType>)
    ensures t.Some? ==> t.value.Label() == s
    ensures t.Some? <==> s in EmploymentTypeLabels
  {
    if s == "Full-Time" then Some(FullTime)
    else if s == "Part-Time" then Some(PartTime)
    else if s == "Internship" then Some(Internship)
    else if s == "Contract" then Some(Contract)
    else if s == "Freelance" then Some(Freelance)
    else None
  }

  lemma EmploymentTypeLabelRoundTrip(t: EmploymentType)
    ensures EmploymentTypeOf(t.Label()) == Some(t)
  {
  }

  /** The labels are case-sensitive: the lower-case spellings the Experience step offers are not members. */
  lemma EmploymentTypeCaseSensitive()
    ensures EmploymentTypeOf("Full-time").None? && EmploymentTypeOf("Part-time").None?
  {
  }

  datatype PersonalInfo = PersonalInfo(
    fullName: string,
    email: string,
    phone: string,
    dob: Option<string>,
    gender: string,
    location: string,
    educationLevel: Option<string>)

  datatype Experience = Experience(
    jobTitle: string,
    company: string,
    employmentType: string,
    startDate: string,
    endDate: Option<string>,
    currentlyWorking: bool,
    responsibilities: string)

  /** A browser `File` held by a certificate; only its identity matters to the form. */
  datatype FileRef = FileRef(id: nat)

  datatype Certificate = Certificate(name: string, file: Option<FileRef>)

  datatype Education = Education(
    school: string,
    degree: string,
    field: string,
    startYear: string,
    endYear: string,
    grade: Option<string>,
    certificates: Option<seq<Certificate>>)

  /** `years` is a JavaScript number; a number input can deliver fractions and negatives. */
  datatype Skill = Skill(name: string, years: Option<real>)

  datatype Reference = Reference(
    name: string,
    relationship: string,
    company: string,
    contact: string)
}
