/**
  `referenceSchema`: four required strings; the contact must also look like
  an e-mail address or an international phone number. The contact's
  refinement runs even when the contact is empty.
 */
module ReferenceSchema {
  import opened Js
  import opened FormTypes
  import opened Issues
  import opened Patterns

  const NameRequired := "Reference name is required"
  const RelationshipRequired := "Relationship is required"
  const CompanyRequired := "Company name is required"
  const ContactRequired := "Contact (phone/email) is required"
  const ContactInvalid := "Enter a valid phone or email"

  /** The e-mail alternative or the phone alternative of the contact refinement. */
  predicate ContactPattern(s: string) {
    BasicEmailPattern(s) || IntlPhonePattern(s)
  }

  function ContactIssues(contact: string): seq<Issue> {
    Check(|contact| >= 1, "contact", ContactRequired) + Check(ContactPattern(contact), "contact", ContactInvalid)
  }

  const ReferenceKeys: seq<string> := ["name", "relationship", "company", "contact"]

  /** The issues `referenceSchema.parse` reports, in order. */
  function ReferenceIssues(r: Reference): seq<Issue> {
    Check(|r.name| >= 1, "name", NameRequired)
    + (Check(|r.relationship| >= 1, "relationship", RelationshipRequired)
    + (Check(|r.company| >= 1, "company", CompanyRequired)
    + ContactIssues(r.contact)))
  }

  predicate ReferenceValid(r: Reference) {
    ReferenceIssues(r) == []
  }

  /** At most five issues, only the contact can have two, and each is on a declared key. */
  lemma ReferenceIssueKeys(r: Reference)
    ensures |ReferenceIssues(r)| <= 5
    ensures forall k :: 0 <= k < |ReferenceIssues(r)| ==> ReferenceIssues(r)[k].field in ReferenceKeys
  {
  }

  /**
    The schema accepts exactly the references with name, relationship and
    company filled in and a contact that is an e-mail address or a phone
    number; a well-formed contact is never empty.
   */
  lemma ReferenceAcceptedIff(r: Reference)
    ensures ReferenceValid(r) <==>
      r.name != "" && r.relationship != "" && r.company != "" && ContactPattern(r.contact)
    ensures ContactPattern(r.contact) ==> r.contact != ""
  {
  }

  /**
    An empty contact fails both of its checks and the pattern message,
    reported last, is the one the References step shows.
   */
  lemma EmptyContactShowsPatternMessage(r: Reference)
    requires r.contact == ""
    ensures Issue("contact", ContactRequired) in ReferenceIssues(r)
    ensures var errors := ErrorMap(ReferenceIssues(r));
      "contact" in errors && errors["contact"] == ContactInvalid
  {
    var contact := ContactIssues(r.contact);
    assert contact == [Issue("contact", ContactRequired), Issue("contact", ContactInvalid)];
    ErrorMapLastOf(Check(|r.company| >= 1, "company", CompanyRequired) + contact, [], "contact", ContactInvalid);
    var tail := Check(|r.company| >= 1, "company", CompanyRequired) + contact;
    assert tail + [] == tail;
    ErrorMapKeepsLater(Check(|r.relationship| >= 1, "relationship", RelationshipRequired), tail, "contact");
    ErrorMapKeepsLater(Check(|r.name| >= 1, "name", NameRequired),
      Check(|r.relationship| >= 1, "relationship", RelationshipRequired) + tail, "contact");
  }

  /** Contacts of either kind are accepted: the phone placeholder and a plain address; a number with a leading zero is neither. */
  lemma ContactExamples()
    ensures ContactPattern("+919820202034")
    ensures ContactPattern("a@b.co")
    ensures !ContactPattern("0123456")
  {
    PlaceholderPhone();
    assert EmailSplitAt("a@b.co", 1, 3);
    assert !BasicEmailPattern("0123456") by {
      forall i, j | 0 < i && i + 1 < j < |"0123456"| - 1
        ensures !EmailSplitAt("0123456", i, j)
      {
        assert "0123456"[i] != '@';
      }
    }
  }
}
