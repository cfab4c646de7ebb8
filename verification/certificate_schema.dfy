/**
  `certificateSchema`: a certificate needs a non-empty name; its file is
  optional and, when present, must be a `File`. A `FileRef` always stands
  for a `File`, so the file never produces an issue.
 */
module CertificateSchema {
  import opened Js
  import opened FormTypes
  import opened Issues

  const CertificateNameRequired := "Certificate name is required"

  function CertificateIssues(c: Certificate): (r: seq<Issue>)
    ensures forall k :: 0 <= k < |r| ==> r[k].field == "name"
  {
    Check(|c.name| >= 1, "name", CertificateNameRequired)
  }

  /**
    A certificate is refused exactly when its name is empty: any non-empty
    name passes, white space included, and the file, present or absent,
    plays no part.
   */
  lemma CertificateAcceptedIff(c: Certificate, file: Option<FileRef>)
    ensures CertificateIssues(c) == [] <==> c.name != ""
    ensures CertificateIssues(c.(file := file)) == CertificateIssues(c)
    ensures c.name == "" ==> CertificateIssues(c) == [Issue("name", CertificateNameRequired)]
  {
  }
}
