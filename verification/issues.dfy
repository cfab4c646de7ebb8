/**
  Validation issues and the error map the step components build from them.
  A schema reports an ordered list of issues, each tagged with the first
  element of its path (the field). The components fold that list into a
  field-to-message map, one assignment per issue, so a later issue on the
  same field overwrites an earlier one.
 */
module Issues {

  datatype Issue = Issue(field: string, message: string)

  /** One zod check: no issue when it holds, otherwise one issue with the check's message. */
  function Check(holds: bool, field: string, message: string): (r: seq<Issue>)
    ensures holds <==> r == []
    ensures !holds ==> r == [Issue(field, message)]
  {
    if holds then [] else [Issue(field, message)]
  }

  /** The options of an enum as zod lists them: each in single quotes, separated by " | ". */
  function QuotedOptions(options: seq<string>): string
    decreases |options|
  {
    if options == [] then ""
    else if |options| == 1 then "'" + options[0] + "'"
    else "'" + options[0] + "' | " + QuotedOptions(options[1..])
  }

  /** zod's default message for a value outside an enum. */
  function EnumMessage(options: seq<string>, received: string): string {
    "Invalid enum value. Expected " + QuotedOptions(options) + ", received '" + received + "'"
  }

  /** Issues raised inside a nested value carry the enclosing field as the first path element. */
  function Nest(field: string, issues: seq<Issue>): (r: seq<Issue>)
    ensures |r| == |issues|
    ensures forall k :: 0 <= k < |r| ==> r[k] == Issue(field, issues[k].message)
  {
    seq(|issues|, k requires 0 <= k < |issues| => Issue(field, issues[k].message))
  }

  /** The fold `issues.reduce((acc, curr) => { acc[curr.path[0]] = curr.message; ... }, {})`. */
  function ErrorMap(issues: seq<Issue>): map<string, string>
    decreases |issues|
  {
    if issues == [] then map[]
    else
      var last := issues[|issues| - 1];
      ErrorMap(issues[..|issues| - 1])[last.field := last.message]
  }

  /** Issue k is the last one reported on field f. */
  predicate IsLastOn(issues: seq<Issue>, k: int, f: string) {
    0 <= k < |issues| && issues[k].field == f
    && forall m :: k < m < |issues| ==> issues[m].field != f
  }

  /** The error map has an entry for exactly the fields some issue names. */
  lemma {:induction false} ErrorMapDomain(issues: seq<Issue>, f: string)
    ensures f in ErrorMap(issues) <==> exists k :: 0 <= k < |issues| && issues[k].field == f
    decreases |issues|
  {
    if issues != [] {
      var n := |issues| - 1;
      var front := issues[..n];
      ErrorMapDomain(front, f);
      assert forall m :: 0 <= m < n ==> front[m] == issues[m];
    }
  }

  /** The entry for a field holds the message of the last issue on that field. */
  lemma {:induction false} ErrorMapLastWins(issues: seq<Issue>, k: int, f: string)
    requires IsLastOn(issues, k, f)
    ensures f in ErrorMap(issues) && ErrorMap(issues)[f] == issues[k].message
    decreases |issues|
  {
    var n := |issues| - 1;
    if k < n {
      var front := issues[..n];
      assert IsLastOn(front, k, f) by {
        assert forall m :: 0 <= m < n ==> front[m] == issues[m];
      }
      ErrorMapLastWins(front, k, f);
    }
  }

  /**
    When the last issue of `a` is on field f and `b` says nothing about f,
    the map built from `a + b` shows that issue's message for f.
   */
  lemma {:induction false} ErrorMapLastOf(a: seq<Issue>, b: seq<Issue>, f: string, message: string)
    requires a != [] && a[|a| - 1] == Issue(f, message)
    requires forall k :: 0 <= k < |b| ==> b[k].field != f
    ensures f in ErrorMap(a + b) && ErrorMap(a + b)[f] == message
    decreases |b|
  {
    if b == [] {
      assert a + b == a;
    } else {
      var front := b[..|b| - 1];
      ErrorMapLastOf(a, front, f, message);
      assert (a + b)[..|a + b| - 1] == a + front;
    }
  }

  /** Issues after a list that say nothing about f leave the map's entry for f as it was. */
  lemma {:induction false} ErrorMapIgnoresLater(a: seq<Issue>, b: seq<Issue>, f: string)
    requires forall k :: 0 <= k < |b| ==> b[k].field != f
    ensures f in ErrorMap(a + b) <==> f in ErrorMap(a)
    ensures f in ErrorMap(a) ==> ErrorMap(a + b)[f] == ErrorMap(a)[f]
    decreases |b|
  {
    if b == [] {
      assert a + b == a;
    } else {
      ErrorMapIgnoresLater(a, b[..|b| - 1], f);
      assert (a + b)[..|a + b| - 1] == a + b[..|b| - 1];
    }
  }

  /** Issues in front of a list cannot change what the list's own issues put in the map. */
  lemma {:induction false} ErrorMapKeepsLater(a: seq<Issue>, b: seq<Issue>, f: string)
    requires f in ErrorMap(b)
    ensures f in ErrorMap(a + b) && ErrorMap(a + b)[f] == ErrorMap(b)[f]
    decreases |b|
  {
    var n := |b| - 1;
    assert (a + b)[..|a + b| - 1] == a + b[..n];
    if b[n].field != f {
      ErrorMapKeepsLater(a, b[..n], f);
    }
  }

  /** The same fold, written as the loop that mutates the accumulator. */
  method FormatErrors(issues: seq<Issue>) returns (acc: map<string, string>)
    ensures acc == ErrorMap(issues)
  {
    acc := map[];
    var i := 0;
    while i < |issues|
      invariant 0 <= i <= |issues|
      invariant acc == ErrorMap(issues[..i])
    {
      assert issues[..i + 1][..i] == issues[..i];
      acc := acc[issues[i].field := issues[i].message];
      i := i + 1;
    }
    assert issues[..|issues|] == issues;
  }
}
