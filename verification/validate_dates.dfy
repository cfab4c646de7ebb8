/**
  `hasOverlappingDates`: two experiences overlap when each starts no later
  than the other ends, comparing closed intervals of millisecond
  timestamps. A current position ends now; otherwise the end is the parsed
  end date. An unparseable or absent date is NaN, and every comparison
  with NaN is false, so such an entry overlaps nothing.
 */
module ValidateDates {
  import opened Js
  import opened FormTypes

  function StartOf(e: Experience, env: Env): Option<int> {
    env.parseDate(e.startDate)
  }

  /** `exp.currentlyWorking ? new Date() : new Date(exp.endDate!)`. */
  function EffectiveEnd(e: Experience, env: Env): (r: Option<int>)
    ensures e.currentlyWorking ==> r == Some(env.now)
    ensures !e.currentlyWorking && e.endDate.None? ==> r.None?
  {
    if e.currentlyWorking then Some(env.now)
    else match e.endDate
      case None => None
      case Some(d) => env.parseDate(d)
  }

  /** `a <= b` on two Date values; false when either is NaN. */
  predicate NotAfter(a: Option<int>, b: Option<int>) {
    a.Some? && b.Some? && a.value <= b.value
  }

  /** `start1 <= end2 && start2 <= end1`. */
  predicate PairOverlaps(x: Experience, y: Experience, env: Env) {
    NotAfter(StartOf(x, env), EffectiveEnd(y, env)) && NotAfter(StartOf(y, env), EffectiveEnd(x, env))
  }

  /** Some pair of distinct positions i < j holds overlapping entries. */
  predicate HasOverlap(exps: seq<Experience>, env: Env) {
    exists i, j | 0 <= i < j < |exps| :: PairOverlaps(exps[i], exps[j], env)
  }

  /** No pair whose first index is below i overlaps. */
  predicate NoOverlapBefore(exps: seq<Experience>, env: Env, i: int) {
    forall p, q | 0 <= p < i && p < q < |exps| :: !PairOverlaps(exps[p], exps[q], env)
  }

  /** The nested loops of the source, returning as soon as an overlapping pair is found. */
  method HasOverlappingDates(exps: seq<Experience>, env: Env) returns (found: bool)
    ensures found == HasOverlap(exps, env)
  {
    var i := 0;
    while i < |exps|
      invariant 0 <= i <= |exps|
      invariant NoOverlapBefore(exps, env, i)
    {
      var j := i + 1;
      while j < |exps|
        invariant i + 1 <= j <= |exps|
        invariant forall q | i < q < j :: !PairOverlaps(exps[i], exps[q], env)
      {
        if PairOverlaps(exps[i], exps[j], env) {
          return true;
        }
        j := j + 1;
      }
      i := i + 1;
    }
    return false;
  }

  /** The relation does not care which entry comes first. */
  lemma PairOverlapsSymmetric(x: Experience, y: Experience, env: Env)
    ensures PairOverlaps(x, y, env) <==> PairOverlaps(y, x, env)
  {
  }

  /** Lists of zero or one entries have no pair, hence no overlap. */
  lemma ShortListsNoOverlap(exps: seq<Experience>, env: Env)
    requires |exps| <= 1
    ensures !HasOverlap(exps, env)
  {
  }

  /**
    Intervals are closed: a position that ends at the very instant another
    starts overlaps it.
   */
  lemma TouchingIntervalsOverlap(x: Experience, y: Experience, env: Env)
    requires StartOf(x, env).Some? && EffectiveEnd(x, env).Some?
    requires StartOf(x, env).value <= EffectiveEnd(x, env).value
    requires StartOf(y, env) == EffectiveEnd(x, env)
    requires EffectiveEnd(y, env).Some? && StartOf(y, env).value <= EffectiveEnd(y, env).value
    ensures PairOverlaps(x, y, env)
  {
  }

  /**
    Appending one entry adds exactly the pairs it forms with the entries
    already there, so an overlapping list stays overlapping.
   */
  lemma {:induction false} HasOverlapAppend(exps: seq<Experience>, e: Experience, env: Env)
    ensures HasOverlap(exps + [e], env) <==>
      HasOverlap(exps, env) || exists i | 0 <= i < |exps| :: PairOverlaps(exps[i], e, env)
  {
    var s := exps + [e];
    if HasOverlap(s, env) {
      var i, j :| 0 <= i < j < |s| && PairOverlaps(s[i], s[j], env);
      if j < |exps| {
        assert PairOverlaps(exps[i], exps[j], env);
      } else {
        assert PairOverlaps(exps[i], e, env);
      }
    }
    if HasOverlap(exps, env) {
      var i, j :| 0 <= i < j < |exps| && PairOverlaps(exps[i], exps[j], env);
      assert PairOverlaps(s[i], s[j], env);
    }
    if exists i | 0 <= i < |exps| :: PairOverlaps(exps[i], e, env) {
      var i :| 0 <= i < |exps| && PairOverlaps(exps[i], e, env);
      assert PairOverlaps(s[i], s[|exps|], env);
    }
  }

  lemma HasOverlapMonotone(exps: seq<Experience>, e: Experience, env: Env)
    requires HasOverlap(exps, env)
    ensures HasOverlap(exps + [e], env)
  {
    HasOverlapAppend(exps, e, env);
  }

  /** Two overlapping entries of the bag, occupying two distinct places in it. */
  ghost predicate BagOverlap(m: multiset<Experience>, env: Env) {
    exists x, y :: x in m && y in m && (x != y || m[x] >= 2) && PairOverlaps(x, y, env)
  }

  /** Two distinct positions contribute two elements to the bag. */
  lemma {:induction false} TwoPositions(s: seq<Experience>, i: int, j: int)
    requires 0 <= i < j < |s|
    ensures multiset{s[i], s[j]} <= multiset(s)
  {
    assert s == s[..i] + [s[i]] + s[i + 1..j] + [s[j]] + s[j + 1..];
    assert multiset(s) ==
      multiset(s[..i]) + multiset{s[i]} + multiset(s[i + 1..j]) + multiset{s[j]} + multiset(s[j + 1..]);
  }

  /** An element occurring at least twice occupies two distinct positions. */
  lemma {:induction false} FindTwo(s: seq<Experience>, x: Experience) returns (i: int, j: int)
    requires multiset(s)[x] >= 2
    ensures 0 <= i < j < |s| && s[i] == x && s[j] == x
    decreases |s|
  {
    assert s == [s[0]] + s[1..];
    if s[0] == x {
      assert x in multiset(s[1..]);
      var k :| 0 <= k < |s[1..]| && s[1..][k] == x;
      i, j := 0, k + 1;
    } else {
      var p, q := FindTwo(s[1..], x);
      i, j := p + 1, q + 1;
    }
  }

  /** An element of the bag occupies some position. */
  lemma FindOne(s: seq<Experience>, x: Experience) returns (i: int)
    requires x in multiset(s)
    ensures 0 <= i < |s| && s[i] == x
  {
    i :| 0 <= i < |s| && s[i] == x;
  }

  /** Whether a list overlaps depends only on the bag of its entries. */
  lemma HasOverlapIffBag(s: seq<Experience>, env: Env)
    ensures HasOverlap(s, env) <==> BagOverlap(multiset(s), env)
  {
    var m := multiset(s);
    if HasOverlap(s, env) {
      var i, j :| 0 <= i < j < |s| && PairOverlaps(s[i], s[j], env);
      TwoPositions(s, i, j);
      if s[i] == s[j] {
        assert m[s[i]] >= 2;
      }
      assert s[i] in m && s[j] in m;
    }
    if BagOverlap(m, env) {
      var x, y :| x in m && y in m && (x != y || m[x] >= 2) && PairOverlaps(x, y, env);
      var i, j;
      if x == y {
        i, j := FindTwo(s, x);
      } else {
        i := FindOne(s, x);
        j := FindOne(s, y);
      }
      if i < j {
        assert PairOverlaps(s[i], s[j], env);
      } else {
        PairOverlapsSymmetric(x, y, env);
        assert PairOverlaps(s[j], s[i], env);
      }
    }
  }

  /** Reordering the experiences never changes the answer. */
  lemma HasOverlapPermutation(s: seq<Experience>, t: seq<Experience>, env: Env)
    requires multiset(s) == multiset(t)
    ensures HasOverlap(s, env) == HasOverlap(t, env)
  {
    HasOverlapIffBag(s, env);
    HasOverlapIffBag(t, env);
  }

  /** A past position entered with the given start and end date strings. */
  predicate Spans(e: Experience, start: string, end: string) {
    !e.currentlyWorking && e.startDate == start && e.endDate == Some(end)
  }

  /**
    With UTC midnight timestamps, January to June 2020 overlaps March to
    September 2020 but not July to December 2020.
   */
  lemma OverlapExamples(env: Env, x: Experience, y: Experience, z: Experience)
    requires env.parseDate("2020-01-01") == Some(1577836800000)
    requires env.parseDate("2020-03-01") == Some(1583020800000)
    requires env.parseDate("2020-06-01") == Some(1590969600000)
    requires env.parseDate("2020-07-01") == Some(1593561600000)
    requires env.parseDate("2020-09-01") == Some(1598918400000)
    requires env.parseDate("2020-12-01") == Some(1606780800000)
    requires Spans(x, "2020-01-01", "2020-06-01")
    requires Spans(y, "2020-03-01", "2020-09-01")
    requires Spans(z, "2020-07-01", "2020-12-01")
    ensures HasOverlap([x, y], env)
    ensures !HasOverlap([x, z], env)
  {
    assert PairOverlaps([x, y][0], [x, y][1], env);
  }
}
