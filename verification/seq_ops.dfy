/**
  The two index-based array rebuilds the store and the chip list use:
  `xs.map((x, i) => i === index ? data : x)` and
  `xs.filter((_, i) => i !== index)`. Both walk the whole array, so an
  index outside it matches no position and changes nothing.
 */
module SeqOps {

  /**
    The `map` rebuild: position `index` holds `x`, every other position keeps
    its element. What this means for the list is proved by `ReplacedIsUpdate`
    (a positional update, or no change out of range) and `ReplacedSame`.
   */
  function Replaced<T>(s: seq<T>, index: int, x: T): (r: seq<T>)
    ensures |r| == |s|
    ensures forall i :: 0 <= i < |s| ==> r[i] == if i == index then x else s[i]
  {
    seq(|s|, i requires 0 <= i < |s| => if i == index then x else s[i])
  }

  /** The `filter` rebuild, walking the positions from the front. */
  function Without<T>(s: seq<T>, index: int): (r: seq<T>)
    ensures |r| == if 0 <= index < |s| then |s| - 1 else |s|
    ensures forall i :: 0 <= i < |r| ==> r[i] == s[if 0 <= index <= i then i + 1 else i]
    decreases |s|
  {
    if s == [] then []
    else
      var rest := Without(s[1..], index - 1);
      if index == 0 then rest else [s[0]] + rest
  }

  /** In range, the filter leaves the elements before and after the index, joined. */
  lemma WithoutIsSlices<T>(s: seq<T>, index: int)
    ensures 0 <= index < |s| ==> Without(s, index) == s[..index] + s[index + 1..]
    ensures !(0 <= index < |s|) ==> Without(s, index) == s
  {
    if 0 <= index < |s| {
      var r, t := Without(s, index), s[..index] + s[index + 1..];
      forall i | 0 <= i < |r|
        ensures r[i] == t[i]
      {
        if i < index {
          assert t[i] == s[..index][i];
        } else {
          assert t[i] == s[index + 1..][i - index];
        }
      }
    }
  }

  /** In range, the rebuild is the sequence update; out of range it is the identity. */
  lemma ReplacedIsUpdate<T>(s: seq<T>, index: int, x: T)
    ensures 0 <= index < |s| ==> Replaced(s, index, x) == s[index := x]
    ensures !(0 <= index < |s|) ==> Replaced(s, index, x) == s
  {
  }

  /** Removing the last element undoes an append. */
  lemma WithoutUndoesAppend<T>(s: seq<T>, x: T)
    ensures Without(s + [x], |s|) == s
  {
    var r := Without(s + [x], |s|);
    assert forall i :: 0 <= i < |r| ==> r[i] == s[i];
  }

  /** Removing before the last position commutes with dropping that last element. */
  lemma WithoutBeforeLast<T>(s: seq<T>, index: int)
    requires 0 <= index < |s| - 1
    ensures Without(s, index) == Without(s[..|s| - 1], index) + [s[|s| - 1]]
  {
    var n := |s| - 1;
    var a, front := Without(s, index), Without(s[..n], index);
    forall i | 0 <= i < |a|
      ensures a[i] == (front + [s[n]])[i]
    {
      if i < n - 1 {
        assert (front + [s[n]])[i] == front[i];
      }
    }
  }

  /** Removing keeps the bag of the other elements: the element at `index` is the only one lost. */
  lemma {:induction false} WithoutMultiset<T>(s: seq<T>, index: int)
    requires 0 <= index < |s|
    ensures multiset(Without(s, index)) + multiset{s[index]} == multiset(s)
  {
    var front, back := s[..index], s[index + 1..];
    WithoutIsSlices(s, index);
    assert s == front + [s[index]] + back;
    assert multiset(s) == multiset(front) + multiset{s[index]} + multiset(back);
    assert multiset(Without(s, index)) == multiset(front) + multiset(back);
  }

  /** Replacing an element by itself changes nothing. */
  lemma ReplacedSame<T>(s: seq<T>, index: int)
    requires 0 <= index < |s|
    ensures Replaced(s, index, s[index]) == s
  {
  }

  /** Equal bags stay equal once the same element is taken out of each. */
  lemma {:induction false} BagCancel<T>(a: multiset<T>, b: multiset<T>, x: T)
    requires a + multiset{x} == b + multiset{x}
    ensures a == b
  {
    forall y
      ensures a[y] == b[y]
    {
      assert (a + multiset{x})[y] == a[y] + multiset{x}[y];
      assert (b + multiset{x})[y] == b[y] + multiset{x}[y];
    }
  }

  /** A list without its last element has the bag of a permutation of it without a matching element. */
  lemma {:induction false} BagWithoutLast<T>(s: seq<T>, t: seq<T>, k: int)
    requires s != [] && multiset(s) == multiset(t) && 0 <= k < |t| && t[k] == s[|s| - 1]
    ensures multiset(s[..|s| - 1]) == multiset(Without(t, k))
  {
    var n := |s| - 1;
    assert s == s[..n] + [s[n]];
    assert multiset(s[..n]) + multiset{s[n]} == multiset(s);
    WithoutMultiset(t, k);
    BagCancel(multiset(s[..n]), multiset(Without(t, k)), s[n]);
  }
}
