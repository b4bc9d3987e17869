/** Java's null reference, for values the introspection may leave unset. */
module Wrappers {

  datatype Option<+T> = None | Some(value: T)
}

/** Sequence helpers shared by the name transform and the ClassInfo lookup. */
module Sequences {

  /** Index of the last occurrence of `x` in `s`, or -1 when there is none:
      the contract of `String.lastIndexOf` and of a scan that keeps
      overwriting its result with every match. */
  function LastIndexOf<T(==)>(s: seq<T>, x: T): (k: int)
    ensures -1 <= k < |s|
    ensures k == -1 <==> x !in s
    ensures k >= 0 ==> s[k] == x && x !in s[k + 1..]
  {
    if s == [] then -1
    else if s[|s| - 1] == x then |s| - 1
    else
      var k := LastIndexOf(s[..|s| - 1], x);
      assert s == s[..|s| - 1] + [s[|s| - 1]];
      assert k >= 0 ==> s[k + 1..] == s[..|s| - 1][k + 1..] + [s[|s| - 1]];
      k
  }

  /** One more element scanned: a match moves the last index to it. */
  lemma LastIndexOfStep<T>(s: seq<T>, i: nat, x: T)
    requires i < |s|
    ensures LastIndexOf(s[..i + 1], x) == if s[i] == x then i else LastIndexOf(s[..i], x)
  {
    assert s[..i + 1][..i] == s[..i];
  }

  /** No element occurs twice. */
  predicate Distinct<T(==)>(s: seq<T>) {
    forall i, j :: 0 <= i < j < |s| ==> s[i] != s[j]
  }

  /** Appending an element not yet present keeps a sequence distinct. */
  lemma DistinctSnoc<T>(s: seq<T>, x: T)
    requires Distinct(s) && x !in s
    ensures Distinct(s + [x])
  {
    forall i, j | 0 <= i < j < |s + [x]|
      ensures (s + [x])[i] != (s + [x])[j]
    {
      if j == |s| {
        assert (s + [x])[i] == s[i];
      }
    }
  }
}
