/** Sequences without repetition. */
module Sequences {

  ghost predicate Distinct<T(!new)>(s: seq<T>) {
    forall i, j :: 0 <= i < j < |s| ==> s[i] != s[j]
  }

  /** Keys are distinct exactly when no two entries share one. */
  lemma {:induction false} DistinctImage<T, K(!new)>(s: seq<T>, key: T -> K, keys: seq<K>)
    requires |keys| == |s| && forall i :: 0 <= i < |s| ==> keys[i] == key(s[i])
    ensures Distinct(keys) <==> forall i, j :: 0 <= i < j < |s| ==> key(s[i]) != key(s[j])
  {
    forall i, j | 0 <= i < j < |s|
      ensures keys[i] != keys[j] <==> key(s[i]) != key(s[j])
    {
    }
  }

  /** The loop that collects what it has seen and stops at the first repetition. */
  method AllDistinct<T(==, !new)>(s: seq<T>) returns (distinct: bool)
    ensures distinct == Distinct(s)
  {
    var seen: set<T> := {};
    for i := 0 to |s|
      invariant Distinct(s[..i])
      invariant forall x :: x in seen <==> x in s[..i]
    {
      assert s[..i + 1] == s[..i] + [s[i]];
      if s[i] in seen {
        ghost var k :| 0 <= k < i && s[..i][k] == s[i];
        return false;
      }
      seen := seen + {s[i]};
    }
    assert s[..|s|] == s;
    return true;
  }
}
