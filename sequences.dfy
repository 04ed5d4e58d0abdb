/** Facts about sequences without repeated elements, shared by the list models. */
module Sequences {

  predicate NoDuplicates<T(==)>(s: seq<T>)
  {
    forall i, j :: 0 <= i < j < |s| ==> s[i] != s[j]
  }

  /** Without repetitions every element is counted at most once. */
  lemma {:induction false} NoDuplicatesCount<T>(t: seq<T>, x: T)
    requires NoDuplicates(t)
    ensures multiset(t)[x] <= 1
  {
    if t != [] {
      assert t == [t[0]] + t[1..];
      assert NoDuplicates(t[1..]) by {
        forall i, j | 0 <= i < j < |t[1..]| ensures t[1..][i] != t[1..][j] {
          assert t[1..][i] == t[i + 1] && t[1..][j] == t[j + 1];
        }
      }
      NoDuplicatesCount(t[1..], x);
      if t[0] == x {
        assert forall i :: 0 <= i < |t[1..]| ==> t[1..][i] == t[i + 1] && t[i + 1] != t[0];
        assert x !in t[1..];
      }
    }
  }

  /** Extending a prefix by one element adds that element to its multiset. */
  lemma PrefixMultiset<T>(s: seq<T>, i: int)
    requires 0 <= i < |s|
    ensures multiset(s[..i + 1]) == multiset(s[..i]) + multiset{s[i]}
  {
    assert s[..i + 1] == s[..i] + [s[i]];
  }

  /** An element found at two positions is counted at least twice. */
  lemma RepeatCount<T>(s: seq<T>, i: int, j: int)
    requires 0 <= i < j < |s| && s[i] == s[j]
    ensures multiset(s)[s[i]] >= 2
  {
    assert s == s[..j] + s[j..];
    assert s[..j][i] == s[i];
    assert s[j..][0] == s[j];
  }

  /** A rearrangement of a list without repetitions has none either. */
  lemma PermutationNoDuplicates<T>(before: seq<T>, after: seq<T>)
    requires NoDuplicates(before) && multiset(after) == multiset(before)
    ensures NoDuplicates(after)
  {
    forall i, j | 0 <= i < j < |after| ensures after[i] != after[j] {
      if after[i] == after[j] {
        RepeatCount(after, i, j);
        NoDuplicatesCount(before, after[i]);
        assert false;
      }
    }
  }
}
