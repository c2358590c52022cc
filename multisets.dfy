/** Facts about multisets of sequences that the permutation proofs share. */
module Multisets {

  /** An element that occurs at two positions is counted at least twice. */
  lemma CountTwice<T>(s: seq<T>, i: nat, j: nat)
    requires i < j < |s| && s[i] == s[j]
    ensures multiset(s)[s[i]] >= 2
  {
    assert s == s[..j] + s[j..];
    assert s[i] in s[..j];
    assert s[j] in s[j..];
  }

  /** A sequence with the multiset of a set has no element twice. */
  lemma DistinctOfSet<T>(s: seq<T>, a: set<T>)
    requires multiset(s) == multiset(a)
    ensures forall i, j :: 0 <= i < j < |s| ==> s[i] != s[j]
  {
    forall i, j | 0 <= i < j < |s| ensures s[i] != s[j] {
      if s[i] == s[j] {
        CountTwice(s, i, j);
        assert false;
      }
    }
  }

  /** A sequence with no element twice counts each element at most once. */
  lemma {:induction false} CountOnce<T>(t: seq<T>, x: T)
    requires forall i, j :: 0 <= i < j < |t| ==> t[i] != t[j]
    ensures multiset(t)[x] <= 1
    decreases |t|
  {
    if t != [] {
      var init := t[..|t| - 1];
      CountOnce(init, x);
      assert t == init + [t[|t| - 1]];
      if x == t[|t| - 1] {
        assert x !in init;
      }
    }
  }

  /** A rearrangement of a sequence with no element twice has no element twice. */
  lemma DistinctOfPermutation<T>(s: seq<T>, t: seq<T>)
    requires multiset(s) == multiset(t)
    requires forall i, j :: 0 <= i < j < |t| ==> t[i] != t[j]
    ensures forall i, j :: 0 <= i < j < |s| ==> s[i] != s[j]
  {
    forall i, j | 0 <= i < j < |s| ensures s[i] != s[j] {
      if s[i] == s[j] {
        CountTwice(s, i, j);
        CountOnce(t, s[i]);
        assert false;
      }
    }
  }
}
