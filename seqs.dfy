/** Facts about sequences used to state the ordering guarantees of the
    search results and the application listing. */
module Seqs {

  function Min(a: nat, b: nat): nat { if a <= b then a else b }

  /** The first `n` elements of `s` (all of `s` when it is shorter): Python's `s[:n]`. */
  function Take<T>(s: seq<T>, n: nat): (r: seq<T>)
    ensures |r| == Min(n, |s|) && |r| <= n
    ensures forall i :: 0 <= i < |r| ==> r[i] == s[i]
  {
    s[..Min(n, |s|)]
  }

  /** `r` can be obtained from `s` by deleting elements, keeping the rest in order. */
  predicate IsSubsequence<T(==)>(r: seq<T>, s: seq<T>)
    decreases |s|
  {
    if r == [] then true
    else if s == [] then false
    else if r[|r| - 1] == s[|s| - 1] then IsSubsequence(r[..|r| - 1], s[..|s| - 1])
    else IsSubsequence(r, s[..|s| - 1])
  }

  /** No element occurs twice. */
  predicate Distinct<T(==)>(s: seq<T>) {
    forall i, j :: 0 <= i < j < |s| ==> s[i] != s[j]
  }

  lemma {:induction false} SubsequenceMembers<T>(r: seq<T>, s: seq<T>)
    requires IsSubsequence(r, s)
    ensures forall x :: x in r ==> x in s
    decreases |s|
  {
    if r != [] {
      assert s != [];
      var s' := s[..|s| - 1];
      if r[|r| - 1] == s[|s| - 1] {
        SubsequenceMembers(r[..|r| - 1], s');
        forall x | x in r ensures x in s {
          if x != r[|r| - 1] {
            var i :| 0 <= i < |r| && r[i] == x;
            assert r[..|r| - 1][i] == x;
            assert x in s';
          }
        }
      } else {
        SubsequenceMembers(r, s');
      }
    }
  }

  lemma {:induction false} SubsequenceDropLast<T>(r: seq<T>, s: seq<T>)
    requires r != [] && IsSubsequence(r, s)
    ensures IsSubsequence(r[..|r| - 1], s)
    decreases |s|, 0
  {
    var r' := r[..|r| - 1];
    var s' := s[..|s| - 1];
    if r[|r| - 1] == s[|s| - 1] {
      SubsequenceExtend(r', s', s[|s| - 1]);
      assert s' + [s[|s| - 1]] == s;
    } else {
      SubsequenceDropLast(r, s');
      SubsequenceExtend(r', s', s[|s| - 1]);
      assert s' + [s[|s| - 1]] == s;
    }
  }

  /** Appending to the larger sequence keeps a subsequence a subsequence. */
  lemma {:induction false} SubsequenceExtend<T>(r: seq<T>, s: seq<T>, x: T)
    requires IsSubsequence(r, s)
    ensures IsSubsequence(r, s + [x])
    decreases |s|, 1
  {
    var t := s + [x];
    assert t[..|t| - 1] == s;
    if r != [] && r[|r| - 1] == x {
      SubsequenceDropLast(r, s);
    }
  }

  /** Every prefix of a subsequence is a subsequence. */
  lemma {:induction false} SubsequencePrefix<T>(r: seq<T>, s: seq<T>, k: nat)
    requires IsSubsequence(r, s) && k <= |r|
    ensures IsSubsequence(r[..k], s)
    decreases |r| - k
  {
    if k < |r| {
      SubsequenceDropLast(r, s);
      SubsequencePrefix(r[..|r| - 1], s, k);
      assert r[..|r| - 1][..k] == r[..k];
    } else {
      assert r[..k] == r;
    }
  }

  /** A subsequence of a sequence without repetitions has none either. */
  lemma {:induction false} SubsequenceDistinct<T>(r: seq<T>, s: seq<T>)
    requires IsSubsequence(r, s) && Distinct(s)
    ensures Distinct(r)
    decreases |s|
  {
    if r != [] {
      var s' := s[..|s| - 1];
      assert Distinct(s');
      if r[|r| - 1] == s[|s| - 1] {
        var r' := r[..|r| - 1];
        SubsequenceDistinct(r', s');
        SubsequenceMembers(r', s');
        forall i, j | 0 <= i < j < |r| ensures r[i] != r[j] {
          if j < |r| - 1 {
            assert r'[i] == r[i] && r'[j] == r[j];
          } else {
            assert r[i] == r'[i] && r'[i] in s';
          }
        }
      } else {
        SubsequenceDistinct(r, s');
      }
    }
  }
}
