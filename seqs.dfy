/**
 * The Array methods the source relies on (`filter`, `map`), defined once on
 * Dafny sequences, with the facts about them that the rest of the model uses.
 */
module Seqs {

  /** `s.filter(p)`: the elements satisfying `p`, in their original order. */
  function Filter<T(==)>(s: seq<T>, p: T -> bool): (r: seq<T>)
    ensures |r| <= |s|
    ensures forall i :: 0 <= i < |r| ==> r[i] in s && p(r[i])
    ensures forall i :: 0 <= i < |s| && p(s[i]) ==> s[i] in r
    decreases |s|
  {
    if |s| == 0 then [] else (if p(s[0]) then [s[0]] else []) + Filter(s[1..], p)
  }

  /** `s.map(f)`. */
  function Map<T, U>(s: seq<T>, f: T -> U): (r: seq<U>)
    ensures |r| == |s|
    ensures forall i :: 0 <= i < |s| ==> r[i] == f(s[i])
    decreases |s|
  {
    if |s| == 0 then [] else [f(s[0])] + Map(s[1..], f)
  }

  /** Mapping distributes over concatenation. */
  lemma MapAppend<T, U>(a: seq<T>, b: seq<T>, f: T -> U)
    ensures Map(a + b, f) == Map(a, f) + Map(b, f)
  {
    var l := Map(a + b, f);
    var r := Map(a, f) + Map(b, f);
    assert |l| == |r|;
    forall i | 0 <= i < |l|
      ensures l[i] == r[i]
    {
      if i < |a| {
        assert (a + b)[i] == a[i];
      } else {
        assert (a + b)[i] == b[i - |a|];
      }
    }
  }

  /** No value occurs twice. */
  predicate NoDuplicates<T(==)>(s: seq<T>) {
    forall i, j :: 0 <= i < j < |s| ==> s[i] != s[j]
  }

  /** A filter that keeps every element is the identity. */
  lemma {:induction false} FilterKeepsAll<T>(s: seq<T>, p: T -> bool)
    requires forall i :: 0 <= i < |s| ==> p(s[i])
    ensures Filter(s, p) == s
    decreases |s|
  {
    if |s| > 0 {
      FilterKeepsAll(s[1..], p);
    }
  }

  /** Filtering distributes over concatenation. */
  lemma {:induction false} FilterAppend<T>(a: seq<T>, b: seq<T>, p: T -> bool)
    ensures Filter(a + b, p) == Filter(a, p) + Filter(b, p)
    decreases |a|
  {
    if |a| == 0 {
      assert a + b == b;
    } else {
      assert (a + b)[1..] == a[1..] + b;
      FilterAppend(a[1..], b, p);
    }
  }

  /**
   * Two complementary filters split a sequence: together they keep every
   * element exactly once.
   */
  lemma {:induction false} FilterSplit<T>(s: seq<T>, p: T -> bool, q: T -> bool)
    requires forall i :: 0 <= i < |s| ==> (p(s[i]) <==> !q(s[i]))
    ensures |Filter(s, p)| + |Filter(s, q)| == |s|
    ensures multiset(Filter(s, p)) + multiset(Filter(s, q)) == multiset(s)
    decreases |s|
  {
    if |s| > 0 {
      var t := s[1..];
      FilterSplit(t, p, q);
      assert s == [s[0]] + t;
      assert multiset(s) == multiset{s[0]} + multiset(t);
      var fp, fq := Filter(t, p), Filter(t, q);
      if p(s[0]) {
        assert Filter(s, p) == [s[0]] + fp;
        assert multiset(Filter(s, p)) == multiset{s[0]} + multiset(fp);
        assert Filter(s, q) == fq;
      } else {
        assert Filter(s, p) == fp;
        assert Filter(s, q) == [s[0]] + fq;
        assert multiset(Filter(s, q)) == multiset{s[0]} + multiset(fq);
      }
    }
  }

  /** Filtering twice by the same predicate is filtering once. */
  lemma FilterIdempotent<T>(s: seq<T>, p: T -> bool)
    ensures Filter(Filter(s, p), p) == Filter(s, p)
  {
    var r := Filter(s, p);
    FilterKeepsAll(r, p);
  }

  /** The element at the front of the input keeps its place in front of the output. */
  lemma {:induction false} FilterPreservesOrder<T>(s: seq<T>, p: T -> bool, i: nat, j: nat)
    requires i < j < |s| && p(s[i]) && p(s[j])
    ensures exists a, b :: 0 <= a < b < |Filter(s, p)| && Filter(s, p)[a] == s[i] && Filter(s, p)[b] == s[j]
    decreases |s|
  {
    if i == 0 {
      assert s[j] in Filter(s[1..], p) by { assert s[1..][j - 1] == s[j]; }
      var k :| 0 <= k < |Filter(s[1..], p)| && Filter(s[1..], p)[k] == s[j];
      assert Filter(s, p)[0] == s[i] && Filter(s, p)[k + 1] == s[j];
    } else {
      assert s[1..][i - 1] == s[i] && s[1..][j - 1] == s[j];
      FilterPreservesOrder(s[1..], p, i - 1, j - 1);
      var a, b :| 0 <= a < b < |Filter(s[1..], p)| && Filter(s[1..], p)[a] == s[i] && Filter(s[1..], p)[b] == s[j];
      var h := if p(s[0]) then 1 else 0;
      assert Filter(s, p)[a + h] == s[i] && Filter(s, p)[b + h] == s[j];
    }
  }

  /** A filter keeps every occurrence of a value it accepts and none of a value it rejects. */
  lemma {:induction false} FilterCount<T>(s: seq<T>, p: T -> bool, x: T)
    ensures multiset(Filter(s, p))[x] == if p(x) then multiset(s)[x] else 0
    decreases |s|
  {
    if |s| > 0 {
      FilterCount(s[1..], p, x);
      assert s == [s[0]] + s[1..];
    }
  }
}
