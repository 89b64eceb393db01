/** Sequence helpers shared by the model: duplicate-freeness, first-appearance
    deduplication (what pandas' `unique()` returns) and Python's `[:n]` slice. */
module Seqs {

  /** No element occurs twice. */
  ghost predicate Distinct<T>(s: seq<T>) {
    forall i, j :: 0 <= i < j < |s| ==> s[i] != s[j]
  }

  /** The elements of `s`, each once, in order of first appearance. */
  function Dedup<T(==,!new)>(s: seq<T>): (r: seq<T>)
    ensures Distinct(r)
    ensures forall x :: x in r <==> x in s
    ensures |r| <= |s|
  {
    if s == [] then []
    else
      var init := s[..|s| - 1];
      var d := Dedup(init);
      assert forall x :: x in s <==> x in init || x == s[|s| - 1] by {
        assert s == init + [s[|s| - 1]];
      }
      if s[|s| - 1] in d then d else d + [s[|s| - 1]]
  }

  /** Dedup keeps first-appearance order: an element placed earlier in the
      result first occurs earlier in the input. */
  lemma {:induction false} DedupKeepsFirstAppearanceOrder<T(!new)>(s: seq<T>, i: nat, j: nat)
    requires i < j < |Dedup(s)|
    ensures FirstIndex(s, Dedup(s)[i]) < FirstIndex(s, Dedup(s)[j])
  {
    var init := s[..|s| - 1];
    var d := Dedup(init);
    assert s == init + [s[|s| - 1]];
    var x, y := Dedup(s)[i], Dedup(s)[j];
    if j < |d| {
      DedupKeepsFirstAppearanceOrder(init, i, j);
      FirstIndexOfPrefix(init, s, x);
      FirstIndexOfPrefix(init, s, y);
    } else {
      // y is the last element, new in s: it first occurs at the very end
      assert y == s[|s| - 1] && y !in init;
      assert x in d;
      FirstIndexOfPrefix(init, s, x);
      FirstIndexBounds(init, x);
      FirstIndexIsLast(s, y);
    }
  }

  /** Index of the first occurrence of `x` in `s`. */
  function FirstIndex<T(==,!new)>(s: seq<T>, x: T): (k: nat)
    requires x in s
    ensures k < |s| && s[k] == x
    ensures forall j :: 0 <= j < k ==> s[j] != x
  {
    if s[0] == x then 0 else 1 + FirstIndex(s[1..], x)
  }

  lemma FirstIndexBounds<T(!new)>(s: seq<T>, x: T)
    requires x in s
    ensures FirstIndex(s, x) < |s|
  {
  }

  lemma FirstIndexOfPrefix<T(!new)>(p: seq<T>, s: seq<T>, x: T)
    requires x in p && p <= s
    ensures x in s && FirstIndex(s, x) == FirstIndex(p, x)
  {
    var k, m := FirstIndex(p, x), FirstIndex(s, x);
    assert s[k] == x;
    assert forall j :: 0 <= j < |p| ==> p[j] == s[j];
  }

  lemma FirstIndexIsLast<T(!new)>(s: seq<T>, x: T)
    requires |s| > 0 && s[|s| - 1] == x && x !in s[..|s| - 1]
    ensures FirstIndex(s, x) == |s| - 1
  {
  }

  /** `s` without its element at position `i`. */
  function RemoveAt<T>(s: seq<T>, i: nat): (r: seq<T>)
    requires i < |s|
    ensures |r| == |s| - 1
    ensures forall k :: 0 <= k < i ==> r[k] == s[k]
    ensures forall k :: i <= k < |r| ==> r[k] == s[k + 1]
  {
    s[..i] + s[i + 1..]
  }

  /** Removing position i of a duplicate-free sequence removes exactly the
      element s[i] and keeps the rest duplicate-free. */
  lemma RemoveAtElements<T>(s: seq<T>, i: nat)
    requires i < |s| && Distinct(s)
    ensures Distinct(RemoveAt(s, i))
    ensures forall y :: y in RemoveAt(s, i) <==> y in s && y != s[i]
  {
    var r := RemoveAt(s, i);
    forall y ensures y in r <==> y in s && y != s[i] {
      if y in s && y != s[i] {
        var j :| 0 <= j < |s| && s[j] == y;
        if j < i { assert r[j] == y; } else { assert r[j - 1] == y; }
      }
    }
  }

  /** Dropping the last element of one duplicate-free sequence and the same
      element from another with the same elements leaves two duplicate-free
      sequences with the same elements. */
  lemma DropMatched<T>(d1: seq<T>, d2: seq<T>, i: nat)
    requires Distinct(d1) && Distinct(d2) && |d1| > 0 && i < |d2|
    requires d2[i] == d1[|d1| - 1]
    requires forall x :: x in d1 <==> x in d2
    ensures Distinct(d1[..|d1| - 1]) && Distinct(RemoveAt(d2, i))
    ensures forall y :: y in d1[..|d1| - 1] <==> y in RemoveAt(d2, i)
  {
    var front, x := d1[..|d1| - 1], d1[|d1| - 1];
    assert d1 == front + [x];
    RemoveAtElements(d2, i);
    assert forall y :: y in front <==> y in d1 && y != x;
  }

  /** A duplicate-free sequence is no longer than any sequence holding all
      of its elements. */
  lemma {:induction false} DistinctNoLonger<T>(a: seq<T>, b: seq<T>)
    requires Distinct(a)
    requires forall x :: x in a ==> x in b
    ensures |a| <= |b|
  {
    if a != [] {
      var front, x := a[..|a| - 1], a[|a| - 1];
      assert a == front + [x];
      assert x in b;
      var i :| 0 <= i < |b| && b[i] == x;
      var rest := RemoveAt(b, i);
      forall y | y in front ensures y in rest {
        var k :| 0 <= k < |front| && front[k] == y;
        assert a[k] == y && a[|a| - 1] == x;
        assert y in a;
        var j :| 0 <= j < |b| && b[j] == y;
        if j < i { assert rest[j] == y; } else { assert rest[j - 1] == y; }
      }
      DistinctNoLonger(front, rest);
    }
  }

  /** `f` applied to every element of `s`, in order. */
  function MapSeq<A, B>(s: seq<A>, f: A --> B): (r: seq<B>)
    requires forall i :: 0 <= i < |s| ==> f.requires(s[i])
    ensures |r| == |s|
    ensures forall i :: 0 <= i < |s| ==> r[i] == f(s[i])
  {
    seq(|s|, i requires 0 <= i < |s| => f(s[i]))
  }

  /** Mapping one more element appends its image. */
  lemma MapSeqPrefixStep<A, B>(s: seq<A>, k: nat, f: A --> B)
    requires k < |s|
    requires forall i :: 0 <= i < |s| ==> f.requires(s[i])
    ensures MapSeq(s[..k + 1], f) == MapSeq(s[..k], f) + [f(s[k])]
  {
    var a, b := MapSeq(s[..k + 1], f), MapSeq(s[..k], f) + [f(s[k])];
    assert forall i :: 0 <= i < |a| ==> a[i] == b[i];
  }

  /** Python's slice `s[:n]` for a non-negative `n`. */
  function Take<T>(s: seq<T>, n: nat): (r: seq<T>)
    ensures |r| == if n < |s| then n else |s|
    ensures r <= s
  {
    if n < |s| then s[..n] else s
  }

  /** Concatenating two duplicate-free sequences with no common element gives
      a duplicate-free sequence. */
  lemma DistinctConcat<T>(a: seq<T>, b: seq<T>)
    requires Distinct(a) && Distinct(b)
    requires forall x :: x in a ==> x !in b
    ensures Distinct(a + b)
  {
    forall i, j | 0 <= i < j < |a + b|
      ensures (a + b)[i] != (a + b)[j]
    {
      if j < |a| {
      } else if i >= |a| {
        assert (a + b)[i] == b[i - |a|] && (a + b)[j] == b[j - |a|];
      } else {
        assert (a + b)[i] in a && (a + b)[j] in b;
      }
    }
  }
}
