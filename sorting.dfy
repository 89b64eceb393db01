/** A stable insertion sort by a real-valued key. It stands for pandas'
    `sort_values`; both slotting tables are sorted with it, one ascending by
    bin cost and one descending by SKU effort (ascending by the negated score). */
module Sorting {

  /** Keys never decrease from left to right. */
  ghost predicate SortedBy<T>(s: seq<T>, key: T -> real) {
    forall i, j :: 0 <= i < j < |s| ==> key(s[i]) <= key(s[j])
  }

  /** Inserts `x` before the first element whose key is not smaller. */
  function InsertBy<T>(x: T, s: seq<T>, key: T -> real): (r: seq<T>)
    requires SortedBy(s, key)
    ensures SortedBy(r, key)
    ensures multiset(r) == multiset(s) + multiset{x}
    ensures |r| == |s| + 1
  {
    if s == [] || key(x) <= key(s[0]) then
      SortedCons(x, s, key);
      [x] + s
    else
      var rest := InsertBy(x, s[1..], key);
      assert s == [s[0]] + s[1..];
      LowerBoundKept(s[0], x, s[1..], rest, key);
      SortedCons(s[0], rest, key);
      [s[0]] + rest
  }

  /** A key no larger than every key of a sorted sequence can go in front. */
  lemma SortedCons<T>(h: T, s: seq<T>, key: T -> real)
    requires SortedBy(s, key)
    requires forall y :: y in s ==> key(h) <= key(y)
    ensures SortedBy([h] + s, key)
  {
    var r := [h] + s;
    forall i, j | 0 <= i < j < |r| ensures key(r[i]) <= key(r[j]) {
      assert r[j] == s[j - 1];
      if i > 0 {
        assert r[i] == s[i - 1];
      }
    }
  }

  /** A lower bound of the keys of `s` and of `key(x)` bounds every key of a
      permutation of `s` plus `x`. */
  lemma LowerBoundKept<T>(h: T, x: T, s: seq<T>, r: seq<T>, key: T -> real)
    requires SortedBy([h] + s, key) && key(h) < key(x)
    requires multiset(r) == multiset(s) + multiset{x}
    ensures forall y :: y in r ==> key(h) <= key(y)
  {
    forall y | y in r ensures key(h) <= key(y) {
      assert y in multiset(r);
      if y != x {
        assert y in multiset(s);
        var k :| 0 <= k < |s| && s[k] == y;
        assert ([h] + s)[0] == h && ([h] + s)[k + 1] == y;
      }
    }
  }

  /** The elements of `s` ordered by `key`; equal keys keep their input order. */
  function SortBy<T>(s: seq<T>, key: T -> real): (r: seq<T>)
    ensures SortedBy(r, key)
    ensures multiset(r) == multiset(s)
    ensures |r| == |s|
  {
    if s == [] then []
    else
      assert s == [s[0]] + s[1..];
      InsertBy(s[0], SortBy(s[1..], key), key)
  }
}
