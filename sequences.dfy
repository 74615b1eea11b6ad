/** The list operations the source performs with `Array.prototype.filter`/`map` and with
    the database's `orderBy`. */
module Sequences {

  /** `s.filter(p)`: the elements satisfying `p`, in their original order. */
  function Filter<T>(s: seq<T>, p: T -> bool): (r: seq<T>)
    ensures |r| <= |s|
    ensures forall x :: x in r ==> x in s && p(x)
    ensures forall x :: x in s && p(x) ==> x in r
    ensures multiset(r) <= multiset(s)
  {
    if s == [] then []
    else
      var rest := Filter(s[1..], p);
      assert s == [s[0]] + s[1..];
      if p(s[0]) then [s[0]] + rest else rest
  }

  /** Filtering keeps every element when all of them pass. */
  lemma {:induction false} FilterAll<T>(s: seq<T>, p: T -> bool)
    requires forall i :: 0 <= i < |s| ==> p(s[i])
    ensures Filter(s, p) == s
  {
    if s != [] {
      FilterAll(s[1..], p);
    }
  }

  /** Filtering twice with the second test implied by the first is filtering once. */
  lemma {:induction false} FilterOfFilter<T>(s: seq<T>, p: T -> bool, q: T -> bool)
    requires forall x :: p(x) ==> q(x)
    ensures Filter(Filter(s, q), p) == Filter(s, p)
  {
    if s != [] {
      FilterOfFilter(s[1..], p, q);
    }
  }

  /** Two filters with tests that never hold together select disjoint parts of the list,
      so together they select at most the whole list. */
  lemma {:induction false} FilterDisjointCount<T>(s: seq<T>, p: T -> bool, q: T -> bool)
    requires forall x :: !(p(x) && q(x))
    ensures |Filter(s, p)| + |Filter(s, q)| <= |s|
  {
    if s != [] {
      FilterDisjointCount(s[1..], p, q);
    }
  }

  /** A filter and its complement split the list: together they select every element once. */
  lemma {:induction false} FilterComplementCount<T>(s: seq<T>, p: T -> bool, q: T -> bool)
    requires forall x :: q(x) == !p(x)
    ensures |Filter(s, p)| + |Filter(s, q)| == |s|
  {
    if s != [] {
      FilterComplementCount(s[1..], p, q);
    }
  }

  /** Filtering preserves the relative order of the elements it keeps. */
  lemma {:induction false} FilterKeepsOrder<T>(s: seq<T>, p: T -> bool, key: T -> int)
    requires SortedBy(s, key)
    ensures SortedBy(Filter(s, p), key)
  {
    if s != [] {
      FilterKeepsOrder(s[1..], p, key);
      var rest := Filter(s[1..], p);
      if p(s[0]) {
        forall j | 0 <= j < |rest| ensures key(s[0]) <= key(rest[j]) {
          assert rest[j] in s[1..];
        }
      }
    }
  }

  /** `s.map(x => same(x) ? y : x)`: every element `same` selects is replaced by `y`. */
  function ReplaceWhere<T>(s: seq<T>, same: T -> bool, y: T): (r: seq<T>)
    ensures |r| == |s|
    ensures forall i :: 0 <= i < |s| && same(s[i]) ==> r[i] == y
    ensures forall i :: 0 <= i < |s| && !same(s[i]) ==> r[i] == s[i]
  {
    seq(|s|, i requires 0 <= i < |s| => if same(s[i]) then y else s[i])
  }

  /** Replacing leaves the list as it was when nothing is selected. */
  lemma ReplaceNothing<T>(s: seq<T>, same: T -> bool, y: T)
    requires forall i :: 0 <= i < |s| ==> !same(s[i])
    ensures ReplaceWhere(s, same, y) == s
  {
  }

  /** The elements that are not replaced are exactly the elements the replacement leaves
      in place, in the same order. */
  lemma {:induction false} ReplaceKeepsOthers<T>(s: seq<T>, same: T -> bool, others: T -> bool, y: T)
    requires same(y) && forall x :: others(x) == !same(x)
    ensures Filter(ReplaceWhere(s, same, y), others) == Filter(s, others)
  {
    if s != [] {
      var r := ReplaceWhere(s, same, y);
      ReplaceKeepsOthers(s[1..], same, others, y);
      assert r[1..] == ReplaceWhere(s[1..], same, y);
    }
  }

  /** `s` is in non-decreasing order of `key`. */
  predicate SortedBy<T>(s: seq<T>, key: T -> int) {
    forall i, j :: 0 <= i < j < |s| ==> key(s[i]) <= key(s[j])
  }

  /** Inserts `x` into a sorted list before the first element with a larger key. */
  function InsertBy<T>(x: T, s: seq<T>, key: T -> int): (r: seq<T>)
    requires SortedBy(s, key)
    ensures SortedBy(r, key)
    ensures multiset(r) == multiset(s) + multiset{x}
  {
    if s == [] || key(x) <= key(s[0]) then
      SortedCons(x, s, key);
      [x] + s
    else
      var h, t := s[0], s[1..];
      var rest := InsertBy(x, t, key);
      assert s == [h] + t;
      LowerBound(h, rest, x, t, key);
      SortedCons(h, rest, key);
      [h] + rest
  }

  /** An element no larger than every member of a sorted list can be put in front of it. */
  lemma SortedCons<T>(h: T, s: seq<T>, key: T -> int)
    requires SortedBy(s, key)
    requires forall j :: 0 <= j < |s| ==> key(h) <= key(s[j])
    ensures SortedBy([h] + s, key)
  {
    var r := [h] + s;
    forall i, j | 0 <= i < j < |r| ensures key(r[i]) <= key(r[j]) {
      if i > 0 {
        assert r[i] == s[i - 1] && r[j] == s[j - 1];
      } else {
        assert r[j] == s[j - 1];
      }
    }
  }

  /** An element whose key bounds both `x` and a sorted list's members bounds any
      rearrangement of them. */
  lemma LowerBound<T>(h: T, rest: seq<T>, x: T, t: seq<T>, key: T -> int)
    requires multiset(rest) == multiset(t) + multiset{x}
    requires key(h) <= key(x)
    requires forall y :: y in t ==> key(h) <= key(y)
    ensures forall j :: 0 <= j < |rest| ==> key(h) <= key(rest[j])
  {
    forall j | 0 <= j < |rest| ensures key(h) <= key(rest[j]) {
      assert rest[j] in multiset(rest);
      assert rest[j] == x || rest[j] in multiset(t);
    }
  }

  /** The database's `orderBy` on `key`, ascending; a descending order uses a negated key. */
  function SortBy<T>(s: seq<T>, key: T -> int): (r: seq<T>)
    ensures SortedBy(r, key)
    ensures multiset(r) == multiset(s)
    ensures |r| == |s|
  {
    if s == [] then []
    else
      assert s == [s[0]] + s[1..];
      InsertBy(s[0], SortBy(s[1..], key), key)
  }
}
