/**
 * The two query shapes the routers use on id-keyed tables: filter rows by a condition
 * (`findMany`/`count` with `where`), and order the result by a numeric column (`orderBy`).
 */
module Queries {

  /** The ids below `n` whose rows satisfy `keep`. */
  ghost function IdsBelow<T>(rows: map<nat, T>, keep: T -> bool, n: nat): set<nat>
  {
    set k | k in rows && k < n && keep(rows[k])
  }

  /** The rows with id below `n` that satisfy `keep`, in increasing id order. */
  function Select<T(==)>(rows: map<nat, T>, keep: T -> bool, n: nat): (r: seq<T>)
    ensures forall x :: x in r ==> x in rows.Values && keep(x)
    ensures forall k :: k in rows && k < n && keep(rows[k]) ==> rows[k] in r
    ensures |r| == |IdsBelow(rows, keep, n)|
  {
    if n == 0 then
      assert IdsBelow(rows, keep, 0) == {};
      []
    else
      var front := Select(rows, keep, n - 1);
      var last := n - 1;
      if last in rows && keep(rows[last]) then
        assert IdsBelow(rows, keep, n) == IdsBelow(rows, keep, n - 1) + {last};
        front + [rows[last]]
      else
        assert IdsBelow(rows, keep, n) == IdsBelow(rows, keep, n - 1);
        front
  }

  /** `s` is in non-decreasing order of `key`. */
  ghost predicate SortedBy<T>(s: seq<T>, key: T -> int)
  {
    forall i, j :: 0 <= i < j < |s| ==> key(s[i]) <= key(s[j])
  }

  /** Insert `x` into `s` before the first element whose key is larger. */
  function InsertBy<T>(x: T, s: seq<T>, key: T -> int): seq<T>
  {
    if s == [] then [x]
    else if key(x) < key(s[0]) then [x] + s
    else [s[0]] + InsertBy(x, s[1..], key)
  }

  /** Inserting adds exactly `x`. */
  lemma {:induction false} InsertByElements<T>(x: T, s: seq<T>, key: T -> int)
    ensures multiset(InsertBy(x, s, key)) == multiset(s) + multiset{x}
  {
    if s != [] && key(x) >= key(s[0]) {
      InsertByElements(x, s[1..], key);
      assert s == [s[0]] + s[1..];
    }
  }

  /** A sorted list stays sorted under a head whose key is not larger than any of its keys. */
  lemma ConsSorted<T>(h: T, t: seq<T>, key: T -> int)
    requires SortedBy(t, key)
    requires forall i :: 0 <= i < |t| ==> key(h) <= key(t[i])
    ensures SortedBy([h] + t, key)
  {
    var r := [h] + t;
    forall i, j | 0 <= i < j < |r|
      ensures key(r[i]) <= key(r[j])
    {
      assert r[j] == t[j - 1];
      if i > 0 {
        assert r[i] == t[i - 1];
      }
    }
  }

  /** Inserting into a sorted list keeps it sorted. */
  lemma {:induction false} InsertBySorted<T>(x: T, s: seq<T>, key: T -> int)
    requires SortedBy(s, key)
    ensures SortedBy(InsertBy(x, s, key), key)
  {
    if s == [] {
    } else if key(x) < key(s[0]) {
      ConsSorted(x, s, key);
    } else {
      var tail := s[1..];
      assert SortedBy(tail, key) by {
        forall i, j | 0 <= i < j < |tail|
          ensures key(tail[i]) <= key(tail[j])
        {
          assert tail[i] == s[i + 1] && tail[j] == s[j + 1];
        }
      }
      var rest := InsertBy(x, tail, key);
      InsertBySorted(x, tail, key);
      InsertByElements(x, tail, key);
      forall i | 0 <= i < |rest|
        ensures key(s[0]) <= key(rest[i])
      {
        assert rest[i] in multiset(rest);
        if rest[i] != x {
          assert rest[i] in multiset(tail);
          var j :| 0 <= j < |tail| && tail[j] == rest[i];
          assert s[j + 1] == rest[i];
        }
      }
      ConsSorted(s[0], rest, key);
    }
  }

  lemma HeadTail<T>(s: seq<T>)
    requires s != []
    ensures multiset(s) == multiset(s[1..]) + multiset{s[0]}
  {
    assert s == [s[0]] + s[1..];
  }

  /** `s` in non-decreasing order of `key`: a sorted permutation of `s`. */
  function SortBy<T>(s: seq<T>, key: T -> int): (r: seq<T>)
    ensures SortedBy(r, key)
    ensures multiset(r) == multiset(s)
  {
    if s == [] then []
    else
      var rest := SortBy(s[1..], key);
      InsertBySorted(s[0], rest, key);
      InsertByElements(s[0], rest, key);
      HeadTail(s);
      InsertBy(s[0], rest, key)
  }

  /** Sorting keeps exactly the elements and the length. */
  lemma SortKeepsElements<T>(s: seq<T>, key: T -> int)
    ensures |SortBy(s, key)| == |s|
    ensures forall x :: x in SortBy(s, key) <==> x in s
  {
    var r := SortBy(s, key);
    assert |multiset(r)| == |multiset(s)|;
    forall x
      ensures x in r <==> x in s
    {
      assert x in r <==> x in multiset(r);
      assert x in s <==> x in multiset(s);
    }
  }
}
