/**
 * Stable sorting of a sequence by a date key, as Python's sorted(...,
 * key=...) does: the result is chronological, holds the same elements, and
 * keeps elements with equal dates in their original order. The sort works
 * on an integer rank; a date key is ranked by its day ordinal.
 */
module Sorting {
  import opened Dates

  predicate SortedBy<T>(s: seq<T>, rank: T -> int)
  {
    forall i, j :: 0 <= i < j < |s| ==> rank(s[i]) <= rank(s[j])
  }

  /** Places x in front of the first element ranked at or above it. */
  function Insert<T>(x: T, s: seq<T>, rank: T -> int): (r: seq<T>)
    ensures multiset(r) == multiset(s) + multiset{x}
    ensures |r| == |s| + 1
  {
    if s == [] || rank(x) <= rank(s[0]) then [x] + s
    else
      assert s == [s[0]] + s[1..];
      [s[0]] + Insert(x, s[1..], rank)
  }

  /** Inserting into a sorted sequence keeps it sorted. */
  lemma {:induction false} InsertKeepsSorted<T>(x: T, s: seq<T>, rank: T -> int)
    requires SortedBy(s, rank)
    ensures SortedBy(Insert(x, s, rank), rank)
  {
    if s == [] || rank(x) <= rank(s[0]) {
      SortedCons(x, s, rank);
    } else {
      var rest := Insert(x, s[1..], rank);
      assert SortedBy(s[1..], rank);
      InsertKeepsSorted(x, s[1..], rank);
      HeadBelowRest(x, s, rank, rest);
      SortedCons(s[0], rest, rank);
    }
  }

  /** A sorted sequence stays sorted behind an element ranked at or below all of it. */
  lemma SortedCons<T>(h: T, s: seq<T>, rank: T -> int)
    requires SortedBy(s, rank)
    requires s == [] || rank(h) <= rank(s[0])
    ensures SortedBy([h] + s, rank)
  {
    var r := [h] + s;
    forall i, j | 0 <= i < j < |r| ensures rank(r[i]) <= rank(r[j]) {
      if i == 0 && j > 1 {
        assert rank(s[0]) <= rank(s[j - 1]);
      }
    }
  }

  /** Inserting x, ranked above the head of a sorted s, into s's tail keeps the head lowest. */
  lemma HeadBelowRest<T>(x: T, s: seq<T>, rank: T -> int, rest: seq<T>)
    requires SortedBy(s, rank) && s != [] && rank(s[0]) < rank(x)
    requires multiset(rest) == multiset(s[1..]) + multiset{x}
    ensures rest == [] || rank(s[0]) <= rank(rest[0])
  {
    if rest != [] {
      assert rest[0] in multiset(rest);
      if rest[0] != x {
        assert rest[0] in multiset(s[1..]);
        var k :| 0 <= k < |s[1..]| && s[1..][k] == rest[0];
        assert s[k + 1] == rest[0];
      }
    }
  }

  /** sorted(s, key=rank): an insertion sort. */
  function SortBy<T>(s: seq<T>, rank: T -> int): (r: seq<T>)
    ensures multiset(r) == multiset(s)
    ensures |r| == |s|
    ensures SortedBy(r, rank)
  {
    if s == [] then []
    else
      assert s == [s[0]] + s[1..];
      InsertKeepsSorted(s[0], SortBy(s[1..], rank), rank);
      Insert(s[0], SortBy(s[1..], rank), rank)
  }

  /** The elements of s of the given rank, in their order in s. */
  function OfRank<T>(s: seq<T>, rank: T -> int, k: int): seq<T>
  {
    if s == [] then []
    else (if rank(s[0]) == k then [s[0]] else []) + OfRank(s[1..], rank, k)
  }

  /** Insertion puts x behind no element of its own rank. */
  lemma {:induction false} InsertKeepsRankOrder<T>(x: T, s: seq<T>, rank: T -> int, k: int)
    ensures OfRank(Insert(x, s, rank), rank, k)
         == (if rank(x) == k then [x] else []) + OfRank(s, rank, k)
  {
    if s == [] || rank(x) <= rank(s[0]) {
      OfRankCons(x, s, rank, k);
    } else {
      var rest := Insert(x, s[1..], rank);
      var head := if rank(s[0]) == k then [s[0]] else [];
      var mine := if rank(x) == k then [x] else [];
      var tail := OfRank(s[1..], rank, k);
      assert Insert(x, s, rank) == [s[0]] + rest;
      assert OfRank(s, rank, k) == head + tail;
      InsertKeepsRankOrder(x, s[1..], rank, k);
      OfRankCons(s[0], rest, rank, k);
      if head == [] {
        assert head + (mine + tail) == mine + tail && head + tail == tail;
      } else {
        assert mine == [];
        assert mine + (head + tail) == head + tail && mine + tail == tail;
      }
    }
  }

  lemma OfRankCons<T>(h: T, s: seq<T>, rank: T -> int, k: int)
    ensures OfRank([h] + s, rank, k) == (if rank(h) == k then [h] else []) + OfRank(s, rank, k)
  {
    assert ([h] + s)[1..] == s;
  }

  /** Stability: the elements of each rank keep their original order. */
  lemma {:induction false} SortIsStable<T>(s: seq<T>, rank: T -> int, k: int)
    ensures OfRank(SortBy(s, rank), rank, k) == OfRank(s, rank, k)
  {
    if s != [] {
      SortIsStable(s[1..], rank, k);
      InsertKeepsRankOrder(s[0], SortBy(s[1..], rank), rank, k);
    }
  }

  /** A sequence already in order is left as it is. */
  lemma {:induction false} SortKeepsSorted<T>(s: seq<T>, rank: T -> int)
    requires SortedBy(s, rank)
    ensures SortBy(s, rank) == s
  {
    if s != [] {
      assert SortedBy(s[1..], rank);
      SortKeepsSorted(s[1..], rank);
      assert s == [s[0]] + s[1..];
    }
  }

  /** Sorting is idempotent. */
  lemma SortTwice<T>(s: seq<T>, rank: T -> int)
    ensures SortBy(SortBy(s, rank), rank) == SortBy(s, rank)
  {
    SortKeepsSorted(SortBy(s, rank), rank);
  }

  /** Every element's date is on or after the dates of those before it. */
  predicate Chronological<T>(s: seq<T>, key: T -> Date)
  {
    forall i, j :: 0 <= i < j < |s| ==> OnOrBefore(key(s[i]), key(s[j]))
  }

  /** The rank of a dated element: its day ordinal. */
  function DateRank<T>(key: T -> Date): T -> int
  {
    x => Ordinal(key(x))
  }

  /** Ordered by ordinal is ordered by date. */
  lemma SortedIsChronological<T>(s: seq<T>, key: T -> Date)
    requires SortedBy(s, DateRank(key))
    ensures Chronological(s, key)
  {
    forall i, j | 0 <= i < j < |s| ensures OnOrBefore(key(s[i]), key(s[j])) {
      assert DateRank(key)(s[i]) <= DateRank(key)(s[j]);
      OrdinalOrder(key(s[i]), key(s[j]));
      if Ordinal(key(s[i])) == Ordinal(key(s[j])) {
        OrdinalInjective(key(s[i]), key(s[j]));
      }
    }
  }

  /** Sorting by date: chronological, the same elements, stable within a day. */
  function SortByDate<T>(s: seq<T>, key: T -> Date): (r: seq<T>)
    ensures multiset(r) == multiset(s)
    ensures Chronological(r, key)
  {
    var r := SortBy(s, DateRank(key));
    SortedIsChronological(r, key);
    r
  }
}
