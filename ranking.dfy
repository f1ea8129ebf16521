/**
 * sort_values(by='市值排名') followed by head(150): rows ordered by rank
 * ascending with missing ranks last, then the first 150 kept.
 */
module Ranking {
  import opened Wrappers
  import opened Table

  /** The row with rank `a` may come before the row with rank `b` (NaN sorts last). */
  predicate RankLe(a: Option<int>, b: Option<int>): (le: bool)
    ensures a.Some? && b.None? ==> le
    ensures a.None? && b.Some? ==> !le
    ensures a.Some? && b.Some? ==> (le <==> a.value <= b.value)
  {
    match a
    case None => b.None?
    case Some(x) => b.None? || x <= b.value
  }

  lemma RankLeTotal(a: Option<int>, b: Option<int>)
    ensures RankLe(a, b) || RankLe(b, a)
  {
  }

  lemma RankLeTransitive(a: Option<int>, b: Option<int>, c: Option<int>)
    requires RankLe(a, b) && RankLe(b, c)
    ensures RankLe(a, c)
  {
  }

  predicate SortedByRank(s: seq<Entry>)
  {
    forall i, j :: 0 <= i < j < |s| ==> RankLe(s[i].rank, s[j].rank)
  }

  /** Every row of `s` ranks no earlier than `bound`. */
  predicate AllAtLeast(bound: Option<int>, s: seq<Entry>)
  {
    forall i :: 0 <= i < |s| ==> RankLe(bound, s[i].rank)
  }

  lemma SortedCons(x: Entry, s: seq<Entry>)
    requires SortedByRank(s) && AllAtLeast(x.rank, s)
    ensures SortedByRank([x] + s)
  {
    var r := [x] + s;
    forall i, j | 0 <= i < j < |r| ensures RankLe(r[i].rank, r[j].rank) {
      if i > 0 { assert r[i] == s[i - 1] && r[j] == s[j - 1]; }
    }
  }

  /** Places `e` into a rank-sorted sequence, after every row that must precede it. */
  function Insert(e: Entry, s: seq<Entry>): (r: seq<Entry>)
    ensures multiset(r) == multiset(s) + multiset{e}
    ensures |r| == |s| + 1
  {
    if s == [] then [e]
    else if RankLe(e.rank, s[0].rank) then [e] + s
    else
      assert s == [s[0]] + s[1..];
      [s[0]] + Insert(e, s[1..])
  }

  lemma {:induction false} InsertAtLeast(bound: Option<int>, e: Entry, s: seq<Entry>)
    requires AllAtLeast(bound, s) && RankLe(bound, e.rank)
    ensures AllAtLeast(bound, Insert(e, s))
  {
    if s != [] && !RankLe(e.rank, s[0].rank) {
      InsertAtLeast(bound, e, s[1..]);
      var r := Insert(e, s);
      assert r == [s[0]] + Insert(e, s[1..]);
    }
  }

  lemma {:induction false} InsertSorted(e: Entry, s: seq<Entry>)
    requires SortedByRank(s)
    ensures SortedByRank(Insert(e, s))
  {
    if s == [] {
    } else if RankLe(e.rank, s[0].rank) {
      forall j | 0 <= j < |s| ensures RankLe(e.rank, s[j].rank) {
        if j > 0 { RankLeTransitive(e.rank, s[0].rank, s[j].rank); }
      }
      SortedCons(e, s);
    } else {
      RankLeTotal(e.rank, s[0].rank);
      InsertSorted(e, s[1..]);
      InsertAtLeast(s[0].rank, e, s[1..]);
      SortedCons(s[0], Insert(e, s[1..]));
    }
  }

  /**
   * The order sort_values produces, up to the placement of rows with equal
   * or missing ranks: a permutation of the input, ascending by rank.
   */
  function SortByRank(s: seq<Entry>): (r: seq<Entry>)
    ensures SortedByRank(r)
    ensures multiset(r) == multiset(s)
    ensures |r| == |s|
  {
    if s == [] then []
    else
      assert s == [s[0]] + s[1..];
      InsertSorted(s[0], SortByRank(s[1..]));
      Insert(s[0], SortByRank(s[1..]))
  }

  function Min(a: nat, b: nat): nat
  {
    if a <= b then a else b
  }

  /** head(n): the first n rows, or all of them when there are fewer. */
  function Head(s: seq<Entry>, n: nat): (r: seq<Entry>)
    ensures |r| == Min(n, |s|)
    ensures forall i :: 0 <= i < |r| ==> r[i] == s[i]
  {
    s[..Min(n, |s|)]
  }

  const TopCount: nat := 150

  /**
   * `t` is a top-n table of `all`: min(n, |all|) rows of `all`, ascending by
   * rank, and no row left out ranks strictly ahead of a row kept.
   */
  predicate IsTopRanked(t: seq<Entry>, all: seq<Entry>, n: nat)
  {
    && |t| == Min(n, |all|)
    && SortedByRank(t)
    && multiset(t) <= multiset(all)
    && forall x, y :: x in t && y in multiset(all) - multiset(t) ==> RankLe(x.rank, y.rank)
  }

  lemma MultisetDifferenceOfSplit(t: seq<Entry>, rest: seq<Entry>)
    ensures multiset(t + rest) - multiset(t) == multiset(rest)
  {
    assert multiset(t + rest) == multiset(t) + multiset(rest);
  }

  /** In a sorted sequence, each row before position k ranks no later than each row from k on. */
  lemma SortedSplitOrdered(s: seq<Entry>, k: nat, x: Entry, y: Entry)
    requires SortedByRank(s) && k <= |s|
    requires x in s[..k] && y in s[k..]
    ensures RankLe(x.rank, y.rank)
  {
    var i :| 0 <= i < k && s[..k][i] == x;
    var j :| 0 <= j < |s| - k && s[k..][j] == y;
    assert s[i] == x && s[k + j] == y;
  }

  /** Sorting by rank and keeping the head gives a top-n table. */
  lemma SortedHeadIsTop(all: seq<Entry>, n: nat)
    ensures IsTopRanked(Head(SortByRank(all), n), all, n)
  {
    var sorted := SortByRank(all);
    var k := Min(n, |sorted|);
    var t, rest := sorted[..k], sorted[k..];
    assert sorted == t + rest;
    MultisetDifferenceOfSplit(t, rest);
    assert multiset(all) - multiset(t) == multiset(rest);
    forall x, y | x in t && y in multiset(all) - multiset(t)
      ensures RankLe(x.rank, y.rank)
    {
      assert y in rest;
      SortedSplitOrdered(sorted, k, x, y);
    }
    assert multiset(t) <= multiset(all);
  }

  /** In a rank-sorted table every row with a rank precedes every row without one. */
  lemma PresentRanksFirst(t: seq<Entry>, i: int, j: int)
    requires SortedByRank(t)
    requires 0 <= i < j < |t| && t[j].rank.Some?
    ensures t[i].rank.Some? && t[i].rank.value <= t[j].rank.value
  {
  }

  /** If a row with a rank was cut by head(n), every kept row has a rank no larger. */
  lemma DroppedRankedRowOutranksKept(t: seq<Entry>, all: seq<Entry>, n: nat, y: Entry, i: int)
    requires IsTopRanked(t, all, n)
    requires y in multiset(all) - multiset(t) && y.rank.Some?
    requires 0 <= i < |t|
    ensures t[i].rank.Some? && t[i].rank.value <= y.rank.value
  {
    assert t[i] in t;
  }
}
