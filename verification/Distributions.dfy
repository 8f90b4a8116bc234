/** Nearest-rank summaries of measured values. */
module Distributions {
  import opened WideArithmetic
  import opened Placement
  import Snapshots

  function InsertValue(sorted: seq<uint64>, v: uint64): (r: seq<uint64>)
    ensures |r| == |sorted| + 1
  {
    if sorted == [] || sorted[|sorted| - 1] <= v then sorted + [v]
    else InsertValue(sorted[..|sorted| - 1], v) + [sorted[|sorted| - 1]]
  }

  function SortValues(values: seq<uint64>): (r: seq<uint64>)
    ensures |r| == |values|
  {
    if values == [] then [] else InsertValue(SortValues(values[..|values| - 1]), values[|values| - 1])
  }

  ghost predicate Ascending(values: seq<uint64>) {
    forall i, j :: 0 <= i < j < |values| ==> values[i] <= values[j]
  }

  /** How many values are at most v. */
  function AtMost(values: seq<uint64>, v: int): (n: nat)
    ensures n <= |values|
  {
    if values == [] then 0 else AtMost(values[..|values| - 1], v) + (if values[|values| - 1] <= v then 1 else 0)
  }

  lemma AtMostAppend(values: seq<uint64>, x: uint64, v: int)
    ensures AtMost(values + [x], v) == AtMost(values, v) + (if x <= v then 1 else 0)
  {
    assert (values + [x])[..|values|] == values;
  }

  lemma {:induction false} InsertCounts(sorted: seq<uint64>, x: uint64, v: int)
    ensures AtMost(InsertValue(sorted, x), v) == AtMost(sorted, v) + (if x <= v then 1 else 0)
  {
    if sorted == [] || sorted[|sorted| - 1] <= x {
      AtMostAppend(sorted, x, v);
    } else {
      var front, last := sorted[..|sorted| - 1], sorted[|sorted| - 1];
      InsertCounts(front, x, v);
      AtMostAppend(InsertValue(front, x), last, v);
    }
  }

  /** Sorting keeps every count, so it keeps the values with their multiplicities. */
  lemma {:induction false} SortCounts(values: seq<uint64>, v: int)
    ensures AtMost(SortValues(values), v) == AtMost(values, v)
  {
    if values != [] {
      SortCounts(values[..|values| - 1], v);
      InsertCounts(SortValues(values[..|values| - 1]), values[|values| - 1], v);
    }
  }

  lemma {:induction false} InsertAscends(sorted: seq<uint64>, x: uint64, bound: uint64)
    requires Ascending(sorted) && x <= bound && forall i :: 0 <= i < |sorted| ==> sorted[i] <= bound
    ensures Ascending(InsertValue(sorted, x)) && forall i :: 0 <= i <= |sorted| ==> InsertValue(sorted, x)[i] <= bound
  {
    if sorted != [] && sorted[|sorted| - 1] > x {
      InsertAscends(sorted[..|sorted| - 1], x, sorted[|sorted| - 1]);
    }
  }

  lemma {:induction false} SortAscends(values: seq<uint64>)
    ensures Ascending(SortValues(values))
  {
    if values != [] {
      SortAscends(values[..|values| - 1]);
      InsertAscends(SortValues(values[..|values| - 1]), values[|values| - 1], MAX_UINT64);
    }
  }

  lemma {:induction false} NoneBelow(values: seq<uint64>, v: int, i: nat)
    requires i < |values| && AtMost(values, v) == 0
    ensures values[i] > v
  {
    if i < |values| - 1 { NoneBelow(values[..|values| - 1], v, i); }
  }

  lemma {:induction false} SomeBelow(values: seq<uint64>, v: int, i: nat)
    requires i < |values| && values[i] <= v
    ensures AtMost(values, v) > 0
  {
    if i < |values| - 1 { SomeBelow(values[..|values| - 1], v, i); }
  }

  // ---------------------------------------------------------------------------
  // Nearest rank

  /** The 1-based rank, rounded up. */
  function Rank(percentile: nat, count: nat): nat {
    var index := (percentile * count + 99) / 100;
    if index < 1 then 1 else index
  }

  function NearestRank(sorted: seq<uint64>, percentile: nat): uint64
    requires sorted != [] && percentile <= 100
  {
    RankInRange(percentile, |sorted|);
    sorted[Rank(percentile, |sorted|) - 1]
  }

  lemma RankInRange(percentile: nat, count: nat)
    requires percentile <= 100 && count > 0
    ensures 1 <= Rank(percentile, count) <= count
    ensures 100 * Rank(percentile, count) >= percentile * count
    ensures percentile > 0 ==> 100 * (Rank(percentile, count) - 1) < percentile * count
  {
    MulMonotone(percentile, 100, count);
    if percentile > 0 { MulMonotone(1, percentile, count); }
    CeilHundred(percentile * count, count);
  }

  lemma CeilHundred(n: int, count: int)
    requires 0 <= n <= 100 * count && count > 0
    ensures (n + 99) / 100 <= count && 100 * ((n + 99) / 100) >= n && 100 * ((n + 99) / 100 - 1) < n
  {
  }

  lemma {:induction false} PrefixCounts(sorted: seq<uint64>, n: nat, v: int)
    requires n <= |sorted| && forall i :: 0 <= i < n ==> sorted[i] <= v
    ensures AtMost(sorted, v) >= n
    decreases |sorted|
  {
    if n == |sorted| && n > 0 { PrefixCounts(sorted[..n - 1], n - 1, v); }
    else if n < |sorted| { PrefixCounts(sorted[..|sorted| - 1], n, v); }
  }

  lemma {:induction false} SuffixCountsNot(sorted: seq<uint64>, n: nat, v: int)
    requires n <= |sorted| && forall i :: n <= i < |sorted| ==> sorted[i] > v
    ensures AtMost(sorted, v) <= n
    decreases |sorted|
  {
    if n < |sorted| { SuffixCountsNot(sorted[..|sorted| - 1], n, v); }
  }

  lemma RankedValue(sorted: seq<uint64>, rank: nat)
    requires Ascending(sorted) && 1 <= rank <= |sorted|
    ensures AtMost(sorted, sorted[rank - 1]) >= rank
    ensures forall y: int :: y < sorted[rank - 1] ==> AtMost(sorted, y) <= rank - 1
  {
    hide AtMost;
    PrefixCounts(sorted, rank, sorted[rank - 1]);
    forall y: int | y < sorted[rank - 1] ensures AtMost(sorted, y) <= rank - 1 { SuffixCountsNot(sorted, rank - 1, y); }
  }

  /** The nearest rank is the least value that at least p percent of the values do not
      exceed. */
  lemma NearestRankIsLeast(values: seq<uint64>, percentile: nat)
    requires values != [] && 0 < percentile <= 100
    ensures var v := NearestRank(SortValues(values), percentile);
            && 100 * AtMost(values, v) >= percentile * |values|
            && forall y: int :: y < v ==> 100 * AtMost(values, y) < percentile * |values|
  {
    hide AtMost, SortValues, Rank, Ascending;
    var sorted := SortValues(values);
    SortAscends(values);
    RankInRange(percentile, |sorted|);
    var rank := Rank(percentile, |sorted|);
    RankedValue(sorted, rank);
    var v := NearestRank(sorted, percentile);
    var share := percentile * |values|;
    assert 100 * rank >= share && 100 * (rank - 1) < share;
    SortCounts(values, v);
    forall y: int | y < v ensures 100 * AtMost(values, y) < share {
      SortCounts(values, y);
      assert AtMost(sorted, y) <= rank - 1;
    }
  }

  function Summarize(values: seq<uint64>): (d: ValueDistribution)
    ensures d.count == |values|
  {
    if values == [] then Snapshots.EMPTY_DISTRIBUTION else
    var sorted := SortValues(values);
    ValueDistribution(|values|, sorted[0], NearestRank(sorted, 50), NearestRank(sorted, 95), sorted[|sorted| - 1])
  }

  lemma RanksOrdered(count: nat)
    requires count > 0
    ensures Rank(50, count) <= Rank(95, count)
  {
  }

  lemma SummaryOrdered(values: seq<uint64>)
    requires values != []
    ensures var d := Summarize(values); d.min == SortValues(values)[0] && d.min <= d.p50 <= d.p95 <= d.max
  {
    hide SortValues, Rank;
    var sorted := SortValues(values);
    SortAscends(values);
    RankInRange(50, |sorted|);
    RankInRange(95, |sorted|);
    RanksOrdered(|sorted|);
    AscendingAt(sorted, 0, Rank(50, |sorted|) - 1);
    AscendingAt(sorted, Rank(50, |sorted|) - 1, Rank(95, |sorted|) - 1);
    AscendingAt(sorted, Rank(95, |sorted|) - 1, |sorted| - 1);
  }

  lemma AscendingAt(sorted: seq<uint64>, i: nat, j: nat)
    requires Ascending(sorted) && i <= j < |sorted|
    ensures sorted[i] <= sorted[j]
  {
    assert i < j ==> sorted[i] <= sorted[j];
  }

  lemma LeastIsPositive(values: seq<uint64>)
    requires values != []
    ensures SortValues(values)[0] > 0 <==> forall i :: 0 <= i < |values| ==> values[i] > 0
  {
    hide SortValues;
    var sorted := SortValues(values);
    SortAscends(values);
    SortCounts(values, 0);
    if sorted[0] > 0 {
      forall i | 0 <= i < |sorted| ensures sorted[i] > 0 { AscendingAt(sorted, 0, i); }
      SuffixCountsNot(sorted, 0, 0);
      forall i | 0 <= i < |values| ensures values[i] > 0 { NoneBelow(values, 0, i); }
    } else {
      SomeBelow(sorted, 0, 0);
      PositiveCounts(values);
    }
  }

  /** A summary is consistent exactly when it has no more samples than allowed and no
      zero among them. */
  lemma SummaryValid(values: seq<uint64>, allowEmpty: bool, maxCount: nat)
    requires |values| <= maxCount
    ensures Snapshots.DistributionValid(Summarize(values), allowEmpty, maxCount)
            <==> (values == [] ==> allowEmpty) && forall i :: 0 <= i < |values| ==> values[i] > 0
  {
    if values != [] {
      SummaryOrdered(values);
      LeastIsPositive(values);
      hide Summarize;
    }
  }

  lemma {:induction false} PositiveCounts(values: seq<uint64>)
    requires AtMost(values, 0) > 0
    ensures exists i :: 0 <= i < |values| && values[i] == 0
  {
    var n := |values| - 1;
    if values[n] > 0 { PositiveCounts(values[..n]); }
  }
}
