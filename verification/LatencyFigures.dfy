/** The latency figures of a metrics snapshot, and what they say about the window they were read from. */
module LatencyFigures {
  import opened OrderStatistics

  datatype Figures = Figures(avg: real, p50: real, p95: real, p99: real, min: real, max: real)

  /** The index read for the quantile `p` of `n` samples. */
  function Rank(n: nat, p: real): (r: nat)
    requires n > 0 && 0.0 <= p
    ensures r < n
  {
    var floor := (n as real * p).Floor;
    assert n as real * p >= 0.0;
    if floor < n - 1 then floor else n - 1
  }

  function Average(s: seq<real>): (a: real)
    requires s != []
  {
    Sum(s) / |s| as real
  }

  /** Sort a copy of the window and read the figures off it. */
  function FiguresOf(window: seq<real>): (f: Figures)
  {
    SortedSorts(window);
    var sorted, n := Sorted(window), |window|;
    if n == 0 then Figures(0.0, 0.0, 0.0, 0.0, 0.0, 0.0)
    else
      Figures(
        Average(sorted),
        sorted[Rank(n, 0.50)], sorted[Rank(n, 0.95)], sorted[Rank(n, 0.99)],
        sorted[0], sorted[n - 1])
  }

  /** The same figures described on the unsorted window. */
  ghost predicate Summarizes(f: Figures, window: seq<real>) {
    if window == [] then f == Figures(0.0, 0.0, 0.0, 0.0, 0.0, 0.0)
    else
      var n := |window|;
      && f.avg == Average(window)
      && AtRank(window, n / 2, f.p50)
      && AtRank(window, n * 95 / 100, f.p95)
      && AtRank(window, n * 99 / 100, f.p99)
      && f.min in window
      && f.max in window
      && (forall x :: x in window ==> f.min <= x <= f.max)
  }

  /** The index read for a percentage is the exact floor of that share of the samples. */
  lemma RankIsFloor(n: nat, percent: nat)
    requires n > 0 && percent < 100
    ensures Rank(n, percent as real / 100.0) == n * percent / 100
  {
    var floor := n * percent / 100;
    var share := n as real * (percent as real / 100.0);
    assert share == (n * percent) as real / 100.0;
    assert floor as real <= share < floor as real + 1.0;
    assert share.Floor == floor;
    assert n * percent < n * 100;
  }

  lemma RanksAreFloors(n: nat)
    requires n > 0
    ensures Rank(n, 0.50) == n / 2 && Rank(n, 0.95) == n * 95 / 100 && Rank(n, 0.99) == n * 99 / 100
  {
    RankIsFloor(n, 50);
    RankIsFloor(n, 95);
    RankIsFloor(n, 99);
    assert n * 50 / 100 == n / 2;
  }

  lemma PercentilesAreRight(window: seq<real>)
    requires window != []
    ensures var n, f := |window|, FiguresOf(window);
      AtRank(window, n / 2, f.p50) && AtRank(window, n * 95 / 100, f.p95) && AtRank(window, n * 99 / 100, f.p99)
  {
    var n := |window|;
    SortedSorts(window);
    RanksAreFloors(n);
    var a, b, c := Rank(n, 0.50), Rank(n, 0.95), Rank(n, 0.99);
    RankExactly(window, a, Sorted(window)[a]);
    RankExactly(window, b, Sorted(window)[b]);
    RankExactly(window, c, Sorted(window)[c]);
  }

  lemma SortedEnds(window: seq<real>)
    requires window != []
    ensures |Sorted(window)| == |window|
    ensures Sorted(window)[0] in window && Sorted(window)[|window| - 1] in window
    ensures forall x :: x in window ==> Sorted(window)[0] <= x <= Sorted(window)[|window| - 1]
  {
    var sorted := Sorted(window);
    SortedSorts(window);
    assert sorted[0] in multiset(sorted) && sorted[|window| - 1] in multiset(sorted);
    forall x | x in window ensures sorted[0] <= x <= sorted[|window| - 1] {
      assert x in multiset(window);
      assert x in sorted;
    }
  }

  lemma FiguresAreRight(window: seq<real>)
    ensures Summarizes(FiguresOf(window), window)
  {
    if window != [] {
      var n, f := |window|, FiguresOf(window);
      SortedEnds(window);
      PercentilesAreRight(window);
      SortedKeepsTallies(window, 0.0);
    }
  }

  /** The average is the total shared out over the samples. */
  lemma AverageSharesTotal(s: seq<real>)
    requires s != []
    ensures Average(s) * |s| as real == Sum(s)
  {
    DivisionUndone(Sum(s), |s| as real);
  }

  lemma DivisionUndone(total: real, n: real)
    requires n != 0.0
    ensures total / n * n == total
  {
  }

  lemma HigherRankIsLarger(s: seq<real>, q: nat, v: real, r: nat, w: real)
    requires q <= r && AtRank(s, q, v) && AtRank(s, r, w)
    ensures v <= w
  {
    if w < v {
      ThresholdsNest(s, w, v);
    }
  }

  /** Figures that describe a window are in order, and their average lies between the extremes. */
  lemma FiguresAreOrdered(f: Figures, window: seq<real>)
    requires Summarizes(f, window)
    ensures f.min <= f.p50 <= f.p95 <= f.p99 <= f.max
    ensures f.min <= f.avg <= f.max
  {
    if window != [] {
      var n := |window|;
      var a, b, c := n / 2, n * 95 / 100, n * 99 / 100;
      HigherRankIsLarger(window, a, f.p50, b, f.p95);
      HigherRankIsLarger(window, b, f.p95, c, f.p99);
      assert f.min <= f.avg <= f.max by { AverageIsBetween(window, f.min, f.max); }
    }
  }

  lemma AverageIsBetween(window: seq<real>, low: real, high: real)
    requires window != []
    requires forall x :: x in window ==> low <= x <= high
    ensures low <= Average(window) <= high
  {
    assert forall i :: 0 <= i < |window| ==> window[i] in window;
    SumIsBetween(window, low, high);
    QuotientIsBetween(Sum(window), |window| as real, low, high);
  }

  lemma QuotientIsBetween(total: real, n: real, low: real, high: real)
    requires n > 0.0 && low * n <= total <= high * n
    ensures low <= total / n <= high
  {
    assert total / n * n == total;
  }
}
