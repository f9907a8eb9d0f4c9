/** The moving-average pipeline of the line chart: a trailing simple mean over
    the daily closes, and its nearest-date resampling onto the weekly points. */
module MovingAverage {
  import opened Wrappers
  import opened ChartData

  /** `s.reduce((acc, val) => acc + val.close, 0)`: the closes summed left to right. */
  function Sum(s: seq<DailyPoint>): real
  {
    if s == [] then 0.0 else Sum(s[..|s| - 1]) + s[|s| - 1].close
  }

  /** The left fold equals the sum read from the front: the first close plus
      the sum of the rest. */
  lemma {:induction false} SumFromFront(s: seq<DailyPoint>)
    requires s != []
    ensures Sum(s) == s[0].close + Sum(s[1..])
  {
    var n := |s| - 1;
    if n == 0 {
      assert s[1..] == [] && s[..0] == [];
    } else {
      SumFromFront(s[..n]);
      assert s[..n][1..] == s[1..][..n - 1];
    }
  }

  /** The mean close of the `period` days ending at index `k + period - 1`. */
  function WindowMean(series: seq<DailyPoint>, period: nat, k: nat): real
    requires 1 <= period && k + period <= |series|
  {
    Sum(series[k..k + period]) / (period as real)
  }

  /** The moving-average series: one point per index `i >= period - 1`, dated at
      the last day of its window. */
  ghost function MovingAverages(series: seq<DailyPoint>, period: nat): seq<MAPoint>
    requires 1 <= period
  {
    if |series| < period then []
    else seq(|series| - period + 1, k requires 0 <= k <= |series| - period =>
               MAPoint(series[k + period - 1].date, WindowMean(series, period, k)))
  }

  /** calculateMovingAverage: a loop that pushes one point per window. */
  method CalculateMovingAverage(series: seq<DailyPoint>, period: nat) returns (ma: seq<MAPoint>)
    requires 1 <= period
    ensures |ma| == if period <= |series| then |series| - period + 1 else 0
    ensures forall k :: 0 <= k < |ma| ==>
              ma[k].date == series[k + period - 1].date && ma[k].value == WindowMean(series, period, k)
    ensures ma == MovingAverages(series, period)
  {
    ma := [];
    var i := period - 1;
    while i < |series|
      invariant period - 1 <= i
      invariant i <= |series| || ma == []
      invariant |ma| == i - (period - 1)
      invariant forall k :: 0 <= k < |ma| ==>
                  ma[k].date == series[k + period - 1].date && ma[k].value == WindowMean(series, period, k)
      decreases |series| - i
    {
      var sum := Sum(series[i - period + 1..i + 1]);
      ma := ma + [MAPoint(series[i].date, sum / (period as real))];
      i := i + 1;
    }
  }

  /** Every close of `s` lies in `[lo, hi]`. */
  ghost predicate ClosesWithin(s: seq<DailyPoint>, lo: real, hi: real)
  {
    forall j :: 0 <= j < |s| ==> lo <= s[j].close <= hi
  }

  lemma {:induction false} SumBounds(s: seq<DailyPoint>, lo: real, hi: real)
    requires ClosesWithin(s, lo, hi)
    ensures (|s| as real) * lo <= Sum(s) <= (|s| as real) * hi
  {
    if s != [] {
      assert ClosesWithin(s[..|s| - 1], lo, hi);
      SumBounds(s[..|s| - 1], lo, hi);
    }
  }

  /** A moving-average value never leaves the range of the closes in its window. */
  lemma MovingAverageWithinWindow(series: seq<DailyPoint>, period: nat, k: nat, lo: real, hi: real)
    requires 1 <= period && k + period <= |series|
    requires ClosesWithin(series[k..k + period], lo, hi)
    ensures k < |MovingAverages(series, period)|
    ensures lo <= MovingAverages(series, period)[k].value <= hi
  {
    var w := series[k..k + period];
    SumBounds(w, lo, hi);
    var p := period as real;
    assert lo <= Sum(w) / p <= hi by {
      assert Sum(w) / p * p == Sum(w);
    }
  }

  /** On a flat series of closes `c` every moving-average point is `c`. */
  lemma FlatSeriesAverage(series: seq<DailyPoint>, period: nat, c: real)
    requires 1 <= period
    requires forall j :: 0 <= j < |series| ==> series[j].close == c
    ensures forall k :: 0 <= k < |MovingAverages(series, period)| ==> MovingAverages(series, period)[k].value == c
  {
    forall k | 0 <= k < |MovingAverages(series, period)|
      ensures MovingAverages(series, period)[k].value == c
    {
      MovingAverageWithinWindow(series, period, k, c, c);
    }
  }

  /** Index `k` holds the first point of `ma` whose date is nearest to `target`. */
  ghost predicate IsFirstNearest(ma: seq<MAPoint>, target: Date, k: int)
  {
    && 0 <= k < |ma|
    && (forall j :: 0 <= j < |ma| ==> Dist(ma[k].date, target) <= Dist(ma[j].date, target))
    && (forall j :: 0 <= j < k ==> Dist(ma[k].date, target) < Dist(ma[j].date, target))
  }

  /** The `reduce` over the first `n` points of `ma`, seeded with `ma[0]`: a later
      point replaces the current one only when it is strictly closer. */
  function ClosestIn(ma: seq<MAPoint>, target: Date, n: nat): (k: nat)
    requires 1 <= n <= |ma|
    ensures IsFirstNearest(ma[..n], target, k)
  {
    if n == 1 then 0
    else
      var c := ClosestIn(ma, target, n - 1);
      if Dist(ma[n - 1].date, target) < Dist(ma[c].date, target) then n - 1 else c
  }

  /** The first-nearest index is unique, so the tie-break fully determines the choice. */
  lemma FirstNearestUnique(ma: seq<MAPoint>, target: Date, k1: int, k2: int)
    requires IsFirstNearest(ma, target, k1) && IsFirstNearest(ma, target, k2)
    ensures k1 == k2
  {
    // Both are nearest, so their distances agree; the strict part then rules
    // out either index preceding the other.
    assert Dist(ma[k1].date, target) == Dist(ma[k2].date, target);
  }

  /** mapMovingAverageToWeekly. `None` stands for the TypeError the source raises
      when there is a weekly point but no daily average to seed the `reduce`. */
  function MapMovingAverageToWeekly(weekly: seq<WeeklyPoint>, dailyMA: seq<MAPoint>): (r: Option<seq<MAPoint>>)
    ensures r.None? <==> |weekly| > 0 && dailyMA == []
    ensures r.Some? ==> |r.value| == |weekly|
    ensures r.Some? ==> forall i :: 0 <= i < |weekly| ==>
              r.value[i].date == weekly[i].date &&
              exists k :: IsFirstNearest(dailyMA, weekly[i].date, k) && r.value[i].value == dailyMA[k].value
  {
    if weekly == [] then Some([])
    else if dailyMA == [] then None
    else
      var pts := seq(|weekly|, i requires 0 <= i < |weekly| =>
                       MAPoint(weekly[i].date, dailyMA[ClosestIn(dailyMA, weekly[i].date, |dailyMA|)].value));
      assert forall i :: 0 <= i < |weekly| ==>
               IsFirstNearest(dailyMA, weekly[i].date, ClosestIn(dailyMA, weekly[i].date, |dailyMA|)) by {
        assert dailyMA[..|dailyMA|] == dailyMA;
      }
      Some(pts)
  }

  /** A week exactly between two daily averages takes the earlier one. */
  lemma TieGoesToEarlierPoint()
    ensures var r := MapMovingAverageToWeekly([WeeklyPoint(Date(5, 2024, 0), 0.0, 0.0, 0.0, 0.0)],
                                              [MAPoint(Date(0, 2024, 0), 1.0), MAPoint(Date(10, 2024, 0), 2.0)]);
            r.Some? && r.value == [MAPoint(Date(5, 2024, 0), 1.0)]
  {
    var ma := [MAPoint(Date(0, 2024, 0), 1.0), MAPoint(Date(10, 2024, 0), 2.0)];
    var w := Date(5, 2024, 0);
    var r := MapMovingAverageToWeekly([WeeklyPoint(w, 0.0, 0.0, 0.0, 0.0)], ma);
    var k :| IsFirstNearest(ma, w, k) && r.value[0].value == ma[k].value;
    FirstNearestUnique(ma, w, k, 0);
  }
}
