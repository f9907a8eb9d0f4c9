/** The decisions drawlineChart and its helpers make before handing geometry to
    the drawing library: the empty-data abort, the clamping of the selection
    indices, the quarter-start tick dates, which selection shades exist, the
    moving-average style, and the daily display window. */
module LineChart {
  import opened Wrappers
  import opened ChartData
  import opened MovingAverage

  // ----- Selection clamping (drawlineChart) -----

  /** `Math.max(0, Math.min(idx, len - 1))` for a non-empty series of length `len`. */
  function ClampIndex(idx: int, len: nat): (r: int)
    requires 1 <= len
    ensures 0 <= r < len
    ensures 0 <= idx < len ==> r == idx
    ensures idx < 0 ==> r == 0
    ensures len <= idx ==> r == len - 1
  {
    if idx < len - 1 then (if idx < 0 then 0 else idx) else len - 1
  }

  /** Clamping is monotone, so an ordered selection stays ordered. */
  lemma ClampPreservesOrder(start: int, end: int, len: nat)
    requires 1 <= len && start <= end
    ensures ClampIndex(start, len) <= ClampIndex(end, len)
  {
  }

  /** The two indices are clamped independently: an inverted selection that is
      already in range survives unchanged. */
  lemma ClampKeepsInversion(start: int, end: int, len: nat)
    requires 0 <= end < start < len
    ensures ClampIndex(start, len) > ClampIndex(end, len)
  {
  }

  // ----- Selection shades (highlightSelectedRegion) -----

  /** Which rectangles highlightSelectedRegion appends. */
  datatype Shades = Shades(left: bool, right: bool, indicator: bool)

  function ShadesFor(len: nat, startIdx: int, endIdx: int): (sh: Shades)
    ensures sh.indicator
  {
    Shades(startIdx > 0, endIdx < len - 1, true)
  }

  /** In terms of the raw slider indices: the left shade appears iff the
      selection starts after the first week, the right shade iff it ends before
      the last week; a one-week series is never shaded. */
  lemma ShadesFromRawIndices(len: nat, start: int, end: int)
    requires 1 <= len
    ensures ShadesFor(len, ClampIndex(start, len), ClampIndex(end, len)).left <==> 0 < start && 1 < len
    ensures ShadesFor(len, ClampIndex(start, len), ClampIndex(end, len)).right <==> end < len - 1 && 1 < len
  {
  }

  /** A selection covering the whole series leaves nothing to shade. */
  lemma FullSelectionHasNoShade(len: nat, start: int, end: int)
    requires 1 <= len && start <= 0 && len - 1 <= end
    ensures !ShadesFor(len, ClampIndex(start, len), ClampIndex(end, len)).left
    ensures !ShadesFor(len, ClampIndex(start, len), ClampIndex(end, len)).right
  {
  }

  // ----- Quarter-start ticks (drawAxes) -----

  /** January, April, July or October (0-based months 0, 3, 6, 9). */
  predicate IsQuarterStart(d: Date)
    ensures 0 <= d.month < 12 ==> (IsQuarterStart(d) <==> d.month in {0, 3, 6, 9})
  {
    d.month % 3 == 0
  }

  /** The `${year}-${month}` key of the tick filter's seen-set. */
  function QuarterKey(d: Date): (k: (int, int))
    ensures k.1 % 3 == 0 <==> IsQuarterStart(d)
  {
    (d.year, d.month)
  }

  /** Two dates share a seen-set key iff they fall in the same year and month. */
  lemma QuarterKeySameMonth(a: Date, b: Date)
    ensures QuarterKey(a) == QuarterKey(b) <==> a.year == b.year && a.month == b.month
  {
  }

  /** Index `i` is a quarter-start date whose (year, month) has not appeared before. */
  ghost predicate IsFirstQuarterOccurrence(dates: seq<Date>, i: int)
    requires 0 <= i < |dates|
  {
    IsQuarterStart(dates[i]) && forall j :: 0 <= j < i ==> QuarterKey(dates[j]) != QuarterKey(dates[i])
  }

  /** The tick dates: the dates at first-occurrence indices, in input order. */
  ghost function QuarterTicks(dates: seq<Date>): (ticks: seq<Date>)
    ensures forall t :: t in ticks ==> t in dates && IsQuarterStart(t)
  {
    if dates == [] then []
    else
      var n := |dates| - 1;
      assert forall t :: t in dates[..n] ==> t in dates;
      QuarterTicks(dates[..n]) + (if IsFirstQuarterOccurrence(dates, n) then [dates[n]] else [])
  }

  /** The (year, month) keys of the quarter-start dates of `dates`. */
  ghost function QuarterKeys(dates: seq<Date>): set<(int, int)>
  {
    set j | 0 <= j < |dates| && IsQuarterStart(dates[j]) :: QuarterKey(dates[j])
  }

  /** No two ticks share a (year, month). */
  lemma {:induction false} QuarterTicksDistinct(dates: seq<Date>)
    ensures forall a, b :: 0 <= a < b < |QuarterTicks(dates)| ==>
              QuarterKey(QuarterTicks(dates)[a]) != QuarterKey(QuarterTicks(dates)[b])
  {
    if dates != [] {
      var n := |dates| - 1;
      var prev := QuarterTicks(dates[..n]);
      QuarterTicksDistinct(dates[..n]);
      if IsFirstQuarterOccurrence(dates, n) {
        forall t | t in prev ensures QuarterKey(t) != QuarterKey(dates[n]) {
          var j :| 0 <= j < n && dates[..n][j] == t;
          assert dates[j] == t;
        }
        assert QuarterTicks(dates) == prev + [dates[n]];
      } else {
        assert QuarterTicks(dates) == prev;
      }
    }
  }

  /** Every quarter-start (year, month) present in the input is labelled: the
      set of tick keys is exactly the set of quarter-start keys. */
  lemma {:induction false} QuarterTicksCoverAllQuarters(dates: seq<Date>)
    ensures (set t | t in QuarterTicks(dates) :: QuarterKey(t)) == QuarterKeys(dates)
  {
    if dates != [] {
      var n := |dates| - 1;
      var prev := dates[..n];
      QuarterTicksCoverAllQuarters(prev);
      assert QuarterKeys(dates) == QuarterKeys(prev) + (if IsQuarterStart(dates[n]) then {QuarterKey(dates[n])} else {}) by {
        forall j | 0 <= j < n ensures dates[j] == prev[j] { }
      }
      if IsQuarterStart(dates[n]) && !IsFirstQuarterOccurrence(dates, n) {
        var j :| 0 <= j < n && QuarterKey(dates[j]) == QuarterKey(dates[n]);
        assert dates[j] == prev[j];
        assert QuarterKey(dates[n]) in QuarterKeys(prev);
      }
    }
  }

  /** Three weekly points in January 2023 give a single tick, at the first of them. */
  lemma JanuaryLabelledOnce()
    ensures QuarterTicks([Date(1, 2023, 0), Date(2, 2023, 0), Date(3, 2023, 0)]) == [Date(1, 2023, 0)]
  {
    var ds := [Date(1, 2023, 0), Date(2, 2023, 0), Date(3, 2023, 0)];
    assert ds[..2][..1] == [ds[0]] && [ds[0]][..0] == [];
    assert QuarterTicks(ds[..1]) == [ds[0]];
    assert !IsFirstQuarterOccurrence(ds[..2], 1) && !IsFirstQuarterOccurrence(ds, 2);
  }

  /** The filter of drawAxes, with the seen-set `seenQuarters` as a loop variable. */
  method SelectQuarterTicks(dates: seq<Date>) returns (ticks: seq<Date>)
    ensures ticks == QuarterTicks(dates)
  {
    var seen: set<(int, int)> := {};
    ticks := [];
    var i := 0;
    while i < |dates|
      invariant 0 <= i <= |dates|
      invariant seen == QuarterKeys(dates[..i])
      invariant ticks == QuarterTicks(dates[..i])
    {
      var d := dates[i];
      var first := false;
      if d.month % 3 == 0 {
        var key := (d.year, d.month);
        if key !in seen {
          seen := seen + {key};
          first := true;
        }
      }
      ghost var pre := dates[..i + 1];
      assert pre[..i] == dates[..i];
      assert first == IsFirstQuarterOccurrence(pre, i) by {
        if IsQuarterStart(d) && !first {
          var j :| 0 <= j < i && IsQuarterStart(dates[..i][j]) && QuarterKey(dates[..i][j]) == QuarterKey(d);
          assert pre[j] == dates[..i][j];
        }
        if first {
          forall j | 0 <= j < i ensures QuarterKey(pre[j]) != QuarterKey(d) {
            assert pre[j] == dates[..i][j];
            assert IsQuarterStart(pre[j]) ==> QuarterKey(pre[j]) in QuarterKeys(dates[..i]);
          }
        }
      }
      if first {
        ticks := ticks + [d];
      }
      assert QuarterKeys(pre) == QuarterKeys(dates[..i]) + (if IsQuarterStart(d) then {QuarterKey(d)} else {}) by {
        forall j | 0 <= j < i ensures pre[j] == dates[..i][j] { }
      }
      i := i + 1;
    }
    assert dates[..i] == dates;
  }

  // ----- Moving-average style (drawMovingAverage) -----

  /** The period and the stroke/legend colour of the moving-average line. */
  datatype MAStyle = MAStyle(period: nat, color: string)

  const Blue := "#2196F3"
  const Green := "#4CAF50"
  const Orange := "#FF9800"
  const Purple := "#9C27B0"

  /** The `switch (maType)` of drawMovingAverage. */
  function MAStyleFor(maType: string): (st: MAStyle)
    ensures st.period in {7, 14, 30, 90}
    ensures maType == "14day" ==> st == MAStyle(14, Green)
    ensures maType == "30day" ==> st == MAStyle(30, Orange)
    ensures maType == "90day" ==> st == MAStyle(90, Purple)
    ensures maType !in {"14day", "30day", "90day"} ==> st == MAStyle(7, Blue)
  {
    match maType
    case "7day" => MAStyle(7, Blue)
    case "14day" => MAStyle(14, Green)
    case "30day" => MAStyle(30, Orange)
    case "90day" => MAStyle(90, Purple)
    case _ => MAStyle(7, Blue)
  }

  /** The colour identifies the period: two choices share a colour iff they
      share a period, and each listed choice gets the period its name says. */
  lemma MAStyleColourMatchesPeriod(a: string, b: string)
    ensures MAStyleFor(a).period == MAStyleFor(b).period <==> MAStyleFor(a).color == MAStyleFor(b).color
    ensures MAStyleFor("7day").period == 7 && MAStyleFor("14day").period == 14
    ensures MAStyleFor("30day").period == 30 && MAStyleFor("90day").period == 90
  {
  }

  // ----- Daily display window (drawMovingAverage) -----

  /** `d.date >= DISPLAY_START_DATE && d.date <= DISPLAY_END_DATE` */
  predicate InWindow(d: DailyPoint, start: Date, end: Date)
    ensures InWindow(d, start, end) ==> start.stamp <= end.stamp
    ensures d.date.stamp == start.stamp <= end.stamp ==> InWindow(d, start, end)
    ensures start.stamp <= end.stamp == d.date.stamp ==> InWindow(d, start, end)
  {
    start.stamp <= d.date.stamp <= end.stamp
  }

  /** `dailyData.filter(...)`: the points inside the inclusive window, in order. */
  function DisplayWindow(daily: seq<DailyPoint>, start: Date, end: Date): (w: seq<DailyPoint>)
    ensures |w| <= |daily|
    ensures forall d :: d in w <==> d in daily && InWindow(d, start, end)

  {
    if daily == [] then []
    else
      var n := |daily| - 1;
      assert daily == daily[..n] + [daily[n]];
      DisplayWindow(daily[..n], start, end) + (if InWindow(daily[n], start, end) then [daily[n]] else [])
  }

  /** Appending one point appends it to the result iff it lies in the window. */
  lemma DisplayWindowSnoc(s: seq<DailyPoint>, x: DailyPoint, start: Date, end: Date)
    ensures DisplayWindow(s + [x], start, end) ==
              DisplayWindow(s, start, end) + (if InWindow(x, start, end) then [x] else [])
  {
    assert (s + [x])[..|s|] == s;
  }

  /** The filter distributes over concatenation: together with its effect on a
      single point this fixes the result, in order, point by point. */
  lemma {:induction false} DisplayWindowAppend(a: seq<DailyPoint>, b: seq<DailyPoint>, start: Date, end: Date)
    ensures DisplayWindow(a + b, start, end) == DisplayWindow(a, start, end) + DisplayWindow(b, start, end)
    decreases |b|
  {
    if b == [] {
      assert a + b == a;
    } else {
      var n := |b| - 1;
      assert a + b == (a + b[..n]) + [b[n]];
      assert b == b[..n] + [b[n]];
      DisplayWindowSnoc(a + b[..n], b[n], start, end);
      DisplayWindowSnoc(b[..n], b[n], start, end);
      DisplayWindowAppend(a, b[..n], start, end);
    }
  }

  /** Each point occurs in the result exactly as often as in the input when
      it lies in the window, and not at all otherwise. */
  lemma {:induction false} DisplayWindowCounts(daily: seq<DailyPoint>, start: Date, end: Date, d: DailyPoint)
    ensures multiset(DisplayWindow(daily, start, end))[d] == if InWindow(d, start, end) then multiset(daily)[d] else 0
  {
    if daily != [] {
      var n := |daily| - 1;
      assert daily == daily[..n] + [daily[n]];
      DisplayWindowCounts(daily[..n], start, end, d);
    }
  }

  /** A single point is kept iff its date lies in the window. */
  lemma DisplayWindowSingle(d: DailyPoint, start: Date, end: Date)
    ensures DisplayWindow([d], start, end) == if InWindow(d, start, end) then [d] else []
  {
    assert [d][..0] == [];
  }

  /** Points ordered by date. */
  ghost predicate SortedByDate(s: seq<DailyPoint>)
  {
    forall a, b :: 0 <= a < b < |s| ==> s[a].date.stamp <= s[b].date.stamp
  }

  /** Filtering keeps the input order. */
  lemma {:induction false} DisplayWindowKeepsOrder(daily: seq<DailyPoint>, start: Date, end: Date)
    requires SortedByDate(daily)
    ensures SortedByDate(DisplayWindow(daily, start, end))
  {
    if daily != [] {
      var n := |daily| - 1;
      var prev := DisplayWindow(daily[..n], start, end);
      DisplayWindowKeepsOrder(daily[..n], start, end);
      forall d | d in prev ensures d.date.stamp <= daily[n].date.stamp {
        var j :| 0 <= j < n && daily[..n][j] == d;
        assert daily[j] == d;
      }
    }
  }

  /** A sequence already inside the window passes the filter unchanged. */
  lemma {:induction false} DisplayWindowKeepsInside(s: seq<DailyPoint>, start: Date, end: Date)
    requires forall d :: d in s ==> InWindow(d, start, end)
    ensures DisplayWindow(s, start, end) == s
  {
    if s != [] {
      var n := |s| - 1;
      assert s == s[..n] + [s[n]];
      DisplayWindowKeepsInside(s[..n], start, end);
    }
  }

  /** Filtering twice with the same window changes nothing. */
  lemma DisplayWindowIdempotent(daily: seq<DailyPoint>, start: Date, end: Date)
    ensures DisplayWindow(DisplayWindow(daily, start, end), start, end) == DisplayWindow(daily, start, end)
  {
    DisplayWindowKeepsInside(DisplayWindow(daily, start, end), start, end);
  }

  // ----- The moving-average overlay and the whole render (drawlineChart) -----

  /** What drawMovingAverage contributes: nothing (toggle off or no daily data),
      the line with its style, or the TypeError raised by the weekly resampling. */
  datatype MAOverlay = NoOverlay | Overlay(style: MAStyle, points: seq<MAPoint>) | OverlayError

  /** drawMovingAverage, after the toggle and the daily data have been checked. */
  method DrawMovingAverage(weekly: seq<WeeklyPoint>, daily: seq<DailyPoint>, maType: string,
                           displayStart: Date, displayEnd: Date) returns (ov: MAOverlay)
    ensures !ov.NoOverlay?
    ensures ov.OverlayError? <==>
              |weekly| > 0 && |DisplayWindow(daily, displayStart, displayEnd)| < MAStyleFor(maType).period
    ensures ov.Overlay? ==> ov.style == MAStyleFor(maType) && |ov.points| == |weekly|
    ensures ov.Overlay? ==> forall i :: 0 <= i < |weekly| ==>
              ov.points[i].date == weekly[i].date &&
              exists k :: IsFirstNearest(MovingAverages(DisplayWindow(daily, displayStart, displayEnd), MAStyleFor(maType).period), weekly[i].date, k) &&
                          ov.points[i].value == WindowMean(DisplayWindow(daily, displayStart, displayEnd), MAStyleFor(maType).period, k)
  {
    var style := MAStyleFor(maType);
    var window := DisplayWindow(daily, displayStart, displayEnd);
    var dailyMA := CalculateMovingAverage(window, style.period);
    var mapped := MapMovingAverageToWeekly(weekly, dailyMA);
    if mapped.None? {
      ov := OverlayError;
    } else {
      ov := Overlay(style, mapped.value);
      forall i | 0 <= i < |weekly|
        ensures ov.points[i].date == weekly[i].date
        ensures exists k :: IsFirstNearest(MovingAverages(window, style.period), weekly[i].date, k) &&
                            ov.points[i].value == WindowMean(window, style.period, k)
      {
        var k :| IsFirstNearest(dailyMA, weekly[i].date, k) && mapped.value[i].value == dailyMA[k].value;
        assert dailyMA[k].value == WindowMean(window, style.period, k);
        assert IsFirstNearest(MovingAverages(window, style.period), weekly[i].date, k);
      }
      assert ov.style == MAStyleFor(maType);
      assert window == DisplayWindow(daily, displayStart, displayEnd);
      assert forall i :: 0 <= i < |weekly| ==> ov.points[i].date == weekly[i].date;
    }
  }

  /** The outcome of drawlineChart. `NoData` is the logged abort on an empty
      weekly series. Otherwise the chart carries the tick dates, the clamped
      selection and its dates, the shades, the moving-average overlay, and
      whether the closing-price legend was reached (a TypeError in the overlay
      ends the render before it). */
  datatype ChartPlan =
    | NoData
    | Chart(ticks: seq<Date>, startIdx: int, endIdx: int, startDate: Date, endDate: Date,
            shades: Shades, overlay: MAOverlay, priceLegend: bool)

  /** drawlineChart. The `#maToggle` checkbox and the `maType` radio are the
      parameters `showMA` and `maType`; `daily` is `None` when no daily data
      was supplied. */
  method DrawLineChart(weekly: seq<WeeklyPoint>, daily: Option<seq<DailyPoint>>,
                       selectedStartIdx: int, selectedEndIdx: int,
                       showMA: bool, maType: string, displayStart: Date, displayEnd: Date)
    returns (plan: ChartPlan)
    ensures weekly == [] <==> plan.NoData?
    ensures plan.Chart? ==>
              && 0 <= plan.startIdx < |weekly| && 0 <= plan.endIdx < |weekly|
              && plan.startIdx == ClampIndex(selectedStartIdx, |weekly|)
              && plan.endIdx == ClampIndex(selectedEndIdx, |weekly|)
              && plan.startDate == weekly[plan.startIdx].date
              && plan.endDate == weekly[plan.endIdx].date
              && plan.ticks == QuarterTicks(DatesOf(weekly))
              && plan.shades == ShadesFor(|weekly|, plan.startIdx, plan.endIdx)
              && (plan.overlay.NoOverlay? <==> !showMA || daily.None?)
              && (plan.overlay.OverlayError? <==>
                    showMA && daily.Some? &&
                    |DisplayWindow(daily.value, displayStart, displayEnd)| < MAStyleFor(maType).period)
              && (plan.overlay.Overlay? ==> plan.overlay.style == MAStyleFor(maType) && |plan.overlay.points| == |weekly|)
              && (plan.overlay.Overlay? ==> forall i :: 0 <= i < |weekly| ==>
                    plan.overlay.points[i].date == weekly[i].date &&
                    exists k :: IsFirstNearest(MovingAverages(DisplayWindow(daily.value, displayStart, displayEnd), MAStyleFor(maType).period), weekly[i].date, k) &&
                                plan.overlay.points[i].value == WindowMean(DisplayWindow(daily.value, displayStart, displayEnd), MAStyleFor(maType).period, k))
              && (plan.priceLegend <==> !plan.overlay.OverlayError?)
  {
    if |weekly| == 0 {
      plan := NoData;
      return;
    }
    var startIdx := selectedStartIdx;
    var endIdx := selectedEndIdx;
    startIdx := ClampIndex(startIdx, |weekly|);
    endIdx := ClampIndex(endIdx, |weekly|);
    var ticks := SelectQuarterTicks(DatesOf(weekly));
    var shades := ShadesFor(|weekly|, startIdx, endIdx);
    var overlay := NoOverlay;
    if showMA && daily.Some? {
      overlay := DrawMovingAverage(weekly, daily.value, maType, displayStart, displayEnd);
    }
    plan := Chart(ticks, startIdx, endIdx, weekly[startIdx].date, weekly[endIdx].date,
                  shades, overlay, !overlay.OverlayError?);
  }
}
