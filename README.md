# Stock chart and metric table: a Dafny model of the computational core

The front end draws two things: a weekly closing-price line chart and a
four-card metric table comparing a stock with the S&P 500 benchmark. Most of
its code is drawing calls. This project models the logic under the drawing and
proves what it computes:

- **MovingAverage** (`moving_average.dfy`). The trailing simple moving average
  over the daily closes (`calculateMovingAverage`). It is a loop proved
  against a specification of window means. It also models the
  nearest-date resampling of that average onto the weekly dates
  (`mapMovingAverageToWeekly`), including its tie-break and its failure on an
  empty average.
- **LineChart** (`line_chart.dfy`). The decisions of `drawlineChart` and its
  helpers:
  - the empty-data abort;
  - the independent clamping of the two selection indices;
  - the quarter-start tick filter with its seen-set (a loop);
  - which selection shades are drawn;
  - the moving-average period/colour table;
  - the inclusive daily display window;
  - the composition of all of these into a chart plan.
- **PerformanceTable** (`performance_table.dfy`). For `createMetricCard`: the
  below-benchmark classification, the clamp of `value - benchmark` into the
  metric's fixed range, and the linear marker position. For
  `updatePerformanceTable`: the placeholder-versus-four-cards dispatch.
- **ChartData** and **Wrappers** hold the records and an `Option` type.

Modelling choices:
- Prices are `real`, so arithmetic is exact.
- A JavaScript `Date` is its timestamp plus the calendar year and the 0-based
  month it carries.
- A JavaScript value that may be `undefined` is an `Option`.
- The UI state the source reads from the page is passed in as parameters:
  the `#maToggle` checkbox, the `maType` radio and the `#searchTicker` text.
- Drawing is replaced by plain descriptors of what would be drawn
  (`ChartPlan`, `Shades`, `MAOverlay`, `MetricCard`, `TableView`).

Three behaviours of the code are worth knowing:

- Nothing guards an empty moving average. Suppose the toggle is on, daily data
  is present and the display window has fewer days than the period. Then
  `mapMovingAverageToWeekly` reads `.value` of `undefined` and throws. By that
  point the chart has already been cleared and partly redrawn, and the
  closing-price legend is never added. `DrawLineChart` models this as
  `OverlayError` with `priceLegend == false`.
- The two selection indices are clamped independently, so `start > end` can
  survive (`ClampKeepsInversion`).
- `createMetricCard` receives `avgRank` and `totalStocks` but uses neither.
  The model computes `avgRank` as the code does and records it on the grid
  view only.

## Model

| member | source | states |
|---|---|---|
| MovingAverage.CalculateMovingAverage | static/lineChart.js:8-18 | Returns max(0, len - period + 1) points and is empty when the period exceeds the series. Point k is dated at day k+period-1 and its value is the mean close of days k..k+period-1. This equals the window-mean specification `MovingAverages`. |
| MovingAverage.SumFromFront | static/lineChart.js:11 | The left-to-right sum `Sum` (the `reduce` of line 11) equals the first close plus the sum of the rest. |
| MovingAverage.SumBounds | static/lineChart.js:11 | The left-to-right sum of n closes, each within [lo, hi], lies in [n*lo, n*hi]. |
| MovingAverage.MovingAverageWithinWindow | static/lineChart.js:11-14 | Every moving-average value lies between any lower and upper bound of the closes in its window. |
| MovingAverage.FlatSeriesAverage | static/lineChart.js:11-14 | On a series whose closes are all c, every moving-average value is c. |
| ChartData.Dist | static/lineChart.js:26-27 | The distance between two dates is the absolute difference of their timestamps: it is zero iff the timestamps agree, and adding it to one timestamp gives the other. |
| MovingAverage.ClosestIn | static/lineChart.js:25-29 | The reduce seeded with the first point returns an index whose date distance to the week is minimal over the points scanned. Every earlier index is strictly farther, so ties go to the earliest point. |
| MovingAverage.FirstNearestUnique | static/lineChart.js:25-29 | The "first nearest" index is unique, so the strict comparison fully determines the choice. |
| MovingAverage.MapMovingAverageToWeekly | static/lineChart.js:21-36 | Fails exactly when there is a weekly point and the daily average is empty. Otherwise it returns one point per week, in order, dated at that week. Each value is taken from the first daily average nearest in date. |
| MovingAverage.TieGoesToEarlierPoint | static/lineChart.js:25-29 | A week equidistant from two daily averages takes the earlier one. |
| LineChart.ClampIndex | static/lineChart.js:55-56 | For a non-empty series the clamped index lies in [0, len-1]. An index already in range is unchanged; a negative one becomes 0 and one past the end becomes len-1. |
| LineChart.ClampPreservesOrder | static/lineChart.js:55-56 | Clamping is monotone, so start <= end before clamping gives start <= end after. |
| LineChart.ClampKeepsInversion | static/lineChart.js:55-56 | The indices are clamped independently: any in-range selection with start > end stays inverted. |
| LineChart.ShadesFor | static/lineChart.js:237-267 | The selection indicator is always drawn. |
| LineChart.ShadesFromRawIndices | static/lineChart.js:237-254 | In terms of the raw slider indices: the left shade is drawn iff start > 0 and the series has more than one week. The right shade is drawn iff end < len-1 and the series has more than one week. |
| LineChart.FullSelectionHasNoShade | static/lineChart.js:237-254 | A selection that covers the whole series draws neither shade. |
| ChartData.DatesOf | static/lineChart.js:122 | The date list has one entry per weekly point, in order, each that point's date. |
| LineChart.IsQuarterStart | static/lineChart.js:105 | For a 0-based month in 0..11, a date is a quarter start iff its month is January, April, July or October (0, 3, 6, 9). |
| LineChart.QuarterKey | static/lineChart.js:106 | The seen-set key records the month, so a key marks a quarter start iff its date is one. |
| LineChart.QuarterKeySameMonth | static/lineChart.js:106-110 | Two dates share a seen-set key iff they fall in the same year and month. |
| LineChart.QuarterTicks | static/lineChart.js:97-124 | Every tick date is an input date in a quarter-start month (0, 3, 6 or 9). |
| LineChart.QuarterTicksDistinct | static/lineChart.js:97-124 | No two ticks share a (year, month). |
| LineChart.QuarterTicksCoverAllQuarters | static/lineChart.js:97-124 | The (year, month) keys of the ticks are exactly the keys of the quarter-start dates of the input, so every quarter present is labelled once. |
| LineChart.JanuaryLabelledOnce | static/lineChart.js:97-124 | Three weekly points in January 2023 give one tick, at the first of them. |
| LineChart.SelectQuarterTicks | static/lineChart.js:97-124 | The filter loop with its seen-set yields exactly the first-occurrence quarter-start dates, in input order. |
| LineChart.MAStyleFor | static/lineChart.js:276-296 | "7day" gives period 7 in blue, "14day" 14 in green, "30day" 30 in orange, "90day" 90 in purple; any other choice gets period 7 in blue. The period is always 7, 14, 30 or 90. |
| LineChart.MAStyleColourMatchesPeriod | static/lineChart.js:276-296 | Two choices share a colour iff they share a period. "7day", "14day", "30day" and "90day" map to periods 7, 14, 30 and 90. |
| LineChart.InWindow | static/lineChart.js:300 | A point can be in the window only when the window's start is not after its end. Both ends are inclusive: a point dated exactly at the start, or exactly at the end, of a non-empty window is kept. |
| LineChart.DisplayWindow | static/lineChart.js:299-301 | A point is kept iff it is in the input and its date lies in [start, end], inclusive at both ends. The result is never longer than the input. Order and multiplicity are stated by DisplayWindowAppend, DisplayWindowSingle and DisplayWindowCounts. |
| LineChart.DisplayWindowSnoc | static/lineChart.js:299-301 | Appending one point to the input appends it to the result iff its date lies in the window. |
| LineChart.DisplayWindowAppend | static/lineChart.js:299-301 | The filter distributes over concatenation of the input, so the result keeps the kept points in input order. |
| LineChart.DisplayWindowSingle | static/lineChart.js:299-301 | A single point is kept iff its date lies in the window. |
| LineChart.DisplayWindowCounts | static/lineChart.js:299-301 | Each in-window point occurs in the result exactly as often as in the input; an out-of-window point does not occur. |
| LineChart.DisplayWindowKeepsOrder | static/lineChart.js:299-301 | Filtering a date-ordered series yields a date-ordered series. |
| LineChart.DisplayWindowKeepsInside | static/lineChart.js:299-301 | A series lying entirely inside the window is returned unchanged. |
| LineChart.DisplayWindowIdempotent | static/lineChart.js:299-301 | Filtering twice with the same window equals filtering once. |
| LineChart.DrawMovingAverage | static/lineChart.js:271-307 | The overlay fails iff there are weekly points and the window holds fewer days than the chosen period. Otherwise it carries the chosen style and one point per week. Each point's value is the window mean at the first nearest daily average. |
| LineChart.DrawLineChart | static/lineChart.js:39-92 | Aborts iff the weekly series is empty. Otherwise: both clamped indices are in range and the selection dates are read at them; the ticks are the quarter ticks; the shades follow the clamped indices; an overlay is attempted iff the toggle is on and daily data exists; it fails iff the window holds fewer days than the period; a drawn overlay has the chosen style and one point per week, dated at that week, valued at the window mean of the first nearest daily average; the price legend is drawn iff the overlay did not fail. |
| PerformanceTable.RangeOf | static/performanceTable.js:12-17 | The ranges are alpha 3, beta 1, sharpe_ratio 3, treynor_ratio 1; all are positive, so the division at line 207 is defined. |
| PerformanceTable.OrZero | static/performanceTable.js:97 | A missing value is treated as 0; a present one is kept. |
| PerformanceTable.RankOrZero | static/performanceTable.js:98 | A missing rank is treated as 0; a present one is kept. |
| PerformanceTable.IsBelow | static/performanceTable.js:100 | A value strictly below the benchmark is below; an equal value is not. |
| PerformanceTable.ClampDiff | static/performanceTable.js:198-205 | The clamped difference lies in [-range, range] and equals the difference when that is already inside. It saturates at the bound beyond it, and keeps the sign and zero-ness of the difference. |
| PerformanceTable.StockPosition | static/performanceTable.js:207 | The marker position lies in [10, 90]. It is 50 iff value == benchmark and left of 50 iff the stock is below the benchmark. |
| PerformanceTable.StockPositionMonotone | static/performanceTable.js:199-207 | For a fixed benchmark and range, the position is non-decreasing in the value. |
| PerformanceTable.StockPositionSaturates | static/performanceTable.js:199-207 | At least range above the benchmark gives 90. At least range below gives 10. Inside the range, the offset from 50 is (value - benchmark)/range * 40. |
| PerformanceTable.StockPositionExamples | static/performanceTable.js:201-207 | value 5, benchmark 2, range 3 gives 90%. value -1, benchmark 2, range 1 gives 10%. |
| PerformanceTable.BenchmarkOf | static/performanceTable.js:40-45 | Each metric is compared against its own market field: alpha against market_alpha, beta against market_beta, and so on. |
| PerformanceTable.ValueOf | static/performanceTable.js:59-93 | Each card reads the stock's own value of its metric: performanceData.alpha, .beta, .sharpe_ratio, .treynor_ratio. |
| PerformanceTable.RankOf | static/performanceTable.js:59-93 | Each card reads the stock's rank for its metric: alpha_rank, beta_rank, sharpe_ratio_rank, treynor_ratio_rank. |
| PerformanceTable.TitleOf | static/performanceTable.js:59-93 | The card titles are "Alpha", "Beta", "Sharpe Ratio" and "Treynor Ratio". |
| PerformanceTable.CardOrder | static/performanceTable.js:59-93 | The cards are appended in the order alpha, beta, Sharpe ratio, Treynor ratio, with no metric twice. |
| PerformanceTable.EveryMetricHasACard | static/performanceTable.js:59-93 | Every metric appears in the card order, so with the four distinct entries each metric gets exactly one card. |
| PerformanceTable.CreateMetricCard | static/performanceTable.js:96-239 | The card is classified below iff the defaulted value is strictly below the benchmark. Badge and bar colours follow that one flag. The position is `StockPosition` of the defaulted value, the benchmark and the metric's own range. So it lies in [10, 90], is left of centre iff below, and is 50 iff equal. Rank, value and benchmark labels carry the defaulted inputs. |
| PerformanceTable.DisplayTicker | static/performanceTable.js:57 | The ticker shown is never empty: "AAPL" for an empty search, the search text otherwise. |
| PerformanceTable.UpdatePerformanceTable | static/performanceTable.js:19-94 | Always headed "Stock Information". Without data: the placeholder message and no cards. With data: exactly four cards, each built from its metric's value, rank and benchmark, with avgRank * 2 == the stock count. |
| PerformanceTable.GridCardsInOrder | static/performanceTable.js:59-93 | The four cards come in the order alpha, beta, Sharpe ratio, Treynor ratio. Each is classified against its own metric's benchmark. |

## Left out

- Drawing: D3 band and linear scales, pixel positions, band widths and
  padding, axis rendering, `curveMonotoneX` paths, clip paths, every
  `append`/`attr`/`style` call and the styling constants. These are library
  code and rendering side effects; the model keeps only what is drawn, not where.
- The y-axis domain (`min(low) * 0.99`, `max(high) * 1.01`). It is floating-point
  input to the linear scale and decides no drawing.
- Tooltips, mouse handlers and transitions. These are UI timing and event
  handling.
- Text formatting: `formatMonthYear`, `formatDate`, `toFixed(1)`,
  `toLocaleString`, the `${period} Day MA` legend text, `toUpperCase` of the
  search text and the metric descriptions. These are locale and
  float-to-string formatting. Labels are kept as the numbers they format.
- `console.error` on empty data. This is logging; the abort itself is modelled.
- Floating-point rounding, `NaN` and `Infinity`. Prices and positions are
  exact reals, and a `NaN` value (falsy in JavaScript, so shown as 0) is not
  represented.
- A missing benchmark value. The source would compare against `undefined` and
  then fail in `toFixed`. Benchmarks are modelled as present reals.
- MovingAverage.CalculateMovingAverage requires period >= 1. The only caller
  passes 7, 14, 30 or 90. A period of 0 would throw a TypeError reading `.date` of `displayDailyData[-1]`.
- PerformanceTable.StockPosition requires a positive range. The only source of
  ranges is the positive constant table (`RangeOf`).
- Dates are plain timestamps with their year and month supplied alongside. The
  model does not check that they agree, and does not model time zones.
