/** The records the line chart consumes and produces.
    A JavaScript `Date` is modelled by its millisecond timestamp together with
    the calendar year and the 0-based month (`getFullYear`, `getMonth`) that
    the date carries. */
module ChartData {

  datatype Date = Date(stamp: int, year: int, month: int)

  /** One trading day of the daily series. */
  datatype DailyPoint = DailyPoint(date: Date, close: real)

  /** One week of the weekly OHLC series (the volume is only shown in tooltips). */
  datatype WeeklyPoint = WeeklyPoint(date: Date, open: real, high: real, low: real, close: real)

  /** A moving-average sample, daily or resampled onto a weekly date. */
  datatype MAPoint = MAPoint(date: Date, value: real)

  /** `Math.abs(a - b)` on two dates: the absolute difference of the timestamps. */
  function Dist(a: Date, b: Date): (d: nat)
    ensures d == 0 <==> a.stamp == b.stamp
    ensures a.stamp + d == b.stamp || b.stamp + d == a.stamp
  {
    if a.stamp <= b.stamp then b.stamp - a.stamp else a.stamp - b.stamp
  }

  /** `filteredData.map(d => d.date)` */
  function DatesOf(weekly: seq<WeeklyPoint>): (ds: seq<Date>)
    ensures |ds| == |weekly|
    ensures forall i :: 0 <= i < |weekly| ==> ds[i] == weekly[i].date
  {
    seq(|weekly|, i requires 0 <= i < |weekly| => weekly[i].date)
  }
}
