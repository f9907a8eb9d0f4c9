/** The metric-comparison table: four cards, each placing the stock's value on
    a track whose midpoint is the benchmark, at a position clamped to the
    metric's fixed range. */
module PerformanceTable {
  import opened Wrappers

  datatype Metric = Alpha | Beta | SharpeRatio | TreynorRatio

  /** `parameterRanges`: the half-width of the track in metric units. */
  function RangeOf(m: Metric): (r: real)
    ensures r > 0.0
    ensures m == Alpha ==> r == 3.0
    ensures m == Beta ==> r == 1.0
    ensures m == SharpeRatio ==> r == 3.0
    ensures m == TreynorRatio ==> r == 1.0
  {
    match m
    case Alpha => 3.0
    case Beta => 1.0
    case SharpeRatio => 3.0
    case TreynorRatio => 1.0
  }

  /** `x || 0` for a value that may be missing (`undefined`/`null`) or zero. */
  function OrZero(x: Option<real>): (r: real)
    ensures x.Some? ==> r == x.value
    ensures x.None? ==> r == 0.0
  {
    x.GetOr(0.0)
  }

  /** The rank `|| 0` default. */
  function RankOrZero(x: Option<int>): (r: int)
    ensures x.Some? ==> r == x.value
    ensures x.None? ==> r == 0
  {
    x.GetOr(0)
  }

  /** `isBelowAverage`: strictly below; an equal value counts as not below. */
  function IsBelow(value: real, benchmark: real): (below: bool)
    ensures value == benchmark ==> !below
    ensures value < benchmark ==> below
  {
    value < benchmark
  }

  /** The if/else chain on `relativeDiff`: saturate at `range` and `-range`. */
  function ClampDiff(diff: real, range: real): (d: real)
    requires range > 0.0
    ensures -range <= d <= range
    ensures -range <= diff <= range ==> d == diff
    ensures range <= diff ==> d == range
    ensures diff <= -range ==> d == -range
    ensures d < 0.0 <==> diff < 0.0
    ensures d == 0.0 <==> diff == 0.0
  {
    if diff > range then range
    else if diff < -range then -range
    else diff
  }

  /** `stockX`: the stock marker's horizontal position, in percent of the track. */
  function StockPosition(value: real, benchmark: real, range: real): (x: real)
    requires range > 0.0
    ensures 10.0 <= x <= 90.0
    ensures x == 50.0 <==> value == benchmark
    ensures x < 50.0 <==> IsBelow(value, benchmark)
  {
    var d := ClampDiff(value - benchmark, range);
    assert -1.0 <= d / range <= 1.0 && (d / range < 0.0 <==> d < 0.0) by {
      var q := d / range;
      assert q * range == d;
      assert (1.0 - q) * range == range - d;
      assert (q + 1.0) * range == d + range;
    }
    50.0 + (d / range) * 40.0
  }

  /** A larger value never moves the marker to the left. */
  lemma StockPositionMonotone(v1: real, v2: real, benchmark: real, range: real)
    requires range > 0.0 && v1 <= v2
    ensures StockPosition(v1, benchmark, range) <= StockPosition(v2, benchmark, range)
  {
    var d1 := ClampDiff(v1 - benchmark, range);
    var d2 := ClampDiff(v2 - benchmark, range);
    assert d1 <= d2;
    assert d1 / range <= d2 / range by {
      assert d2 / range - d1 / range == (d2 - d1) / range;
    }
  }

  /** Beyond the range the marker sits on the track's end; inside it the offset
      from the midpoint is proportional to the difference. */
  lemma StockPositionSaturates(value: real, benchmark: real, range: real)
    requires range > 0.0
    ensures value - benchmark >= range ==> StockPosition(value, benchmark, range) == 90.0
    ensures value - benchmark <= -range ==> StockPosition(value, benchmark, range) == 10.0
    ensures -range <= value - benchmark <= range ==>
              (StockPosition(value, benchmark, range) - 50.0) * range == (value - benchmark) * 40.0
  {
    var d := ClampDiff(value - benchmark, range);
    assert d / range * range == d;
    assert range / range == 1.0;
  }

  /** value 5 against benchmark 2 with range 3 saturates at 90%; value -1
      against benchmark 2 with range 1 saturates at 10%. */
  lemma StockPositionExamples()
    ensures StockPosition(5.0, 2.0, 3.0) == 90.0
    ensures StockPosition(-1.0, 2.0, 1.0) == 10.0
  {
  }

  const BelowColor := "#EF7C8E"
  const AboveColor := "#66C2A3"
  const BelowBarColor := "rgba(239, 124, 142, 0.3)"
  const AboveBarColor := "rgba(102, 194, 163, 0.3)"

  /** What createMetricCard lays out: the title, the rank badge and its colour,
      the benchmark marker's label, and the stock marker with its bar, label and
      ticker. (The benchmark marker always sits at 50%.) */
  datatype MetricCard = MetricCard(
    metric: Metric, title: string, rank: int, below: bool, badgeColor: string,
    benchmarkLabel: real, barColor: string, position: real, valueLabel: real, ticker: string)

  /** createMetricCard. `avgRank` and `totalStocks` are passed by the caller but
      not used by the card. */
  function CreateMetricCard(title: string, value: Option<real>, rank: Option<int>,
                            avgRank: real, totalStocks: nat, metric: Metric,
                            ticker: string, benchmark: real): (c: MetricCard)
    ensures c.metric == metric && c.title == title && c.ticker == ticker
    ensures c.rank == RankOrZero(rank) && c.valueLabel == OrZero(value) && c.benchmarkLabel == benchmark
    ensures c.below <==> OrZero(value) < benchmark
    ensures c.badgeColor == (if c.below then BelowColor else AboveColor)
    ensures c.barColor == (if c.below then BelowBarColor else AboveBarColor)
    ensures 10.0 <= c.position <= 90.0
    ensures c.position < 50.0 <==> c.below
    ensures c.position == 50.0 <==> OrZero(value) == benchmark
    ensures c.position == StockPosition(OrZero(value), benchmark, RangeOf(metric))
  {
    var v := OrZero(value);
    var r := RankOrZero(rank);
    var below := IsBelow(v, benchmark);
    MetricCard(metric, title, r, below,
               if below then BelowColor else AboveColor,
               benchmark,
               if below then BelowBarColor else AboveBarColor,
               StockPosition(v, benchmark, RangeOf(metric)),
               v, ticker)
  }

  /** The fields of the performance-data object the table reads; the stock's
      values and ranks may be missing. */
  datatype PerformanceData = PerformanceData(
    alpha: Option<real>, alphaRank: Option<int>,
    beta: Option<real>, betaRank: Option<int>,
    sharpeRatio: Option<real>, sharpeRatioRank: Option<int>,
    treynorRatio: Option<real>, treynorRatioRank: Option<int>,
    marketAlpha: real, marketBeta: real, marketSharpeRatio: real, marketTreynorRatio: real)

  /** The stock's value of metric `m` (`performanceData.alpha`, `.beta`, ...). */
  function ValueOf(d: PerformanceData, m: Metric): (v: Option<real>)
    ensures m == Alpha ==> v == d.alpha
    ensures m == Beta ==> v == d.beta
    ensures m == SharpeRatio ==> v == d.sharpeRatio
    ensures m == TreynorRatio ==> v == d.treynorRatio
  {
    match m
    case Alpha => d.alpha
    case Beta => d.beta
    case SharpeRatio => d.sharpeRatio
    case TreynorRatio => d.treynorRatio
  }

  /** The stock's rank for metric `m` (`performanceData.alpha_rank`, ...). */
  function RankOf(d: PerformanceData, m: Metric): (r: Option<int>)
    ensures m == Alpha ==> r == d.alphaRank
    ensures m == Beta ==> r == d.betaRank
    ensures m == SharpeRatio ==> r == d.sharpeRatioRank
    ensures m == TreynorRatio ==> r == d.treynorRatioRank
  {
    match m
    case Alpha => d.alphaRank
    case Beta => d.betaRank
    case SharpeRatio => d.sharpeRatioRank
    case TreynorRatio => d.treynorRatioRank
  }

  /** `benchmarkValues[paramKey]` */
  function BenchmarkOf(d: PerformanceData, m: Metric): (b: real)
    ensures m == Alpha ==> b == d.marketAlpha
    ensures m == Beta ==> b == d.marketBeta
    ensures m == SharpeRatio ==> b == d.marketSharpeRatio
    ensures m == TreynorRatio ==> b == d.marketTreynorRatio
  {
    match m
    case Alpha => d.marketAlpha
    case Beta => d.marketBeta
    case SharpeRatio => d.marketSharpeRatio
    case TreynorRatio => d.marketTreynorRatio
  }

  /** The card title passed for metric `m`. */
  function TitleOf(m: Metric): (t: string)
    ensures m == Alpha ==> t == "Alpha"
    ensures m == Beta ==> t == "Beta"
    ensures m == SharpeRatio ==> t == "Sharpe Ratio"
    ensures m == TreynorRatio ==> t == "Treynor Ratio"
  {
    match m
    case Alpha => "Alpha"
    case Beta => "Beta"
    case SharpeRatio => "Sharpe Ratio"
    case TreynorRatio => "Treynor Ratio"
  }

  /** The order in which the cards are appended to the 2x2 grid. */
  function CardOrder(): (order: seq<Metric>)
    ensures |order| == 4
    ensures order[0] == Alpha && order[1] == Beta && order[2] == SharpeRatio && order[3] == TreynorRatio
    ensures forall i, j :: 0 <= i < j < |order| ==> order[i] != order[j]
  {
    [Alpha, Beta, SharpeRatio, TreynorRatio]
  }

  /** Every metric gets a card. */
  lemma EveryMetricHasACard(m: Metric)
    ensures m in CardOrder()
  {
    var order := CardOrder();
    match m
    case Alpha => assert order[0] == m;
    case Beta => assert order[1] == m;
    case SharpeRatio => assert order[2] == m;
    case TreynorRatio => assert order[3] == m;
  }

  /** `... .toUpperCase() || "AAPL"`, given the already upper-cased search text. */
  function DisplayTicker(search: string): (t: string)
    ensures t != []
    ensures search != [] ==> t == search
    ensures search == [] ==> t == "AAPL"
  {
    if search == [] then "AAPL" else search
  }

  const Heading := "Stock Information"
  const NoDataMessage := "No performance data available"

  /** The table's content: the heading with either the placeholder paragraph or
      the grid of cards (with the `avgRank` the caller computes for them). */
  datatype TableView =
    | Placeholder(heading: string, message: string)
    | Grid(heading: string, avgRank: real, cards: seq<MetricCard>)

  /** updatePerformanceTable. `data` is `None` when no performance data was
      supplied; `stockCount` is `stocksDatabase.length`; `search` is the
      upper-cased `#searchTicker` text. */
  function UpdatePerformanceTable(data: Option<PerformanceData>, stockCount: nat, search: string): (v: TableView)
    ensures v.heading == Heading
    ensures data.None? <==> v.Placeholder?
    ensures v.Placeholder? ==> v.message == NoDataMessage
    ensures v.Grid? ==> v.avgRank * 2.0 == stockCount as real
    ensures v.Grid? ==> |v.cards| == 4 && forall i :: 0 <= i < 4 ==>
              var m := CardOrder()[i];
              v.cards[i] == CreateMetricCard(TitleOf(m), ValueOf(data.value, m), RankOf(data.value, m),
                                             v.avgRank, stockCount, m, DisplayTicker(search), BenchmarkOf(data.value, m))
  {
    if data.None? then Placeholder(Heading, NoDataMessage)
    else
      var d := data.value;
      var avgRank := (stockCount as real) / 2.0;
      var ticker := DisplayTicker(search);
      var cards := seq(4, i requires 0 <= i < 4 =>
                         var m := CardOrder()[i];
                         CreateMetricCard(TitleOf(m), ValueOf(d, m), RankOf(d, m), avgRank, stockCount, m,
                                          ticker, BenchmarkOf(d, m)));
      Grid(Heading, avgRank, cards)
  }

  /** The grid holds one card per metric, in the order alpha, beta, Sharpe
      ratio, Treynor ratio, each classified against its own benchmark. */
  lemma GridCardsInOrder(d: PerformanceData, stockCount: nat, search: string)
    ensures UpdatePerformanceTable(Some(d), stockCount, search).Grid?
    ensures var cards := UpdatePerformanceTable(Some(d), stockCount, search).cards;
            |cards| == 4 &&
            cards[0].metric == Alpha && cards[1].metric == Beta &&
            cards[2].metric == SharpeRatio && cards[3].metric == TreynorRatio &&
            forall i :: 0 <= i < 4 ==>
              (cards[i].below <==> OrZero(ValueOf(d, cards[i].metric)) < BenchmarkOf(d, cards[i].metric))
  {
    var v := UpdatePerformanceTable(Some(d), stockCount, search);
    forall i | 0 <= i < 4 ensures v.cards[i].metric == CardOrder()[i] { }
  }
}
