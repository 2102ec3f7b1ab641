/**
 The report's view model: the direction indicator of the "Total Backlinks"
 card, and the run that refuses an empty history before any chart is drawn.
 HTML templating, styling and the file write are not modelled.
 */
module Report {
  import opened History
  import opened Metrics
  import opened Charts

  /** The two stylings of the monthly-change line. */
  datatype Direction = Increase | Decrease

  /** A zero change is shown as an increase: the tie goes to "up". */
  function Indicator(m: Metrics): (d: Direction)
    ensures d == Increase <==> m.monthlyChange >= 0
    ensures d == Decrease <==> m.monthlyChange < 0
  {
    if m.monthlyChange >= 0 then Increase else Decrease
  }

  /** The CSS class put on the change line. */
  function CssClass(d: Direction): (c: string)
    ensures c == "positive" || c == "negative"
    ensures c == "positive" <==> d == Increase
  {
    match d
    case Increase => "positive"
    case Decrease => "negative"
  }

  /** The arrow shown before the change: up or down triangle. */
  function Glyph(d: Direction): (g: string)
    ensures |g| == 1
    ensures g == "\U{25B2}" <==> d == Increase
    ensures g == "\U{25BC}" <==> d == Decrease
  {
    match d
    case Increase => "\U{25B2}"
    case Decrease => "\U{25BC}"
  }

  /**
   Over a series, the card shows an increase exactly when there is no
   earlier period or the last total is at least the one before it.
   */
  lemma IndicatorOfSeries(s: Series)
    ensures Indicator(CalculateMetrics(s)) == Increase <==>
      |s| < 2 || s[|s| - 1].totalBacklinks >= s[|s| - 2].totalBacklinks
  {
  }

  /** The arrow never contradicts the percentage printed beside it. */
  lemma IndicatorAgreesWithPercent(s: Series)
    ensures var m := CalculateMetrics(s);
      && (Indicator(m) == Increase ==> m.percentChange >= 0.0)
      && (Indicator(m) == Decrease ==> m.percentChange <= 0.0)
  {
    PercentFollowsChange(s);
  }

  /** Why a run produces no report. */
  datatype ReportError = NoData

  datatype Outcome = Generated(view: ReportView) | Failed(error: ReportError)

  /** Everything the template is filled with, apart from configuration. */
  datatype ReportView = ReportView(
    metrics: Metrics,
    direction: Direction,
    trend: seq<TrendPoint>,
    bars: seq<BarGroup>)

  /**
   One run over a loaded history: an empty history stops the run before any
   metric or chart is computed; otherwise the metrics, the indicator and both
   charts' data are assembled.
   */
  function BuildReport(s: Series): (o: Outcome)
    ensures o.Failed? <==> |s| == 0
    ensures o.Generated? ==>
      && o.view.metrics == CalculateMetrics(s)
      && o.view.trend == TrendPoints(s)
      && o.view.bars == NewVsLostBars(s)
    ensures o.Generated? ==>
      && ReflectsCurrent(o.view.metrics, s[|s| - 1])
      && (o.view.direction == Increase <==> o.view.metrics.monthlyChange >= 0)
      && |o.view.trend| == |s|
      && 1 <= |o.view.bars| <= RecentPeriods
  {
    if |s| == 0 then
      Failed(NoData)
    else
      var m := CalculateMetrics(s);
      Generated(ReportView(m, Indicator(m), TrendPoints(s), NewVsLostBars(s)))
  }
}
