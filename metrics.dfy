/**
 The metrics calculator: point-in-time and month-over-month figures derived
 from the last one or two records of the history table.
 */
module Metrics {
  import opened History

  /** The figures shown on the report's metric cards. */
  datatype Metrics = Metrics(
    currentBacklinks: int,
    currentDomains: int,
    monthlyChange: int,
    percentChange: real,
    newThisMonth: int,
    lostThisMonth: int,
    domainAuthority: DomainAuthority)

  /** The "current period" fields of `m` are those of record `r`. */
  predicate ReflectsCurrent(m: Metrics, r: Record) {
    && m.currentBacklinks == r.totalBacklinks
    && m.currentDomains == r.referringDomains
    && m.newThisMonth == r.newBacklinks
    && m.lostThisMonth == r.lostBacklinks
    && m.domainAuthority == r.domainAuthority
  }

  /**
   The month-over-month percentage, guarded against a previous total that is
   zero or negative. Times the previous total it gives back the change in
   hundredths, so it has the change's sign.
   */
  function PercentChange(change: int, previousTotal: int): (p: real)
    ensures previousTotal <= 0 ==> p == 0.0
    ensures previousTotal > 0 ==> p * previousTotal as real == change as real * 100.0
    ensures p > 0.0 <==> previousTotal > 0 && change > 0
    ensures p < 0.0 <==> previousTotal > 0 && change < 0
  {
    if previousTotal > 0 then change as real / previousTotal as real * 100.0 else 0.0
  }

  /** The metrics of a series taken by position: last record, second-to-last record. */
  function CalculateMetrics(s: Series): (m: Metrics)
    ensures |s| == 0 ==>
      && m.currentBacklinks == 0 && m.currentDomains == 0
      && m.monthlyChange == 0 && m.percentChange == 0.0
      && m.newThisMonth == 0 && m.lostThisMonth == 0
      && m.domainAuthority == NA
    ensures |s| >= 1 ==> ReflectsCurrent(m, s[|s| - 1])
    ensures |s| <= 1 ==> m.monthlyChange == 0 && m.percentChange == 0.0
    ensures |s| >= 2 ==> m.monthlyChange + s[|s| - 2].totalBacklinks == s[|s| - 1].totalBacklinks
    ensures |s| >= 2 && s[|s| - 2].totalBacklinks <= 0 ==> m.percentChange == 0.0
    ensures |s| >= 2 && s[|s| - 2].totalBacklinks > 0 ==>
      m.percentChange * s[|s| - 2].totalBacklinks as real == m.monthlyChange as real * 100.0
  {
    if |s| < 2 then
      Metrics(
        if |s| > 0 then s[|s| - 1].totalBacklinks else 0,
        if |s| > 0 then s[|s| - 1].referringDomains else 0,
        0,
        0.0,
        if |s| > 0 then s[|s| - 1].newBacklinks else 0,
        if |s| > 0 then s[|s| - 1].lostBacklinks else 0,
        if |s| > 0 then s[|s| - 1].domainAuthority else NA)
    else
      var current, previous := s[|s| - 1], s[|s| - 2];
      var change := current.totalBacklinks - previous.totalBacklinks;
      Metrics(
        current.totalBacklinks,
        current.referringDomains,
        change,
        PercentChange(change, previous.totalBacklinks),
        current.newBacklinks,
        current.lostBacklinks,
        current.domainAuthority)
  }

  /**
   The sign of the percentage agrees with the sign of the monthly change,
   except that it is 0 when there is no positive previous total; it is 0
   whenever the two totals are equal.
   */
  lemma PercentFollowsChange(s: Series)
    ensures var m := CalculateMetrics(s);
      && (m.percentChange > 0.0 <==> m.monthlyChange > 0 && |s| >= 2 && s[|s| - 2].totalBacklinks > 0)
      && (m.percentChange < 0.0 <==> m.monthlyChange < 0 && |s| >= 2 && s[|s| - 2].totalBacklinks > 0)
      && (m.monthlyChange == 0 ==> m.percentChange == 0.0)
  {
    var m := CalculateMetrics(s);
    if |s| >= 2 {
      var prev := s[|s| - 2].totalBacklinks;
      assert m.percentChange == PercentChange(m.monthlyChange, prev);
    }
  }

  /** Only the last two records matter: equal last-two windows give equal metrics. */
  lemma OnlyLastTwoMatter(s: Series, t: Series)
    requires Trailing(s, 2) == Trailing(t, 2)
    ensures CalculateMetrics(s) == CalculateMetrics(t)
  {
    if |s| >= 2 || |t| >= 2 {
      assert |s| >= 2 && |t| >= 2;
      TrailingAt(s, 2, 0);
      TrailingAt(s, 2, 1);
      TrailingAt(t, 2, 0);
      TrailingAt(t, 2, 1);
    }
  }

  /** An earlier prefix, however long, does not change the metrics. */
  lemma PrefixIrrelevant(p: Series, q: Series, previous: Record, current: Record)
    ensures CalculateMetrics(p + [previous, current]) == CalculateMetrics(q + [previous, current])
  {
    OnlyLastTwoMatter(p + [previous, current], q + [previous, current]);
  }

  /**
   The metrics of any trailing window of at least two records (the chart's
   six-month window among them) equal those of the whole series.
   */
  lemma MetricsOfWindow(s: Series, n: nat)
    requires n >= 2
    ensures CalculateMetrics(Trailing(s, n)) == CalculateMetrics(s)
  {
    TrailingOfTrailing(s, n, 2);
    OnlyLastTwoMatter(Trailing(s, n), s);
  }

  /**
   Appending a new period: the new metrics describe the appended record,
   measured against the record that was last before.
   */
  lemma MetricsAfterAppend(s: Series, r: Record)
    requires |s| >= 1
    ensures var m := CalculateMetrics(s + [r]);
      && ReflectsCurrent(m, r)
      && m.monthlyChange == r.totalBacklinks - CalculateMetrics(s).currentBacklinks
  {
    var t := s + [r];
    assert t[|t| - 1] == r && t[|t| - 2] == s[|s| - 1];
  }

  /**
   The metrics as they would be kept up to date one period at a time: the new
   record becomes current and, when there was an earlier period, is compared
   with the backlink count that was current before it. Only that count is
   carried over from one period to the next.
   */
  function Roll(m: Metrics, hasPrevious: bool, r: Record): Metrics {
    var change := if hasPrevious then r.totalBacklinks - m.currentBacklinks else 0;
    Metrics(
      r.totalBacklinks,
      r.referringDomains,
      change,
      if hasPrevious then PercentChange(change, m.currentBacklinks) else 0.0,
      r.newBacklinks,
      r.lostBacklinks,
      r.domainAuthority)
  }

  /** The metrics reached by rolling every record of the series in, oldest first. */
  function RollAll(s: Series): Metrics {
    if s == [] then Metrics(0, 0, 0, 0.0, 0, 0, NA)
    else Roll(RollAll(s[..|s| - 1]), |s| >= 2, s[|s| - 1])
  }

  /** Reading the last two records by position gives what a month-by-month update would reach. */
  lemma {:induction false} RollAllIsCalculateMetrics(s: Series)
    ensures RollAll(s) == CalculateMetrics(s)
  {
    if s != [] {
      var p := s[..|s| - 1];
      RollAllIsCalculateMetrics(p);
      if |s| >= 2 {
        assert p[|p| - 1] == s[|s| - 2];
      }
    }
  }

  /** A two-month example: 100 -> 120 backlinks is +20, or +20%. */
  lemma TwoMonthExample()
    ensures
      var jan := Record(Date(2024, 1, 1), 100, 10, 5, 2, Score(20));
      var feb := Record(Date(2024, 2, 1), 120, 12, 25, 5, Score(22));
      CalculateMetrics([jan, feb]) == Metrics(120, 12, 20, 20.0, 25, 5, Score(22))
  {
    var jan := Record(Date(2024, 1, 1), 100, 10, 5, 2, Score(20));
    var feb := Record(Date(2024, 2, 1), 120, 12, 25, 5, Score(22));
    var m := CalculateMetrics([jan, feb]);
    assert m.percentChange * 100.0 == 2000.0;
  }
}
