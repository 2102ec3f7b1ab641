/**
 The data the two charts plot. The charting library and its markup are not
 modelled; what is modelled is which records, and which of their columns,
 each chart is given.
 */
module Charts {
  import opened History

  /** How many trailing periods the new-vs-lost chart shows. */
  const RecentPeriods: nat := 6

  /** One point of the growth trend chart: both line series share the date axis. */
  datatype TrendPoint = TrendPoint(date: Date, totalBacklinks: int, referringDomains: int)

  /** One group of the new-vs-lost bar chart. */
  datatype BarGroup = BarGroup(date: Date, newBacklinks: int, lostBacklinks: int)

  /**
   The records the new-vs-lost chart is drawn from: the last six, or the
   whole series when it is shorter.
   */
  function RecentRecords(s: Series): (w: Series)
    ensures |w| <= RecentPeriods
    ensures |s| <= RecentPeriods ==> w == s
    ensures |s| > RecentPeriods ==> |w| == RecentPeriods
    ensures forall i :: 0 <= i < |w| ==> w[i] == s[|s| - |w| + i]
  {
    var w := Trailing(s, RecentPeriods);
    forall i | 0 <= i < |w| ensures w[i] == s[|s| - |w| + i] {
      TrailingAt(s, RecentPeriods, i);
    }
    w
  }

  /** The trend chart plots every record, in stored order. */
  function TrendPoints(s: Series): (pts: seq<TrendPoint>)
    ensures |pts| == |s|
    ensures forall i :: 0 <= i < |s| ==>
      pts[i].date == s[i].date
      && pts[i].totalBacklinks == s[i].totalBacklinks
      && pts[i].referringDomains == s[i].referringDomains
  {
    seq(|s|, i requires 0 <= i < |s| => TrendPoint(s[i].date, s[i].totalBacklinks, s[i].referringDomains))
  }

  /** The new-vs-lost chart plots the new and lost counts of the recent records. */
  function NewVsLostBars(s: Series): (bars: seq<BarGroup>)
    ensures |bars| == Min(RecentPeriods, |s|)
    ensures forall i :: 0 <= i < |bars| ==>
      var r := s[|s| - |bars| + i];
      bars[i] == BarGroup(r.date, r.newBacklinks, r.lostBacklinks)
  {
    var w := RecentRecords(s);
    seq(|w|, i requires 0 <= i < |w| => BarGroup(w[i].date, w[i].newBacklinks, w[i].lostBacklinks))
  }

  /**
   The bar chart's dates are the last dates of the trend chart: both charts
   label the same periods, and the bars cover the most recent ones.
   */
  lemma BarsAlignWithTrend(s: Series)
    ensures var bars, pts := NewVsLostBars(s), TrendPoints(s);
      |bars| <= |pts|
      && forall i :: 0 <= i < |bars| ==> bars[i].date == pts[|pts| - |bars| + i].date
  {
  }

  /**
   Recording one more period slides the bar chart along by one: the new
   chart is the old one with the new group appended, losing its oldest group
   once the chart is full.
   */
  lemma {:induction false} BarsSlide(s: Series, r: Record)
    ensures var old_, new_ := NewVsLostBars(s), NewVsLostBars(s + [r]);
      new_ == (if |old_| < RecentPeriods then old_ else old_[1..])
              + [BarGroup(r.date, r.newBacklinks, r.lostBacklinks)]
  {
    var t := s + [r];
    var a, b := NewVsLostBars(s), NewVsLostBars(t);
    var expected := (if |a| < RecentPeriods then a else a[1..]) + [BarGroup(r.date, r.newBacklinks, r.lostBacklinks)];
    assert |b| == |expected|;
    forall i | 0 <= i < |b| ensures b[i] == expected[i] {
      if i < |b| - 1 {
        var k := if |a| < RecentPeriods then i else i + 1;
        assert t[|t| - |b| + i] == s[|s| - |a| + k];
      }
    }
  }
}
