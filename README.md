# Backlink report: a Dafny model of the metrics and chart data

The backlink report script reads a table of monthly backlink snapshots
(total backlinks, referring domains, new and lost backlinks, domain
authority). From it, it produces an HTML page with four metric cards and two charts.
This project models the logic in that script that decides what the page shows:

- the **metrics calculator** (`calculate_metrics`). It has three branches, for 0, 1 and
  2 or more records. It reads only the last and second-to-last rows by position. It
  computes a signed month-over-month delta and a percentage change, and the
  percentage is guarded against a previous total that is not positive;
- the **trailing window** (`tail(6)`) that restricts the new-vs-lost chart to
  the last six periods, and the columns each chart plots;
- the **direction indicator** of the "Total Backlinks" card. It is "positive" with
  ▲ when `monthly_change >= 0`, so a zero change counts as an increase. Otherwise
  it is "negative" with ▼;
- the run's refusal to build a report from an empty table.

Files:

- `history.dfy`: records and series, and `Trailing`, the positional tail of a sequence.
- `metrics.dfy`: `CalculateMetrics` and `PercentChange`, with the lemmas about them.
- `charts.dfy`: the recent-record window and the data each chart plots.
- `report.dfy`: the indicator, and `BuildReport`, which assembles the view model.

The percentage is a `real`, computed as `change / previous * 100`. Record counts are
unbounded `int`s. The model keeps records in the order they are stored, because
the script never sorts them.

The percentage guard at `scripts/generate_report.py:103` is `previous > 0`, so a
zero or negative previous total gives 0. The model uses the same guard.

## Model

| member | source | states |
|---|---|---|
| `History.Trailing` | scripts/generate_report.py:56 | `tail(n)`: the result's length is the smaller of `n` and the series length, and it is a suffix of `s` (the prefix plus it rebuilds `s`), so a short series is returned whole without error |
| `History.TrailingAt` | scripts/generate_report.py:56 | element `i` of the window is the series element at `i` plus the number of records before the window |
| `History.TrailingOfTrailing` | scripts/generate_report.py:56 | a shorter window taken from a window is the same as that window taken from the series |
| `History.TrailingAppend` | scripts/generate_report.py:56 | after a period is appended, the window equals the old window plus the new element, trimmed back to `n` |
| `History.ReplayIsTrailing` | scripts/generate_report.py:56 | `tail(n)` equals the contents of a rolling buffer of `n` periods after the whole series has been fed into it one record at a time, dropping the oldest record whenever the buffer is full |
| `Metrics.PercentChange` | scripts/generate_report.py:102-103 | a previous total that is not positive gives 0; otherwise percent × previous = change × 100; the result is positive (negative) exactly when the previous total is positive and the change is positive (negative) |
| `Metrics.CalculateMetrics` | scripts/generate_report.py:85-113 | empty series: every count is 0 and the domain authority is N/A. Non-empty: the current, domain, new and lost counts and the authority are the last record's. One record: the change and the percentage are 0. Two or more: change + previous total = current total (exact and signed); the percentage is 0 when the previous total is not positive, and otherwise satisfies percent × previous = change × 100 |
| `Metrics.PercentFollowsChange` | scripts/generate_report.py:102-103 | the percentage is positive (negative) exactly when the change is positive (negative) and a positive previous total exists; a zero change gives a zero percentage |
| `Metrics.OnlyLastTwoMatter` | scripts/generate_report.py:88-100 | two series with the same last two records (or the same whole series when it is shorter) have identical metrics |
| `Metrics.PrefixIrrelevant` | scripts/generate_report.py:99-100 | whatever earlier rows come before two given records, the metrics are the same |
| `Metrics.MetricsOfWindow` | scripts/generate_report.py:56 | the metrics of any trailing window of at least two records, including the chart's six-record window, equal the metrics of the whole series |
| `Metrics.MetricsAfterAppend` | scripts/generate_report.py:99-112 | after a new record is appended, the metrics describe that record, and its change is measured against the previous current backlink count |
| `Metrics.RollAllIsCalculateMetrics` | scripts/generate_report.py:85-113 | the positional computation gives the same metrics as updating them one period at a time: each record in turn becomes current and is compared with the previous current count |
| `Metrics.TwoMonthExample` | scripts/generate_report.py:102-112 | 100→120 backlinks gives current 120, change +20 and percent 20.0, with new 25, lost 5 and authority 22 taken from the last record |
| `Charts.RecentRecords` | scripts/generate_report.py:56 | at most six records; the whole series when it has six or fewer; exactly six otherwise; they are the series' last records, in order |
| `Charts.TrendPoints` | scripts/generate_report.py:24-40 | the trend chart has one point per record, in stored order, carrying its date, total backlinks and referring domains |
| `Charts.NewVsLostBars` | scripts/generate_report.py:56-72 | the bar chart has six groups, or one per record when the series is shorter; group `i` holds the date and the new and lost counts of the `i`-th of the last records, in order |
| `Charts.BarsAlignWithTrend` | scripts/generate_report.py:24-72 | the bar groups' dates are the last dates on the trend chart's axis |
| `Charts.BarsSlide` | scripts/generate_report.py:56-72 | appending a period appends one bar group and, once six groups are shown, drops the oldest |
| `Report.Indicator` | scripts/generate_report.py:207-208 | the indicator is Increase exactly when `monthly_change >= 0`, and Decrease exactly when it is negative |
| `Report.CssClass` | scripts/generate_report.py:207 | the class is "positive" exactly for Increase; otherwise it is "negative" |
| `Report.Glyph` | scripts/generate_report.py:208 | the glyph is one character: ▲ exactly for Increase, ▼ exactly for Decrease |
| `Report.IndicatorOfSeries` | scripts/generate_report.py:88-102 | the card shows an increase exactly when there is no earlier period or the last total is at least the previous one, so equal totals show as an increase |
| `Report.IndicatorAgreesWithPercent` | scripts/generate_report.py:103-109 | for an increase, the printed percentage is not negative; for a decrease, it is not positive |
| `Report.BuildReport` | scripts/generate_report.py:272-283 | the run fails exactly when the series is empty. Otherwise, the view's metrics are the series' metrics, its trend and bar data are those of the two charts, and its indicator is consistent with the change. So the view holds the last record's counts, one trend point per record, and between 1 and 6 bar groups |

## Left out

- Loading the CSV and parsing dates (lines 9-17), including the missing-file branch. This is file I/O through pandas. The model takes the series as given, in stored order.
- Building the Plotly figures and `to_html` (lines 19-51 and 58-83). The charting library is foreign and its markup is opaque. Only the records and columns that each chart is given are modelled.
- Jinja templating, CSS and the HTML body (lines 115-256). Only the indicator condition at lines 207-208 is modelled. The presentation values `REPORT_TITLE`, `TARGET_DOMAIN` and `CURRENT_DATE` come from a configuration module that is not part of this model.
- `save_report` (lines 258-267): directory creation and writing the file.
- The console messages and the process exit status in the main block (lines 269-286). The empty-table exit is modelled as the `Failed(NoData)` outcome of `BuildReport`.
- Metrics.PercentChange: does not model `round(percent, 2)` (line 109). The result is the exact real quotient, because float rounding is library semantics. The sign equivalences hold only for that unrounded quotient. With the rounding, a change of +1 on a previous total of 1,000,000 prints 0.0 even though the change is positive.
- Metrics.CalculateMetrics: does not model the `int(...)` coercions of pandas and numpy scalars, or non-integer values in the count columns. Counts are unbounded integers.
- Metrics.CalculateMetrics: does not model a floating-point `NaN` domain authority. `pd.read_csv` (line 12) reads an empty or `N/A` cell as `NaN`, never as the string `'N/A'`. A record's `NA` stands for that missing value and is passed through like a score. The string `'N/A'` itself only appears as the empty-series default (line 96). The template never shows `domain_authority` (lines 204-226).
