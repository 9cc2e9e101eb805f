/**
 * Daily roll-ups read into a summary and a series of consecutive days, for the analytics overview and
 * for a campaign's report. The series' figures add up to the summary's because its days cover the range
 * the rows were queried for.
 */
module Analytics {
  import opened Base
  import opened Pricing

  datatype Metric =
    | View | UniqueVisitor | LinkClick | FormSubmit | VcardDownload | QrScan | FormView
    | CampaignView | CampaignUnique | CampaignFormSubmit | OtherMetric

  datatype Row = Row(bucketStart: int, metric: Metric, count: nat)

  function DayOf(time: int): int {
    time / MS_PER_DAY
  }

  function StartOfDay(time: int): int {
    DayOf(time) * MS_PER_DAY
  }

  // ---- Totals ----

  function Total(rows: seq<Row>, metric: Metric): nat {
    if rows == [] then 0
    else Total(rows[..|rows| - 1], metric) + if rows[|rows| - 1].metric == metric then rows[|rows| - 1].count else 0
  }

  function DayTotal(rows: seq<Row>, metric: Metric, day: int): nat {
    if rows == [] then 0
    else
      var row := rows[|rows| - 1];
      DayTotal(rows[..|rows| - 1], metric, day) + if row.metric == metric && DayOf(row.bucketStart) == day then row.count else 0
  }

  /** The day totals of `days` days from `first` on. */
  function DaysTotal(rows: seq<Row>, metric: Metric, first: int, days: nat): nat {
    if days == 0 then 0 else DaysTotal(rows, metric, first, days - 1) + DayTotal(rows, metric, first + days - 1)
  }

  function Outside(rows: seq<Row>, metric: Metric, first: int, days: nat): nat {
    if rows == [] then 0
    else
      var row := rows[|rows| - 1];
      Outside(rows[..|rows| - 1], metric, first, days) +
      if row.metric == metric && !(first <= DayOf(row.bucketStart) < first + days) then row.count else 0
  }

  lemma TotalStep(rows: seq<Row>, k: nat, metric: Metric)
    requires k < |rows|
    ensures Total(rows[..k + 1], metric) == Total(rows[..k], metric) + if rows[k].metric == metric then rows[k].count else 0
  {
    assert rows[..k + 1][..k] == rows[..k];
  }

  lemma {:induction false} NoDays(metric: Metric, first: int, days: nat)
    ensures DaysTotal([], metric, first, days) == 0
  {
    if days > 0 {
      NoDays(metric, first, days - 1);
    }
  }

  lemma {:induction false} DaysTotalStep(rows: seq<Row>, metric: Metric, first: int, days: nat)
    requires rows != []
    ensures var row := rows[|rows| - 1];
            DaysTotal(rows, metric, first, days) == DaysTotal(rows[..|rows| - 1], metric, first, days) +
            if row.metric == metric && first <= DayOf(row.bucketStart) < first + days then row.count else 0
  {
    if days > 0 {
      DaysTotalStep(rows, metric, first, days - 1);
    }
  }

  /** Nothing is counted twice: the days' totals and what lies outside make up the total. */
  lemma {:induction false} DaysAndRest(rows: seq<Row>, metric: Metric, first: int, days: nat)
    ensures DaysTotal(rows, metric, first, days) + Outside(rows, metric, first, days) == Total(rows, metric)
  {
    if rows == [] {
      NoDays(metric, first, days);
    } else {
      DaysTotalStep(rows, metric, first, days);
      DaysAndRest(rows[..|rows| - 1], metric, first, days);
    }
  }

  lemma {:induction false} NothingOutside(rows: seq<Row>, metric: Metric, first: int, days: nat)
    requires forall i | 0 <= i < |rows| :: first <= DayOf(rows[i].bucketStart) < first + days
    ensures Outside(rows, metric, first, days) == 0
  {
    if rows != [] {
      NothingOutside(rows[..|rows| - 1], metric, first, days);
    }
  }

  // ---- The range ----

  /** The start of the range of `days` days that ends at `to`. */
  function RangeStart(to: int, days: nat): int {
    StartOfDay(to - (days - 1) * MS_PER_DAY)
  }

  /** The query: roll-ups of the range, both ends included. */
  function Queried(rows: seq<Row>, from: int, to: int): seq<Row> {
    if rows == [] then []
    else
      var row := rows[|rows| - 1];
      Queried(rows[..|rows| - 1], from, to) + if from <= row.bucketStart <= to then [row] else []
  }

  lemma {:induction false} QueriedInRange(rows: seq<Row>, from: int, to: int)
    ensures forall i | 0 <= i < |Queried(rows, from, to)| :: from <= Queried(rows, from, to)[i].bucketStart <= to
  {
    if rows != [] {
      QueriedInRange(rows[..|rows| - 1], from, to);
    }
  }

  /** Each roll-up of the range is in the query's answer as often as it is stored, and no other is. */
  lemma {:induction false} QueriedExactly(rows: seq<Row>, from: int, to: int, row: Row)
    ensures multiset(Queried(rows, from, to))[row] == if from <= row.bucketStart <= to then multiset(rows)[row] else 0
  {
    if rows != [] {
      var n := |rows| - 1;
      QueriedExactly(rows[..n], from, to, row);
      assert rows == rows[..n] + [rows[n]];
    }
  }

  lemma DayBack(to: int, n: int)
    ensures DayOf(to - n * MS_PER_DAY) == DayOf(to) - n
  {
  }

  lemma DayOfStart(time: int, n: int)
    ensures DayOf(StartOfDay(time) + n * MS_PER_DAY) == DayOf(time) + n
  {
  }

  /** The days of the series are exactly the days of the range. */
  lemma RangeCovered(to: int, days: nat, time: int)
    requires days > 0 && RangeStart(to, days) <= time <= to
    ensures DayOf(RangeStart(to, days)) == DayOf(to) - (days - 1)
    ensures DayOf(RangeStart(to, days)) <= DayOf(time) < DayOf(RangeStart(to, days)) + days
  {
  }

  lemma QueriedDays(rows: seq<Row>, to: int, days: nat, metric: Metric)
    requires days > 0
    ensures var from := RangeStart(to, days);
            DaysTotal(Queried(rows, from, to), metric, DayOf(from), days) == Total(Queried(rows, from, to), metric)
  {
    var from := RangeStart(to, days);
    var queried := Queried(rows, from, to);
    QueriedInRange(rows, from, to);
    forall i | 0 <= i < |queried| ensures DayOf(from) <= DayOf(queried[i].bucketStart) < DayOf(from) + days {
      RangeCovered(to, days, queried[i].bucketStart);
    }
    NothingOutside(queried, metric, DayOf(from), days);
    DaysAndRest(queried, metric, DayOf(from), days);
  }

  // ---- The overview ----

  /** Rates are in tenths of a percent. */
  datatype Summary = Summary(views: nat, uniqueVisitors: nat, linkClicks: nat, vcardDownloads: nat, qrScans: nat, formViews: nat,
                             formSubmits: nat, conversionRate: int)

  datatype Point = Point(date: int, views: nat, uniqueVisitors: nat, linkClicks: nat, formSubmits: nat)

  method BuildSummary(rows: seq<Row>, uniqueVisitors: nat, formSubmits: nat) returns (s: Summary)
    ensures s.views == Total(rows, View) && s.linkClicks == Total(rows, LinkClick) && s.vcardDownloads == Total(rows, VcardDownload)
    ensures s.qrScans == Total(rows, QrScan) && s.formViews == Total(rows, FormView)
    ensures s.uniqueVisitors == uniqueVisitors && s.formSubmits == formSubmits
    ensures s.conversionRate == if uniqueVisitors > 0 then RoundHalfUp(1000 * formSubmits, uniqueVisitors) else 0
  {
    s := Summary(0, uniqueVisitors, 0, 0, 0, 0, formSubmits, 0);
    for k := 0 to |rows|
      invariant s == Summary(Total(rows[..k], View), uniqueVisitors, Total(rows[..k], LinkClick), Total(rows[..k], VcardDownload),
                             Total(rows[..k], QrScan), Total(rows[..k], FormView), formSubmits, 0)
    {
      assert rows[..k + 1][..k] == rows[..k];
      match rows[k].metric {
        case View => s := s.(views := s.views + rows[k].count);
        case LinkClick => s := s.(linkClicks := s.linkClicks + rows[k].count);
        case VcardDownload => s := s.(vcardDownloads := s.vcardDownloads + rows[k].count);
        case QrScan => s := s.(qrScans := s.qrScans + rows[k].count);
        case FormView => s := s.(formViews := s.formViews + rows[k].count);
        case _ =>
      }
    }
    assert rows[..|rows|] == rows;
    s := s.(conversionRate := if uniqueVisitors > 0 then RoundHalfUp(1000 * formSubmits, uniqueVisitors) else 0);
  }

  /** The point of one day. */
  function PointOf(rows: seq<Row>, from: int, i: nat): Point {
    var day := DayOf(from) + i;
    Point(from + i * MS_PER_DAY, DayTotal(rows, View, day), DayTotal(rows, UniqueVisitor, day), DayTotal(rows, LinkClick, day),
          DayTotal(rows, FormSubmit, day))
  }

  /** Each figure of the point is the total of its own metric on that day. */
  predicate CountsDay(p: Point, rows: seq<Row>, day: int) {
    && p.views == DayTotal(rows, View, day) && p.uniqueVisitors == DayTotal(rows, UniqueVisitor, day)
    && p.linkClicks == DayTotal(rows, LinkClick, day) && p.formSubmits == DayTotal(rows, FormSubmit, day)
  }

  function AddToPoint(p: Point, row: Row): Point {
    match row.metric
    case View => p.(views := p.views + row.count)
    case UniqueVisitor => p.(uniqueVisitors := p.uniqueVisitors + row.count)
    case LinkClick => p.(linkClicks := p.linkClicks + row.count)
    case FormSubmit => p.(formSubmits := p.formSubmits + row.count)
    case _ => p
  }

  lemma PointStep(rows: seq<Row>, k: nat, from: int, i: nat)
    requires k < |rows|
    ensures PointOf(rows[..k + 1], from, i) ==
            if DayOf(rows[k].bucketStart) == DayOf(from) + i then AddToPoint(PointOf(rows[..k], from, i), rows[k])
            else PointOf(rows[..k], from, i)
  {
    assert rows[..k + 1][..k] == rows[..k];
  }

  /** The table keeps the points by day, empty days included. */
  ghost predicate Points(points: map<int, Point>, rows: seq<Row>, from: int, days: nat) {
    && (forall day :: day in points <==> DayOf(from) <= day < DayOf(from) + days)
    && (forall i: nat | i < days :: points[DayOf(from) + i] == PointOf(rows, from, i))
  }

  method EmptyDays(from: int, days: nat) returns (points: map<int, Point>)
    requires from == StartOfDay(from)
    ensures Points(points, [], from, days)
  {
    points := map[];
    for i := 0 to days
      invariant Points(points, [], from, i)
    {
      DayOfStart(from, i);
      points := points[DayOf(from + i * MS_PER_DAY) := Point(from + i * MS_PER_DAY, 0, 0, 0, 0)];
    }
  }

  method AddToDay(points: map<int, Point>, rows: seq<Row>, k: nat, ghost from: int, ghost days: nat) returns (after: map<int, Point>)
    requires k < |rows| && Points(points, rows[..k], from, days)
    ensures Points(after, rows[..k + 1], from, days)
  {
    var day := DayOf(rows[k].bucketStart);
    after := if day in points then points[day := AddToPoint(points[day], rows[k])] else points;
    ghost var seen := rows[..k + 1];
    forall i: nat | i < days ensures after[DayOf(from) + i] == PointOf(seen, from, i) {
      PointStep(rows, k, from, i);
    }
  }

  method BuildSeries(rows: seq<Row>, from: int, days: nat) returns (series: seq<Point>)
    requires from == StartOfDay(from)
    ensures |series| == days && forall i | 0 <= i < days :: series[i] == PointOf(rows, from, i)
    ensures forall i | 0 <= i < days :: series[i].date == from + i * MS_PER_DAY && CountsDay(series[i], rows, DayOf(from) + i)
  {
    var points := EmptyDays(from, days);
    assert rows[..0] == [];
    for k := 0 to |rows|
      invariant Points(points, rows[..k], from, days)
    {
      points := AddToDay(points, rows, k, from, days);
    }
    assert rows[..|rows|] == rows;
    series := [];
    for i := 0 to days
      invariant |series| == i && forall j | 0 <= j < i :: series[j] == PointOf(rows, from, j)
    {
      series := series + [points[DayOf(from) + i]];
    }
  }

  function SumViews(series: seq<Point>): nat {
    if series == [] then 0 else SumViews(series[..|series| - 1]) + series[|series| - 1].views
  }

  function SumClicks(series: seq<Point>): nat {
    if series == [] then 0 else SumClicks(series[..|series| - 1]) + series[|series| - 1].linkClicks
  }

  lemma {:induction false} SeriesSums(series: seq<Point>, rows: seq<Row>, from: int)
    requires forall i | 0 <= i < |series| :: series[i] == PointOf(rows, from, i)
    ensures SumViews(series) == DaysTotal(rows, View, DayOf(from), |series|)
    ensures SumClicks(series) == DaysTotal(rows, LinkClick, DayOf(from), |series|)
  {
    if series != [] {
      SeriesSums(series[..|series| - 1], rows, from);
    }
  }

  /** One point a day, ending today, and the series' views and clicks are the summary's. */
  method Overview(all: seq<Row>, to: int, days: nat, uniqueVisitors: nat, formSubmits: nat) returns (summary: Summary, series: seq<Point>)
    requires days > 0
    ensures |series| == days && SumViews(series) == summary.views && SumClicks(series) == summary.linkClicks
    ensures forall i | 0 <= i < days :: DayOf(series[i].date) == DayOf(to) - (days - 1) + i
    ensures summary.views == Total(Queried(all, RangeStart(to, days), to), View)
    ensures forall i | 0 <= i < days :: CountsDay(series[i], Queried(all, RangeStart(to, days), to), DayOf(series[i].date))
  {
    var from := RangeStart(to, days);
    var rows := Queried(all, from, to);
    DayOfStart(to - (days - 1) * MS_PER_DAY, 0);
    summary := BuildSummary(rows, uniqueVisitors, formSubmits);
    series := BuildSeries(rows, from, days);
    SeriesSums(series, rows, from);
    QueriedDays(all, to, days, View);
    QueriedDays(all, to, days, LinkClick);
    forall i | 0 <= i < days ensures DayOf(series[i].date) == DayOf(to) - (days - 1) + i {
      DayBack(to, days - 1);
      DayOfStart(to - (days - 1) * MS_PER_DAY, i);
    }
  }

  // ---- A campaign's report ----

  datatype CampaignPoint = CampaignPoint(date: int, views: nat, uniqueVisitors: nat)

  datatype CampaignTotals = CampaignTotals(views: nat, uniqueVisitors: nat, formSubmits: nat)

  function CampaignPointOf(rows: seq<Row>, from: int, i: nat): CampaignPoint {
    CampaignPoint(from + i * MS_PER_DAY, DayTotal(rows, CampaignView, DayOf(from) + i), DayTotal(rows, CampaignUnique, DayOf(from) + i))
  }

  predicate CountsCampaignDay(p: CampaignPoint, rows: seq<Row>, day: int) {
    p.views == DayTotal(rows, CampaignView, day) && p.uniqueVisitors == DayTotal(rows, CampaignUnique, day)
  }

  function TotalsOf(rows: seq<Row>): CampaignTotals {
    CampaignTotals(Total(rows, CampaignView), Total(rows, CampaignUnique), Total(rows, CampaignFormSubmit))
  }

  ghost predicate CampaignPoints(points: map<int, CampaignPoint>, rows: seq<Row>, from: int, days: nat) {
    && (forall day :: day in points <==> DayOf(from) <= day < DayOf(from) + days)
    && (forall i: nat | i < days :: points[DayOf(from) + i] == CampaignPointOf(rows, from, i))
  }

  method EmptyCampaignDays(from: int, days: nat) returns (points: map<int, CampaignPoint>)
    requires from == StartOfDay(from)
    ensures CampaignPoints(points, [], from, days)
  {
    points := map[];
    for i := 0 to days
      invariant CampaignPoints(points, [], from, i)
    {
      DayOfStart(from, i);
      points := points[DayOf(from + i * MS_PER_DAY) := CampaignPoint(from + i * MS_PER_DAY, 0, 0)];
    }
  }

  lemma CampaignPointStep(rows: seq<Row>, k: nat, from: int, i: nat)
    requires k < |rows|
    ensures var before, after := CampaignPointOf(rows[..k], from, i), CampaignPointOf(rows[..k + 1], from, i);
            after == if DayOf(rows[k].bucketStart) != DayOf(from) + i then before
                     else if rows[k].metric == CampaignView then before.(views := before.views + rows[k].count)
                     else if rows[k].metric == CampaignUnique then before.(uniqueVisitors := before.uniqueVisitors + rows[k].count)
                     else before
  {
    assert rows[..k + 1][..k] == rows[..k];
  }

  /** The body of the loop: a row counts for the totals, and for its day if the day is in the table. */
  method AddCampaignRow(totals: CampaignTotals, points: map<int, CampaignPoint>, rows: seq<Row>, k: nat, ghost from: int, ghost days: nat)
    returns (newTotals: CampaignTotals, after: map<int, CampaignPoint>)
    requires k < |rows| && OfCampaign(rows)
    requires totals == TotalsOf(rows[..k]) && CampaignPoints(points, rows[..k], from, days)
    ensures newTotals == TotalsOf(rows[..k + 1]) && CampaignPoints(after, rows[..k + 1], from, days)
  {
    newTotals, after := totals, points;
    var day, count := DayOf(rows[k].bucketStart), rows[k].count;
    if rows[k].metric == CampaignView {
      newTotals := totals.(views := totals.views + count);
      if day in points {
        after := points[day := points[day].(views := points[day].views + count)];
      }
    } else if rows[k].metric == CampaignUnique {
      newTotals := totals.(uniqueVisitors := totals.uniqueVisitors + count);
      if day in points {
        after := points[day := points[day].(uniqueVisitors := points[day].uniqueVisitors + count)];
      }
    } else {
      newTotals := totals.(formSubmits := totals.formSubmits + count);
    }
    TotalStep(rows, k, CampaignView);
    TotalStep(rows, k, CampaignUnique);
    TotalStep(rows, k, CampaignFormSubmit);
    ghost var seen := rows[..k + 1];
    forall i: nat | i < days ensures after[DayOf(from) + i] == CampaignPointOf(seen, from, i) {
      CampaignPointStep(rows, k, from, i);
    }
  }

  function SumCampaignViews(series: seq<CampaignPoint>): nat {
    if series == [] then 0 else SumCampaignViews(series[..|series| - 1]) + series[|series| - 1].views
  }

  function SumVisitors(series: seq<CampaignPoint>): nat {
    if series == [] then 0 else SumVisitors(series[..|series| - 1]) + series[|series| - 1].uniqueVisitors
  }

  lemma {:induction false} CampaignSums(series: seq<CampaignPoint>, rows: seq<Row>, from: int)
    requires forall i | 0 <= i < |series| :: series[i] == CampaignPointOf(rows, from, i)
    ensures SumCampaignViews(series) == DaysTotal(rows, CampaignView, DayOf(from), |series|)
    ensures SumVisitors(series) == DaysTotal(rows, CampaignUnique, DayOf(from), |series|)
  {
    if series != [] {
      CampaignSums(series[..|series| - 1], rows, from);
    }
  }

  /** Rows of the three campaign metrics, the only ones the query selects. */
  predicate OfCampaign(rows: seq<Row>) {
    forall i | 0 <= i < |rows| :: rows[i].metric.CampaignView? || rows[i].metric.CampaignUnique? || rows[i].metric.CampaignFormSubmit?
  }

  lemma {:induction false} QueriedOfCampaign(all: seq<Row>, from: int, to: int)
    requires OfCampaign(all)
    ensures OfCampaign(Queried(all, from, to))
  {
    if all != [] {
      QueriedOfCampaign(all[..|all| - 1], from, to);
    }
  }

  /** One point a day, and the series' views and visitors are the totals'. */
  method CampaignReport(all: seq<Row>, to: int, days: nat) returns (totals: CampaignTotals, series: seq<CampaignPoint>)
    requires days > 0 && OfCampaign(all)
    ensures |series| == days
    ensures var rows := Queried(all, RangeStart(to, days), to);
            && totals.views == Total(rows, CampaignView) && totals.uniqueVisitors == Total(rows, CampaignUnique)
            && totals.formSubmits == Total(rows, CampaignFormSubmit)
            && forall i | 0 <= i < days :: DayOf(series[i].date) == DayOf(to) - (days - 1) + i && CountsCampaignDay(series[i], rows, DayOf(series[i].date))
    ensures SumCampaignViews(series) == totals.views && SumVisitors(series) == totals.uniqueVisitors
  {
    var from := RangeStart(to, days);
    DayOfStart(to - (days - 1) * MS_PER_DAY, 0);
    var rows := Queried(all, from, to);
    QueriedOfCampaign(all, from, to);
    totals := CampaignTotals(0, 0, 0);
    var points := EmptyCampaignDays(from, days);
    assert rows[..0] == [];
    for k := 0 to |rows|
      invariant totals == TotalsOf(rows[..k]) && CampaignPoints(points, rows[..k], from, days)
    {
      totals, points := AddCampaignRow(totals, points, rows, k, from, days);
    }
    assert rows[..|rows|] == rows;
    series := [];
    for i := 0 to days
      invariant |series| == i && forall j | 0 <= j < i :: series[j] == CampaignPointOf(rows, from, j)
    {
      series := series + [points[DayOf(from) + i]];
    }
    CampaignSums(series, rows, from);
    forall i | 0 <= i < days ensures DayOf(series[i].date) == DayOf(to) - (days - 1) + i {
      DayBack(to, days - 1);
      DayOfStart(to - (days - 1) * MS_PER_DAY, i);
    }
    QueriedDays(all, to, days, CampaignView);
    QueriedDays(all, to, days, CampaignUnique);
  }
}
