/** The data side of AirQualityChart: the datasets, labels and x axis the
    component hands to Chart.js for one metric, in the single-series layout
    (absolute time) or the two-range comparison layout (elapsed time). */
module Chart {
  import opened Outcomes
  import opened Samples
  import Text

  /** `new Date(t)` read as milliseconds since the epoch; date parsing is
      time-zone dependent and is not modelled. */
  type ToMillis = Timestamp -> int

  /** A plotted point.  `AtInstant` is the single-series form `{x: Date, y}`,
      `AtElapsed` the comparison form `{x, y, originalTimestamp}`. */
  datatype Point =
    | AtInstant(x: int, y: Option<real>)
    | AtElapsed(x: int, y: Option<real>, originalTimestamp: Timestamp)

  /** A Chart.js dataset; an empty `borderDash` is a solid line.  Constant
      point styling (radii, tension) is not modelled. */
  datatype Dataset = Dataset(
    labelText: string,
    points: seq<Point>,
    borderColor: string,
    backgroundColor: string,
    borderWidth: real,
    borderDash: seq<nat>,
    fill: bool)

  /** Chart.js's `time` and `linear` scale types. */
  datatype AxisKind = TimeScale | LinearScale

  /** The x axis: its type and title.  A linear axis labels its ticks with ElapsedTick. */
  datatype XAxis = XAxis(kind: AxisKind, title: string)

  datatype ChartData = ChartData(
    labels: seq<Timestamp>,
    datasets: seq<Dataset>,
    xAxis: XAxis,
    title: string,
    yAxisTitle: string)

  /** The component's output: the "no data" placeholder or a line chart. */
  datatype Rendering = NoData(message: string) | Plot(chart: ChartData)

  /** `compareData && compareData.length > 0`; `None` is `null`.  An array is
      truthy even when empty, so it is its length that rules the empty one out. */
  function HasComparison(compareData: Option<seq<Sample>>): (b: bool)
    ensures compareData == None ==> !b
    ensures compareData == Some([]) ==> !b
    ensures compareData.Some? && |compareData.value| > 0 ==> b
  {
    compareData.Some? && |compareData.value| > 0
  }

  /** `normalizeTimestamp`: milliseconds from `start` to `t`, negative when
      `t` is earlier; nothing is clamped. */
  function NormalizeTimestamp(millis: ToMillis, t: Timestamp, start: Timestamp): (e: int)
    ensures millis(start) + e == millis(t)
  {
    millis(t) - millis(start)
  }

  /** `data.map(item => item.timestamp)`. */
  function Timestamps(series: seq<Sample>): (ts: seq<Timestamp>)
    ensures |ts| == |series|
    ensures forall i :: 0 <= i < |series| ==> ts[i] == series[i].timestamp
  {
    if series == [] then [] else [series[0].timestamp] + Timestamps(series[1..])
  }

  /** The single-series points: each sample at its own instant, its metric as
      `y` (a `null` metric stays `null`). */
  function InstantPoints(series: seq<Sample>, metric: Metric, millis: ToMillis): (ps: seq<Point>)
    ensures |ps| == |series|
    ensures forall i :: 0 <= i < |series| ==>
              ps[i] == AtInstant(millis(series[i].timestamp), series[i].Get(metric))
  {
    if series == [] then []
    else [AtInstant(millis(series[0].timestamp), series[0].Get(metric))]
         + InstantPoints(series[1..], metric, millis)
  }

  /** The comparison points of one range: time since `start`, the metric, and
      the absolute timestamp kept for the tooltip. */
  function ElapsedPoints(series: seq<Sample>, metric: Metric, millis: ToMillis, start: Timestamp): (ps: seq<Point>)
    ensures |ps| == |series|
    ensures forall i :: 0 <= i < |series| ==>
              ps[i] == AtElapsed(NormalizeTimestamp(millis, series[i].timestamp, start),
                                 series[i].Get(metric), series[i].timestamp)
  {
    if series == [] then []
    else [AtElapsed(NormalizeTimestamp(millis, series[0].timestamp, start),
                    series[0].Get(metric), series[0].timestamp)]
         + ElapsedPoints(series[1..], metric, millis, start)
  }

  /** `series.length > 0 ? series[0].timestamp : null`. */
  function FirstTimestamp(series: seq<Sample>): (t: Timestamp)
    ensures |series| > 0 ==> t == series[0].timestamp
    ensures |series| == 0 ==> t == None
  {
    if |series| > 0 then series[0].timestamp else None
  }

  /** The rebased points are the absolute points moved so that the range's
      own first sample sits at 0, with the same `y` values. */
  lemma ElapsedIsRebasedInstant(series: seq<Sample>, metric: Metric, millis: ToMillis)
    requires |series| > 0
    ensures var e := ElapsedPoints(series, metric, millis, FirstTimestamp(series));
            var a := InstantPoints(series, metric, millis);
            e[0].x == 0 &&
            forall i :: 0 <= i < |series| ==> e[i].x == a[i].x - a[0].x && e[i].y == a[i].y
  {
  }

  /** Elapsed positions do not depend on where the clock's zero is: moving
      every instant by the same offset leaves every point unchanged. */
  lemma {:induction false} ElapsedShiftInvariant(series: seq<Sample>, metric: Metric, m1: ToMillis, m2: ToMillis, offset: int, start: Timestamp)
    requires forall t :: m2(t) == m1(t) + offset
    ensures ElapsedPoints(series, metric, m1, start) == ElapsedPoints(series, metric, m2, start)
  {
    if series != [] {
      ElapsedShiftInvariant(series[1..], metric, m1, m2, offset, start);
    }
  }

  // ---- Colors ----

  /** The contrast table of `getContrastingColor`. */
  const ContrastTable: map<string, string> := map[
    "#ef4444" := "#3b82f6",
    "#3b82f6" := "#ef4444",
    "#10b981" := "#f59e0b",
    "#8b5cf6" := "#10b981",
    "#f59e0b" := "#8b5cf6",
    "#ec4899" := "#10b981"]

  /** The color for any input the table does not list. */
  const FallbackColor: string := "#9333ea"

  /** `getContrastingColor`: a total lookup.  The result differs from the
      input except for the fallback color itself, and the table maps its
      keys among themselves. */
  function ContrastingColor(color: string): (r: string)
    ensures r == color <==> color == FallbackColor
    ensures color in ContrastTable ==> r in ContrastTable
    ensures color !in ContrastTable ==> r == FallbackColor
  {
    if color in ContrastTable then ContrastTable[color] else FallbackColor
  }

  /** Red and blue are each other's contrast. */
  lemma RedAndBlueSwap()
    ensures ContrastingColor("#ef4444") == "#3b82f6"
    ensures ContrastingColor("#3b82f6") == "#ef4444"
  {
  }

  // ---- Datasets ----

  /** The dataset of the single-series layout. */
  function SingleDataset(data: seq<Sample>, metric: Metric, color: string, labelText: string, millis: ToMillis): (d: Dataset)
    ensures d.labelText == labelText && d.borderColor == color && d.backgroundColor == color + "20"
    ensures d.fill && d.borderDash == [] && d.borderWidth == 2.0
    ensures |d.points| == |data|
    ensures forall i :: 0 <= i < |data| ==>
              d.points[i].AtInstant? && d.points[i].x == millis(data[i].timestamp) && d.points[i].y == data[i].Get(metric)
  {
    Dataset(labelText, InstantPoints(data, metric, millis), color, color + "20", 2.0, [], true)
  }

  /** The two datasets of the comparison layout, each range rebased on its own
      first sample. */
  function ComparisonDatasets(data: seq<Sample>, compareData: seq<Sample>, metric: Metric,
                              color: string, labelText: string, millis: ToMillis): (ds: seq<Dataset>)
    ensures |ds| == 2
    ensures ds[0].labelText == labelText + " (Range 1)" && ds[1].labelText == labelText + " (Range 2)"
    ensures ds[0].borderColor == color && ds[1].borderColor == ContrastingColor(color)
    ensures ds[0].backgroundColor == color + "20" && ds[1].backgroundColor == ContrastingColor(color) + "20"
    ensures ds[0].borderDash == [] && ds[1].borderDash == [5, 5]
    ensures !ds[0].fill && !ds[1].fill && ds[0].borderWidth == ds[1].borderWidth == 2.5
    ensures |ds[0].points| == |data| && |ds[1].points| == |compareData|
    ensures forall i :: 0 <= i < |data| ==>
              ds[0].points[i] == AtElapsed(millis(data[i].timestamp) - millis(data[0].timestamp),
                                           data[i].Get(metric), data[i].timestamp)
    ensures forall i :: 0 <= i < |compareData| ==>
              ds[1].points[i] == AtElapsed(millis(compareData[i].timestamp) - millis(compareData[0].timestamp),
                                           compareData[i].Get(metric), compareData[i].timestamp)
  {
    var range1Start := FirstTimestamp(data);
    var range2Start := FirstTimestamp(compareData);
    var compareColor := ContrastingColor(color);
    [Dataset(labelText + " (Range 1)", ElapsedPoints(data, metric, millis, range1Start),
             color, color + "20", 2.5, [], false),
     Dataset(labelText + " (Range 2)", ElapsedPoints(compareData, metric, millis, range2Start),
             compareColor, compareColor + "20", 2.5, [5, 5], false)]
  }

  /** The x axis options: a linear elapsed-time axis in the comparison
      layout, Chart.js's time axis otherwise. */
  function AxisFor(compareData: Option<seq<Sample>>): (a: XAxis)
    ensures a.kind == LinearScale <==> HasComparison(compareData)
    ensures a.title == if a.kind == LinearScale then "Elapsed Time" else "Time"
  {
    if HasComparison(compareData) then XAxis(LinearScale, "Elapsed Time") else XAxis(TimeScale, "Time")
  }

  /** The component: the placeholder for an empty primary series, otherwise the
      chart, whose layout is decided by the data alone (a comparison range that
      came back empty gives the plain absolute-time chart). */
  function Render(data: seq<Sample>, compareData: Option<seq<Sample>>, metric: Metric,
                  color: string, unit: string, labelText: string, millis: ToMillis): (r: Rendering)
    ensures r.NoData? <==> |data| == 0
    ensures r.NoData? ==> r.message == "No data available for " + labelText
    ensures r.Plot? ==>
              |r.chart.labels| == |data| && forall i :: 0 <= i < |data| ==> r.chart.labels[i] == data[i].timestamp
    ensures r.Plot? ==> r.chart.title == labelText && r.chart.yAxisTitle == unit
    ensures r.Plot? ==> (r.chart.xAxis.kind == LinearScale <==> HasComparison(compareData))
    ensures r.Plot? ==> r.chart.xAxis.title == if HasComparison(compareData) then "Elapsed Time" else "Time"
    ensures r.Plot? && !HasComparison(compareData) ==> r.chart.datasets == [SingleDataset(data, metric, color, labelText, millis)]
    ensures r.Plot? && HasComparison(compareData) ==>
              r.chart.datasets == ComparisonDatasets(data, compareData.value, metric, color, labelText, millis)
  {
    if |data| == 0 then NoData("No data available for " + labelText)
    else
      var hasComparison := HasComparison(compareData);
      var datasets :=
        if hasComparison then ComparisonDatasets(data, compareData.value, metric, color, labelText, millis)
        else [SingleDataset(data, metric, color, labelText, millis)];
      Plot(ChartData(Timestamps(data), datasets, AxisFor(compareData), labelText, unit))
  }

  /** In the comparison layout the first range's dataset is the same whatever
      the second range holds. */
  lemma FirstRangeIgnoresSecond(data: seq<Sample>, c1: seq<Sample>, c2: seq<Sample>, metric: Metric,
                                color: string, unit: string, labelText: string, millis: ToMillis)
    requires |data| > 0 && |c1| > 0 && |c2| > 0
    ensures Render(data, Some(c1), metric, color, unit, labelText, millis).chart.datasets[0]
         == Render(data, Some(c2), metric, color, unit, labelText, millis).chart.datasets[0]
  {
  }

  // ---- Tick labels of the elapsed axis ----

  /** The quotient JavaScript's `%` pairs with: `Math.trunc(a / b)`, which
      rounds toward zero. */
  function JsQuotient(a: int, b: int): int
    requires b > 0
  {
    if a >= 0 then a / b else -((-a) / b)
  }

  /** JavaScript's `a % b` for a positive `b`: the remainder takes the sign of
      `a`, and what is left once it is taken off is a whole multiple of `b`. */
  function JsRemainder(a: int, b: int): (r: int)
    requires b > 0
    ensures a >= 0 ==> 0 <= r < b
    ensures a < 0 ==> -b < r <= 0
    ensures a == b * JsQuotient(a, b) + r
  {
    if a >= 0 then a % b else -((-a) % b)
  }

  /** The tick text for an hour count and a minute count: at least five
      characters, with the colon third from the end whenever the minutes
      print in at most two characters. */
  function HoursMinutes(hours: int, minutes: int): (r: string)
    ensures |r| >= 5
    ensures -10 < minutes < 100 ==> r[|r| - 3] == ':'
  {
    var h, mm := Text.PadStart2(Text.IntToString(hours)), Text.PadStart2(Text.IntToString(minutes));
    assert -10 < minutes < 100 ==> |mm| == 2;
    ColonAfter(h, mm);
    h + ":" + mm
  }

  /** The colon of `h + ":" + mm` sits right after `h`. */
  lemma ColonAfter(h: string, mm: string)
    ensures |h + ":" + mm| == |h| + 1 + |mm| && (h + ":" + mm)[|h|] == ':'
  {
  }

  /** The linear axis tick `callback`: milliseconds to `HH:MM`.
      `Math.floor` by a positive divisor is Dafny's `/`. */
  function ElapsedTick(value: int): (r: string)
    ensures |r| >= 5
    ensures value >= 0 ==> r[|r| - 3] == ':'
  {
    var totalMinutes := value / (1000 * 60);
    var minutes := JsRemainder(totalMinutes, 60);
    assert value >= 0 ==> 0 <= minutes < 60;
    HoursMinutes(totalMinutes / 60, minutes)
  }

  /** Where the colon and the two minute digits sit in `h + ":" + mm`. */
  lemma ColonSplit(h: string, mm: string)
    requires |mm| == 2
    ensures var r := h + ":" + mm;
            |r| == |h| + 3 && r[|r| - 3] == ':' && r[..|r| - 3] == h && r[|r| - 2..] == mm
  {
    var r := h + ":" + mm;
    assert r[..|h|] == h;
    assert r[|h| + 1..] == mm;
  }

  /** `r` is some digits, a colon and two digits, reading as `hours` and
      `minutes`; the hours take exactly two digits below 100 and otherwise
      have no leading zero. */
  predicate ReadsAs(r: string, hours: nat, minutes: nat) {
    && |r| >= 5 && r[|r| - 3] == ':'
    && Text.AllDigits(r[..|r| - 3]) && Text.AllDigits(r[|r| - 2..])
    && Text.DecimalValue(r[..|r| - 3]) == hours
    && Text.DecimalValue(r[|r| - 2..]) == minutes
    && (hours < 100 ==> |r| == 5)
    && (|r| > 5 ==> r[0] != '0')
  }

  /** `HH:MM` for whole hours and a minute count below 60 reads back as both. */
  lemma HoursMinutesReadsBack(hours: nat, minutes: nat)
    requires minutes < 60
    ensures ReadsAs(HoursMinutes(hours, minutes), hours, minutes)
  {
    var hs, ms := Text.NatToString(hours), Text.NatToString(minutes);
    var h, mm := Text.PadStart2(hs), Text.PadStart2(ms);
    assert HoursMinutes(hours, minutes) == h + ":" + mm;
    assert |mm| == 2;
    ColonSplit(h, mm);
    Text.PadStart2Value(hs);
    Text.PadStart2Value(ms);
    Text.NatToStringRoundTrip(hours);
    Text.NatToStringRoundTrip(minutes);
  }

  /** For a non-negative value the tick reads back as whole hours, a colon and
      exactly two digits of minutes from 00 to 59. */
  lemma ElapsedTickReadsBack(value: int)
    requires value >= 0
    ensures var m: nat := value / 60000; ReadsAs(ElapsedTick(value), m / 60, m % 60)
  {
    var m := value / 60000;
    assert m >= 0 && JsRemainder(m, 60) == m % 60;
    assert ElapsedTick(value) == HoursMinutes(m / 60, m % 60);
    HoursMinutesReadsBack(m / 60, m % 60);
  }

  /** Any value in the minute before zero is labelled "-1:-1": the floor and
      the truncating remainder disagree for negative inputs. */
  lemma NegativeMinuteTick(value: int)
    requires -60000 <= value < 0
    ensures ElapsedTick(value) == "-1:-1"
  {
    MinuteBeforeZero(value);
    MinusOneMinusOne();
  }

  /** In the minute before zero both the hours and the minutes are -1. */
  lemma MinuteBeforeZero(value: int)
    requires -60000 <= value < 0
    ensures ElapsedTick(value) == HoursMinutes(-1, -1)
  {
    assert value / 60000 == -1;
    assert JsRemainder(-1, 60) == -1;
  }

  /** `String(-1)` is already two characters long, so padding keeps it. */
  lemma MinusOneMinusOne()
    ensures HoursMinutes(-1, -1) == "-1:-1"
  {
    var one := Text.NatToString(1);
    assert one == "1";
    assert Text.IntToString(-1) == "-" + one;
    assert Text.PadStart2("-1") == "-1";
  }
}
