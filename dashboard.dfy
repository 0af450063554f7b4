/** The page-level state of the dashboard: the three modes, the live rolling
    window, the validated historical and comparison loads, the mode effects
    that start and stop the polling timer, the flags that decide when the
    default date ranges are applied, and the six charts drawn from it all. */
module Dashboard {
  import opened Outcomes
  import opened Samples
  import Chart

  datatype Mode = Live | Historical | Compare

  // ---- The metric table of the page ----

  function MetricColor(m: Metric): string {
    match m
    case Temperature => "#ef4444"
    case Humidity => "#3b82f6"
    case Pm25 => "#10b981"
    case Pm10 => "#8b5cf6"
    case Co2 => "#f59e0b"
    case No2 => "#ec4899"
  }

  function MetricLabel(m: Metric): string {
    match m
    case Temperature => "Temperature"
    case Humidity => "Humidity"
    case Pm25 => "PM2.5"
    case Pm10 => "PM10"
    case Co2 => "CO2"
    case No2 => "NO2"
  }

  function MetricUnit(m: Metric): string {
    match m
    case Temperature => "°C"
    case Humidity => "%"
    case Pm25 => " µg/m³"
    case Pm10 => " µg/m³"
    case Co2 => " ppm"
    case No2 => " ppm"
  }

  /** The six colors of `metricColors`. */
  function MetricColors(): set<string> {
    {MetricColor(Temperature), MetricColor(Humidity), MetricColor(Pm25),
     MetricColor(Pm10), MetricColor(Co2), MetricColor(No2)}
  }

  /** The contrast of one metric color is another metric color. */
  lemma ContrastOfMetricColor(m: Metric)
    ensures Chart.ContrastingColor(MetricColor(m)) != MetricColor(m)
    ensures Chart.ContrastingColor(MetricColor(m)) in MetricColors()
  {
    match m
    case Temperature => assert Chart.ContrastingColor(MetricColor(m)) == MetricColor(Humidity);
    case Humidity => assert Chart.ContrastingColor(MetricColor(m)) == MetricColor(Temperature);
    case Pm25 => assert Chart.ContrastingColor(MetricColor(m)) == MetricColor(Co2);
    case Pm10 => assert Chart.ContrastingColor(MetricColor(m)) == MetricColor(Pm25);
    case Co2 => assert Chart.ContrastingColor(MetricColor(m)) == MetricColor(Pm10);
    case No2 => assert Chart.ContrastingColor(MetricColor(m)) == MetricColor(Pm25);
  }

  /** The contrast table is keyed by exactly the six metric colors, and the
      contrast of a metric color is another metric color. */
  lemma ContrastTableIsMetricColors()
    ensures Chart.ContrastTable.Keys == MetricColors()
    ensures forall m: Metric :: Chart.ContrastingColor(MetricColor(m)) != MetricColor(m)
    ensures forall m: Metric :: Chart.ContrastingColor(MetricColor(m)) in MetricColors()
  {
    forall m: Metric
      ensures Chart.ContrastingColor(MetricColor(m)) != MetricColor(m)
      ensures Chart.ContrastingColor(MetricColor(m)) in MetricColors()
    {
      ContrastOfMetricColor(m);
    }
  }

  // ---- The live rolling window ----

  const LiveWindow: nat := 100

  /** `xs.slice(-100)`: the last hundred elements, or all of them. */
  function Window<T>(xs: seq<T>): (w: seq<T>)
    ensures |w| == if |xs| < LiveWindow then |xs| else LiveWindow
    ensures w == xs[|xs| - |w|..]
  {
    if |xs| <= LiveWindow then xs else xs[|xs| - LiveWindow..]
  }

  /** Trimming early changes nothing: the window of a trimmed prefix followed
      by more elements is the window of the untrimmed sequence. */
  lemma WindowOfWindow<T>(a: seq<T>, b: seq<T>)
    ensures Window(Window(a) + b) == Window(a + b)
  {
    var wa := Window(a);
    if |a| > LiveWindow {
      var k := |a| - LiveWindow;
      assert a + b == a[..k] + (wa + b);
      assert (a + b)[|a + b| - |Window(a + b)|..] == (wa + b)[|wa + b| - |Window(a + b)|..];
    }
  }

  /** Successive live appends, starting from window `w`: what `data` holds
      after each sample of `xs` has arrived in live mode. */
  ghost function AppendAll<T>(w: seq<T>, xs: seq<T>): seq<T>
    decreases |xs|
  {
    if xs == [] then w else AppendAll(Window(w + [xs[0]]), xs[1..])
  }

  /** Moving the first element of `xs` onto the end of `w` keeps the concatenation. */
  lemma AppendFirst<T>(w: seq<T>, xs: seq<T>)
    requires xs != []
    ensures (w + [xs[0]]) + xs[1..] == w + xs
  {
    assert xs == [xs[0]] + xs[1..];
  }

  /** Any run of live appends leaves the last hundred arrivals, in arrival order. */
  lemma {:induction false} LiveAppendsKeepLatest<T>(w: seq<T>, xs: seq<T>)
    requires |w| <= LiveWindow
    ensures AppendAll(w, xs) == Window(w + xs)
    decreases |xs|
  {
    if xs == [] {
      assert w + xs == w;
    } else {
      var v, rest := w + [xs[0]], xs[1..];
      calc {
        AppendAll(w, xs);
        AppendAll(Window(v), rest);
        { LiveAppendsKeepLatest(Window(v), rest); }
        Window(Window(v) + rest);
        { WindowOfWindow(v, rest); }
        Window(v + rest);
        { AppendFirst(w, xs); }
        Window(w + xs);
      }
    }
  }

  /** From an empty window, more than a hundred arrivals leave exactly the
      last hundred of them. */
  lemma {:induction false} LiveWindowAfterMany<T>(xs: seq<T>)
    requires |xs| >= LiveWindow
    ensures AppendAll([], xs) == xs[|xs| - LiveWindow..]
  {
    var empty: seq<T> := [];
    calc {
      AppendAll(empty, xs);
      { LiveAppendsKeepLatest(empty, xs); }
      Window(empty + xs);
      { assert empty + xs == xs; }
      Window(xs);
    }
  }

  // ---- Date validation ----

  /** `new Date(text)`; an unparseable text is an Invalid Date (NaN). */
  datatype DateValue = InvalidDate | At(ms: int)

  type DateParser = string -> DateValue

  /** `start > end` on two Dates: false whenever either is invalid. */
  function After(a: DateValue, b: DateValue): (r: bool)
    ensures a == InvalidDate || b == InvalidDate ==> !r
    ensures a.At? && b.At? ==> (r <==> a.ms > b.ms)
  {
    a.At? && b.At? && a.ms > b.ms
  }

  /** The two instants a historical fetch is issued for. */
  datatype Range = Range(start: DateValue, end: DateValue)

  /** The validation outcome of a load: a date missing, a range the wrong
      way round, or the fetch to issue. */
  datatype Check<T> = Incomplete | Misordered | Ready(request: T)

  const MissingDatesMessage: string := "Please select both start and end dates"
  const MisorderedMessage: string := "Start date must be before end date"
  const MissingRangesMessage: string := "Please select all date ranges for comparison"
  const MisorderedRangesMessage: string := "Start date must be before end date for both ranges"

  /** The checks of `loadHistoricalData` before it fetches. */
  function CheckRange(startDate: string, endDate: string, parse: DateParser): (c: Check<Range>)
    ensures c.Incomplete? <==> startDate == "" || endDate == ""
    ensures c.Misordered? <==> startDate != "" && endDate != "" && After(parse(startDate), parse(endDate))
    ensures c.Ready? ==> c.request == Range(parse(startDate), parse(endDate))
    ensures startDate == endDate && startDate != "" ==> c.Ready?
  {
    if startDate == "" || endDate == "" then Incomplete
    else
      var start, end := parse(startDate), parse(endDate);
      if After(start, end) then Misordered else Ready(Range(start, end))
  }

  /** An unparseable date is never "after" anything, so a range holding one
      is not rejected: once both fields are filled in, the fetch is issued. */
  lemma InvalidDatePassesCheck(startDate: string, endDate: string, parse: DateParser)
    requires startDate != "" && endDate != ""
    requires parse(startDate) == InvalidDate || parse(endDate) == InvalidDate
    ensures CheckRange(startDate, endDate, parse).Ready?
  {
  }

  /** The checks of `loadComparisonData` before it fetches: all four dates
      first, then the order of both ranges. */
  function CheckComparison(startDate: string, endDate: string, compareStartDate: string,
                           compareEndDate: string, parse: DateParser): (c: Check<(Range, Range)>)
    ensures c.Incomplete? <==> startDate == "" || endDate == "" || compareStartDate == "" || compareEndDate == ""
    ensures c.Ready? <==> CheckRange(startDate, endDate, parse).Ready? && CheckRange(compareStartDate, compareEndDate, parse).Ready?
    ensures c.Ready? ==> c.request == (CheckRange(startDate, endDate, parse).request,
                                       CheckRange(compareStartDate, compareEndDate, parse).request)
  {
    if startDate == "" || endDate == "" || compareStartDate == "" || compareEndDate == "" then Incomplete
    else
      var start, end := parse(startDate), parse(endDate);
      var compareStart, compareEnd := parse(compareStartDate), parse(compareEndDate);
      if After(start, end) || After(compareStart, compareEnd) then Misordered
      else Ready((Range(start, end), Range(compareStart, compareEnd)))
  }

  /** The default ranges the clock would give (the last 24 hours, and the
      24 hours before the same time yesterday); computing them is left to
      the caller. */
  datatype DefaultRanges = DefaultRanges(start: string, end: string, compareStart: string, compareEnd: string)

  datatype DateField = StartDate | EndDate | CompareStartDate | CompareEndDate

  // ---- The page ----

  class App {
    var mode: Mode
    var data: seq<Sample>
    var compareData: seq<Sample>
    var latestData: Option<Sample>
    var error: Option<string>
    var loading: bool
    /** Whether the polling interval, of period `Config.UpdateIntervalMs`, is
        installed (`intervalRef.current`); each of its ticks is a call of
        LoadLatest. */
    var timerActive: bool
    /** `hasSetDefaultsRef.current.historical` and `.compare`. */
    var historicalDefaultsSet: bool
    var compareDefaultsSet: bool
    var startDate: string
    var endDate: string
    var compareStartDate: string
    var compareEndDate: string

    /** The timer runs exactly in live mode, and each defaults flag is set
        exactly in its own mode. */
    ghost predicate Valid()
      reads this
    {
      && (timerActive <==> mode == Live)
      && (historicalDefaultsSet <==> mode == Historical)
      && (compareDefaultsSet <==> mode == Compare)
    }

    /** The page after its first render and the effects that follow it. */
    constructor ()
      ensures Valid()
      ensures mode == Live && data == [] && compareData == [] && latestData == None
      ensures error == None && !loading
      ensures startDate == "" && endDate == "" && compareStartDate == "" && compareEndDate == ""
    {
      mode := Live;
      data, compareData, latestData := [], [], None;
      error, loading := None, false;
      startDate, endDate, compareStartDate, compareEndDate := "", "", "", "";
      timerActive := true;
      historicalDefaultsSet, compareDefaultsSet := false, false;
    }

    /** `loadLatestData`, given what `fetchLatestData` resolved to.  A sample
        always becomes `latestData`; only in live mode is it also appended to
        the rolling window. */
    method LoadLatest(fetched: Result<Sample>)
      requires Valid()
      modifies this`data, this`latestData, this`error
      ensures Valid()
      ensures fetched.Err? ==> error == Some(fetched.message) && latestData == old(latestData) && data == old(data)
      ensures fetched.Ok? ==> error == None && latestData == Some(fetched.value)
      ensures fetched.Ok? && mode != Live ==> data == old(data)
      ensures fetched.Ok? && mode == Live ==>
                && data == Window(old(data) + [fetched.value])
                && |data| == (if |old(data)| < LiveWindow then |old(data)| + 1 else LiveWindow)
                && data[|data| - 1] == fetched.value
    {
      error := None;
      match fetched
      case Ok(latest) =>
        latestData := Some(latest);
        if mode == Live {
          data := Window(data + [latest]);
        }
      case Err(message) =>
        error := Some(message);
    }

    /** `loadHistoricalData` up to its `await`: validation, and the range to
        fetch, or `None` when no fetch is issued. */
    method BeginHistorical(parse: DateParser) returns (request: Option<Range>)
      requires Valid()
      modifies this`error, this`loading
      ensures Valid()
      ensures var check := CheckRange(startDate, endDate, parse);
              && (check.Incomplete? ==> request == None && error == Some(MissingDatesMessage) && loading == old(loading))
              && (check.Misordered? ==> request == None && error == Some(MisorderedMessage) && !loading)
              && (check.Ready? ==> request == Some(check.request) && error == None && loading)
    {
      if startDate == "" || endDate == "" {
        error := Some(MissingDatesMessage);
        return None;
      }
      loading := true;
      error := None;
      var start, end := parse(startDate), parse(endDate);
      if After(start, end) {
        error := Some(MisorderedMessage);
        loading := false;
        return None;
      }
      request := Some(Range(start, end));
    }

    /** `loadHistoricalData` after its `await`, given what the fetch resolved
        to: the series is replaced wholesale, or left alone on failure. */
    method FinishHistorical(fetched: Result<seq<Sample>>)
      requires Valid()
      modifies this`data, this`latestData, this`error, this`loading
      ensures Valid() && !loading
      ensures fetched.Ok? ==>
                && data == fetched.value && error == old(error)
                && latestData == if |fetched.value| > 0 then Some(fetched.value[|fetched.value| - 1]) else old(latestData)
      ensures fetched.Err? ==> data == old(data) && latestData == old(latestData) && error == Some(fetched.message)
    {
      match fetched {
        case Ok(historicalData) =>
          data := historicalData;
          if |historicalData| > 0 {
            latestData := Some(historicalData[|historicalData| - 1]);
          }
        case Err(message) =>
          error := Some(message);
      }
      loading := false;
    }

    /** `loadComparisonData` up to its `await`: all four dates and both
        orders are checked before either fetch is issued. */
    method BeginComparison(parse: DateParser) returns (request: Option<(Range, Range)>)
      requires Valid()
      modifies this`error, this`loading
      ensures Valid()
      ensures var check := CheckComparison(startDate, endDate, compareStartDate, compareEndDate, parse);
              && (check.Incomplete? ==> request == None && error == Some(MissingRangesMessage) && loading == old(loading))
              && (check.Misordered? ==> request == None && error == Some(MisorderedRangesMessage) && !loading)
              && (check.Ready? ==> request == Some(check.request) && error == None && loading)
    {
      if startDate == "" || endDate == "" || compareStartDate == "" || compareEndDate == "" {
        error := Some(MissingRangesMessage);
        return None;
      }
      loading := true;
      error := None;
      var start, end := parse(startDate), parse(endDate);
      var compareStart, compareEnd := parse(compareStartDate), parse(compareEndDate);
      if After(start, end) || After(compareStart, compareEnd) {
        error := Some(MisorderedRangesMessage);
        loading := false;
        return None;
      }
      request := Some((Range(start, end), Range(compareStart, compareEnd)));
    }

    /** `loadComparisonData` after its `await`, given what `Promise.all`
        resolved to: both series are replaced together, or neither is. */
    method FinishComparison(fetched: Result<(seq<Sample>, seq<Sample>)>)
      requires Valid()
      modifies this`data, this`compareData, this`latestData, this`error, this`loading
      ensures Valid() && !loading
      ensures fetched.Ok? ==>
                && data == fetched.value.0 && compareData == fetched.value.1 && error == old(error)
                && latestData == if |fetched.value.0| > 0 then Some(fetched.value.0[|fetched.value.0| - 1]) else old(latestData)
      ensures fetched.Err? ==>
                && data == old(data) && compareData == old(compareData)
                && latestData == old(latestData) && error == Some(fetched.message)
    {
      match fetched {
        case Ok((historicalData, compData)) =>
          data := historicalData;
          compareData := compData;
          if |historicalData| > 0 {
            latestData := Some(historicalData[|historicalData| - 1]);
          }
        case Err(message) =>
          error := Some(message);
      }
      loading := false;
    }

    /** The effect on `[mode]` that sets up polling.  Entering live mode
        clears both series, installs the timer and starts the first load,
        whose synchronous first step clears the error (its result arrives
        later through LoadLatest).  Any other mode removes the timer, and
        historical mode also drops the comparison series. */
    method ModeEffect()
      modifies this`data, this`compareData, this`error, this`timerActive
      ensures timerActive <==> mode == Live
      ensures mode == Live ==> data == [] && compareData == [] && error == None
      ensures mode != Live ==> data == old(data) && error == old(error)
      ensures mode == Historical ==> compareData == []
      ensures mode == Compare ==> compareData == old(compareData)
    {
      if mode == Live {
        data := [];
        compareData := [];
        error := None;
        timerActive := true;
      } else {
        timerActive := false;
        if mode != Compare {
          compareData := [];
        }
      }
    }

    /** The effect on `[mode]` that applies the default date ranges when the
        mode's flag is not yet set, and resets both flags in live mode. */
    method DefaultsEffect(defaults: DefaultRanges)
      modifies this`historicalDefaultsSet, this`compareDefaultsSet,
               this`startDate, this`endDate, this`compareStartDate, this`compareEndDate
      ensures mode == Live ==>
                && !historicalDefaultsSet && !compareDefaultsSet
                && startDate == old(startDate) && endDate == old(endDate)
                && compareStartDate == old(compareStartDate) && compareEndDate == old(compareEndDate)
      ensures mode == Historical && !old(historicalDefaultsSet) ==>
                && historicalDefaultsSet && !compareDefaultsSet
                && startDate == defaults.start && endDate == defaults.end
                && compareStartDate == old(compareStartDate) && compareEndDate == old(compareEndDate)
      ensures mode == Compare && !old(compareDefaultsSet) ==>
                && compareDefaultsSet && !historicalDefaultsSet
                && startDate == defaults.start && endDate == defaults.end
                && compareStartDate == defaults.compareStart && compareEndDate == defaults.compareEnd
      ensures (mode == Historical && old(historicalDefaultsSet)) || (mode == Compare && old(compareDefaultsSet)) ==>
                unchanged(this)
    {
      if mode == Historical && !historicalDefaultsSet {
        endDate := defaults.end;
        startDate := defaults.start;
        historicalDefaultsSet := true;
        compareDefaultsSet := false;
      }
      if mode == Compare && !compareDefaultsSet {
        startDate := defaults.start;
        endDate := defaults.end;
        compareStartDate := defaults.compareStart;
        compareEndDate := defaults.compareEnd;
        compareDefaultsSet := true;
        historicalDefaultsSet := false;
      }
      if mode == Live {
        historicalDefaultsSet := false;
        compareDefaultsSet := false;
      }
    }

    /** A mode button: `setMode(m)`, and, when the mode really changes, the
        two effects that depend on it, in declaration order.  Because each
        flag is set only in its own mode, defaults are applied on every entry
        to historical or compare mode, so also on every switch between them. */
    method SelectMode(m: Mode, defaults: DefaultRanges)
      requires Valid()
      modifies this
      ensures Valid() && mode == m
      ensures m == old(mode) ==> unchanged(this)
      ensures m != old(mode) ==> latestData == old(latestData) && loading == old(loading)
      ensures m != old(mode) && m == Live ==>
                && data == [] && compareData == [] && error == None
                && startDate == old(startDate) && endDate == old(endDate)
                && compareStartDate == old(compareStartDate) && compareEndDate == old(compareEndDate)
      ensures m != old(mode) && m == Historical ==>
                && data == old(data) && compareData == [] && error == old(error)
                && startDate == defaults.start && endDate == defaults.end
                && compareStartDate == old(compareStartDate) && compareEndDate == old(compareEndDate)
      ensures m != old(mode) && m == Compare ==>
                && data == old(data) && compareData == old(compareData) && error == old(error)
                && startDate == defaults.start && endDate == defaults.end
                && compareStartDate == defaults.compareStart && compareEndDate == defaults.compareEnd
    {
      if m != mode {
        mode := m;
        ModeEffect();
        DefaultsEffect(defaults);
      }
    }

    /** A date picker's `onChange`. */
    method EditDate(field: DateField, value: string)
      requires Valid()
      modifies this`startDate, this`endDate, this`compareStartDate, this`compareEndDate
      ensures Valid()
      ensures startDate == if field == StartDate then value else old(startDate)
      ensures endDate == if field == EndDate then value else old(endDate)
      ensures compareStartDate == if field == CompareStartDate then value else old(compareStartDate)
      ensures compareEndDate == if field == CompareEndDate then value else old(compareEndDate)
    {
      match field
      case StartDate => startDate := value;
      case EndDate => endDate := value;
      case CompareStartDate => compareStartDate := value;
      case CompareEndDate => compareEndDate := value;
    }

    /** The `compareData` prop every chart receives: the series in compare
        mode, `null` otherwise. */
    function ChartCompareData(): (c: Option<seq<Sample>>)
      reads this
      ensures c.Some? <==> mode == Compare
      ensures c.Some? ==> c.value == compareData
    {
      if mode == Compare then Some(compareData) else None
    }

    /** The charts section: nothing while `data` is empty, otherwise one chart
        per metric, in the page's order.  Every chart uses the elapsed-time
        layout exactly when the page is in compare mode and the second range
        is non-empty; an empty second range gives absolute-time charts. */
    function Panels(millis: Chart.ToMillis): (panels: seq<Chart.Rendering>)
      reads this
      ensures |data| == 0 ==> panels == []
      ensures |data| > 0 ==> |panels| == |AllMetrics|
      ensures forall i :: 0 <= i < |panels| ==>
                panels[i] == Chart.Render(data, ChartCompareData(), AllMetrics[i], MetricColor(AllMetrics[i]),
                                          MetricUnit(AllMetrics[i]), MetricLabel(AllMetrics[i]), millis)
      ensures forall i :: 0 <= i < |panels| ==>
                && panels[i].Plot?
                && (panels[i].chart.xAxis.kind == Chart.LinearScale <==> mode == Compare && |compareData| > 0)
                && |panels[i].chart.datasets| == if mode == Compare && |compareData| > 0 then 2 else 1
    {
      if |data| == 0 then []
      else
        var series, chartCompare := data, ChartCompareData();
        seq(|AllMetrics|, i requires 0 <= i < |AllMetrics| =>
          var m := AllMetrics[i];
          Chart.Render(series, chartCompare, m, MetricColor(m), MetricUnit(m), MetricLabel(m), millis))
    }
  }
}
