# Air-quality dashboard: a Dafny model of its data core

The dashboard polls a ThingSpeak channel and shows six metrics (temperature,
humidity, PM2.5, PM10, CO2, NO2) as cards and line charts. It has three
modes. In **live** mode it appends the latest record to a rolling window every
15 seconds. In **historical** mode it loads one date range. In **compare**
mode it loads two ranges and draws them over each other on an elapsed-time
axis.

This project models the logic between the HTTP client and the rendering:

- `thingspeak.dfy` (module `ThingSpeak`) turns feed records into samples.
  It also builds the date text a historical request sends.
- `dashboard.dfy` (module `Dashboard`) holds the page state as a class `App`.
  Its fields are the React state cells and refs. Each event handler and
  effect has its own method or methods (see below), and one function gives
  the six charts.
- `chart.dfy` (module `Chart`) builds the chart data for one metric. It picks
  the axis, rebases each comparison range, and chooses labels, styles and
  contrast colors. It also holds the `HH:MM` tick formatter.
- `samples.dfy`, `config.dfy`, `text.dfy` and `outcomes.dfy` hold what these
  share: the sample record, the field mapping and polling constant,
  JavaScript's `String(n)` and `padStart`, and the `Option`/`Result` wrappers.

How the JavaScript maps onto the model:

- A decoded feed record is a `map<string, string>`. A `null` value is a
  missing key.
- `parseFloat` is a parameter of type `string -> Option<real>`, where `None`
  is NaN. `|| null` is modelled exactly: NaN and `0` both become `None`.
- A sample's timestamp is `created_at` copied verbatim, as an
  `Option<string>`. It is `None` when the record has no such key.
- The chart reads a timestamp through a parameter `millis: Timestamp -> int`.
  This stands for `new Date(t)` in milliseconds.
- Date-picker text becomes a `DateValue` through a parameter, so an invalid
  date can be represented.
- `loadHistoricalData` and `loadComparisonData` are each cut at their
  `await` into a `Begin` and a `Finish` method:
  - the `Begin` method validates, sets `error`/`loading`, and returns the
    fetch to issue, or `None` when nothing is fetched;
  - the `Finish` method takes the fetch's outcome as a `Result` value.
- `loadLatestData` is the single step `LoadLatest`. It applies the
  `setError(null)` from before its `await` together with the result.
- `Promise.all` gives one `Result` of the pair to `FinishComparison`.
- `SelectMode` runs the two `[mode]` effects, in declaration order, only when
  the mode really changes. React does the same.
- An invariant `App.Valid()` ties the timer to live mode and each
  defaults flag to its own mode. Every handler keeps it: the constructor,
  `LoadLatest`, the `Begin`/`Finish` methods, `SelectMode` and `EditDate`.
  `ModeEffect` and `DefaultsEffect` are the intermediate steps of
  `SelectMode`, so they neither require nor ensure it.
- From `Valid()` one sees that defaults are applied on every entry to
  historical or compare mode.

Outcomes of the model that follow the code, not the intent one might read into it:

- A sensor value that parses to exactly `0` is shown as missing.
- A historical record whose six values are all `0` is dropped.
- `Panels` and `Chart.Render` show that the comparison layout depends on the
  data. In compare mode, if the second range came back empty, every chart
  uses the plain absolute-time layout.
- `NegativeMinuteTick` shows that every tick value in the minute before zero
  is labelled `-1:-1`. The reason is that `Math.floor` and JavaScript's
  truncating `%` disagree on negative numbers.

## Model

| member | source | states |
|---|---|---|
| `ThingSpeak.FieldKey` | src/services/thingspeak.js:20-25 | the key a metric is read from is six characters: `field` followed by one digit whose value is the metric's FIELD_MAPPINGS number |
| `ThingSpeak.FieldKeysDistinct` | src/config.js:11-18 | each metric's key is `field` followed by its configured digit, and two metrics share a key only if they are the same metric |
| `ThingSpeak.OrNull` | src/services/thingspeak.js:20-25 | `x \|\| null` gives null exactly when the parse failed (NaN) or gave 0, and otherwise keeps the number |
| `ThingSpeak.ReadMetric` | src/services/thingspeak.js:70-75 | a metric is non-null exactly when its `field<k>` key is present and parses to a non-zero number, and the value is then that number |
| `ThingSpeak.ReadMetricReadsOnlyItsField` | src/services/thingspeak.js:70-75 | two records that agree on a metric's own key give that metric the same value, however they differ elsewhere |
| `ThingSpeak.CreatedAt` | src/services/thingspeak.js:26 | the timestamp is present exactly when `created_at` is, and then equals it verbatim |
| `ThingSpeak.Normalize` | src/services/thingspeak.js:19-27 | the sample's timestamp is the record's `created_at`, and each metric is ReadMetric of its own field; the latest-record path returns it unfiltered |
| `ThingSpeak.NormalizeAll` | src/services/thingspeak.js:68-75 | one sample per feed, same length, sample i normalises feed i |
| `ThingSpeak.DropEmpty` | src/services/thingspeak.js:76-83 | never longer than its input; keeps only samples with a non-null metric; keeps every such sample and invents none |
| `ThingSpeak.DropEmptyOfConcat` | src/services/thingspeak.js:76-83 | filtering a concatenation is the concatenation of the filtered parts, so order is preserved |
| `ThingSpeak.DropEmptyKeepsFullSeries` | src/services/thingspeak.js:76-83 | a series whose samples all have a reading passes unchanged |
| `ThingSpeak.HistoricalSamples` | src/services/thingspeak.js:63-83 | a missing or empty `feeds` gives the empty sequence; the result is no longer than `feeds`, all its samples have a reading, each comes from some feed, and no feed with a reading is lost |
| `ThingSpeak.HistoricalOfConcat` | src/services/thingspeak.js:68-83 | the historical batch over concatenated feeds is the concatenation of the batches (provider order preserved) |
| `ThingSpeak.HistoricalOfOne` | src/services/thingspeak.js:68-83 | a single feed yields its sample if some metric is non-null and nothing otherwise, while Normalize (the latest path) always yields it |
| `Samples.HasReadingMeansSomeMetric` | src/services/thingspeak.js:76-83 | the six-way null test of the filter holds exactly when some metric is non-null |
| `ThingSpeak.IndexOf` | src/services/thingspeak.js:43 | the position of the first occurrence, or the length when there is none |
| `ThingSpeak.ReplaceFirst` | src/services/thingspeak.js:43 | `replace('T', ' ')` keeps the length, changes only the first `T`, and changes it to a space |
| `ThingSpeak.BeforeFirst` | src/services/thingspeak.js:43 | `split('.')[0]` is a prefix without `.` that stops at the first `.` |
| `ThingSpeak.RequestDate` | src/services/thingspeak.js:43-44 | the request date contains no `.` and is no longer than the ISO text |
| `ThingSpeak.IsoRequestDate` | src/services/thingspeak.js:42-44 | for `YYYY-MM-DDTHH:MM:SS.sssZ` the request date is `YYYY-MM-DD HH:MM:SS`: the first 19 characters with index 10 turned into a space |
| `Text.NatToString` | src/components/AirQualityChart.jsx:294 | `String(n)` is a non-empty digit string, one digit below 10, at most two below 100, and starts with `0` exactly when n is 0 (no leading zeros) |
| `Text.NatToStringRoundTrip` | src/components/AirQualityChart.jsx:294 | reading back `String(n)` as a decimal gives `n` |
| `Text.IntToString` | src/components/AirQualityChart.jsx:294 | `String(n)` for any integer starts with `-` exactly when n is negative; the digits after the sign (or the whole text) read back as the magnitude, with no leading zero |
| `Text.PadStart2` | src/components/AirQualityChart.jsx:294 | `padStart(2, '0')` has length at least 2, ends with its input and is zeros before it |
| `Text.PadStart2Value` | src/components/AirQualityChart.jsx:294 | padding a digit string keeps it a digit string of the same value |
| `Chart.HasComparison` | src/components/AirQualityChart.jsx:29 | `null` and the empty array give no comparison; any non-empty array gives one |
| `Chart.NormalizeTimestamp` | src/components/AirQualityChart.jsx:54-59 | the elapsed time is what takes the start instant to the sample's instant, unclamped |
| `Chart.Timestamps` | src/components/AirQualityChart.jsx:157 | `chartData.labels` lists the primary series' timestamps, one per sample, in order |
| `Chart.InstantPoints` | src/components/AirQualityChart.jsx:122-125 | one point per sample in order, x the sample's instant, y its metric copied verbatim (null included) |
| `Chart.ElapsedPoints` | src/components/AirQualityChart.jsx:72-76 | one point per sample in order, x the time since the given start, y verbatim, `originalTimestamp` the sample's timestamp |
| `Chart.FirstTimestamp` | src/components/AirQualityChart.jsx:66-67 | a range's start is its first sample's timestamp, and null for an empty range |
| `Chart.ElapsedIsRebasedInstant` | src/components/AirQualityChart.jsx:66-76 | rebasing on a range's own first sample puts that sample at 0 and moves every absolute x by the same amount, with y unchanged |
| `Chart.ElapsedShiftInvariant` | src/components/AirQualityChart.jsx:54-59 | shifting every instant by one offset (another clock zero or time zone) leaves the elapsed points unchanged |
| `Chart.ContrastingColor` | src/components/AirQualityChart.jsx:143-154 | total lookup: the result differs from the input except for the fallback `#9333ea`, table keys map to table keys, and anything else maps to the fallback |
| `Chart.RedAndBlueSwap` | src/components/AirQualityChart.jsx:146-147 | red maps to blue and blue to red |
| `Chart.SingleDataset` | src/components/AirQualityChart.jsx:118-139 | label is `label`, filled, solid, width 2, color and `color + '20'` background; one absolute point per sample with x the instant and y the metric |
| `Chart.ComparisonDatasets` | src/components/AirQualityChart.jsx:64-117 | two datasets `label (Range 1)` and `label (Range 2)`, only the second dashed `[5, 5]` and in the contrasting color, neither filled; each has one point per sample of its own range, x rebased on that range's own first timestamp, y verbatim, originalTimestamp kept |
| `Chart.AxisFor` | src/components/AirQualityChart.jsx:262-310 | the x axis is linear with title "Elapsed Time" exactly when there is a non-empty comparison series, and time with title "Time" otherwise |
| `Chart.Render` | src/components/AirQualityChart.jsx:27-336 | placeholder "No data available for label" exactly when data is empty; otherwise labels are the primary timestamps and the datasets are the single layout or the comparison layout, chosen by `compareData` being non-null and non-empty |
| `Chart.FirstRangeIgnoresSecond` | src/components/AirQualityChart.jsx:66-76 | the first range's dataset does not depend on what the second range holds |
| `Chart.JsRemainder` | src/components/AirQualityChart.jsx:293 | JavaScript `%` by a positive b: the result lies in `[0, b)` for non-negative dividends and in `(-b, 0]` for negative ones, and the dividend is b times its truncated quotient plus the result, which fixes it as the truncated remainder |
| `Chart.HoursMinutes` | src/components/AirQualityChart.jsx:294 | the template text is at least five characters long, and the colon is third from the end whenever the minutes print in at most two characters |
| `Chart.ElapsedTick` | src/components/AirQualityChart.jsx:289-295 | every tick is at least five characters long, and for a non-negative value the colon is third from the end |
| `Chart.HoursMinutesReadsBack` | src/components/AirQualityChart.jsx:294 | for whole hours and minutes below 60, the text is digits, a colon and two digits reading back as those hours and minutes; the hours take exactly two digits below 100 and otherwise have no leading zero, as `String(h).padStart(2, '0')` writes them |
| `Chart.ElapsedTickReadsBack` | src/components/AirQualityChart.jsx:289-295 | for a non-negative value, with m the value in whole minutes, the tick is digits, a colon and exactly two digits reading back as m div 60 and m mod 60 (00 to 59); the hours are two-digit padded below 100 and have no leading zero above |
| `Chart.NegativeMinuteTick` | src/components/AirQualityChart.jsx:289-295 | every value in the minute before zero is labelled `-1:-1` |
| `Chart.MinuteBeforeZero` | src/components/AirQualityChart.jsx:291-293 | in the minute before zero the floor gives -1 total minutes, hence -1 hours and a truncated remainder of -1 |
| `Chart.MinusOneMinusOne` | src/components/AirQualityChart.jsx:294 | `String(-1)` is already two characters, so the template yields `-1:-1` |
| `Dashboard.ContrastOfMetricColor` | src/components/AirQualityChart.jsx:143-154 | a metric's color is mapped to a different metric color, checked one metric at a time |
| `Dashboard.ContrastTableIsMetricColors` | src/App.jsx:211-218 | the contrast table's keys are exactly the six metric colors, and each metric color maps to a different metric color |
| `Dashboard.Window` | src/App.jsx:38-42 | `slice(-100)` has length min(n, 100) and is a suffix of its input |
| `Dashboard.WindowOfWindow` | src/App.jsx:38-42 | trimming before appending more gives the same window as trimming once at the end |
| `Dashboard.LiveAppendsKeepLatest` | src/App.jsx:36-43 | any run of live appends leaves the window of everything that arrived, in arrival order |
| `Dashboard.LiveWindowAfterMany` | src/App.jsx:36-43 | from empty, at least 100 arrivals leave exactly the last 100 of them |
| `Dashboard.After` | src/App.jsx:63 | `start > end` on Dates is false whenever either date is invalid; otherwise start's milliseconds exceed end's |
| `Dashboard.CheckRange` | src/App.jsx:52-67 | missing exactly when a date is empty; misordered exactly when both are given and start is after end; otherwise the fetch is for the two parsed dates; equal dates are accepted |
| `Dashboard.InvalidDatePassesCheck` | src/App.jsx:52-67 | once both date fields are non-empty, a range holding an unparseable date is not rejected and its fetch is issued |
| `Dashboard.CheckComparison` | src/App.jsx:86-103 | missing exactly when any of the four dates is empty; accepted exactly when both ranges would be accepted on their own, with both ranges as the request |
| `Dashboard.App.constructor` | src/App.jsx:9-27 | the page starts in live mode with empty series, no error, not loading, empty dates and the invariant holding |
| `Dashboard.App.LoadLatest` | src/App.jsx:30-48 | on success latestData is the sample and the error is cleared; in live mode data becomes the last 100 of `data ++ [latest]` (length min(n+1, 100), last element latest), in other modes data is kept; on failure only the error changes |
| `Dashboard.App.BeginHistorical` | src/App.jsx:51-67 | an empty date sets "Please select both start and end dates", issues nothing and leaves loading alone; start after end sets the order error, issues nothing and ends not loading; otherwise the error is cleared, loading is on and the range is issued |
| `Dashboard.App.FinishHistorical` | src/App.jsx:69-81 | success replaces data wholesale and sets latestData to its last sample when non-empty (else keeps it); failure sets the error and keeps data and latestData; loading ends false |
| `Dashboard.App.BeginComparison` | src/App.jsx:85-103 | all four dates are required and both ranges must be ordered before anything is issued; the errors and the loading flag follow the same pattern as the historical load |
| `Dashboard.App.FinishComparison` | src/App.jsx:105-122 | data and compareData are replaced together on success and both kept on failure; latestData comes from the first range; loading ends false |
| `Dashboard.App.ModeEffect` | src/App.jsx:126-157 | the timer is active exactly in live mode; entering live clears both series and the error; historical clears compareData; compare keeps it |
| `Dashboard.App.DefaultsEffect` | src/App.jsx:169-204 | historical with its flag unset applies the first default range and sets the flags to (true, false); compare with its flag unset applies all four dates and sets (false, true); live resets both; a set flag changes nothing |
| `Dashboard.App.SelectMode` | src/App.jsx:126-204 | re-selecting the current mode changes nothing; a real change applies both effects: live clears the series, historical applies the default range and clears compareData, compare applies all four defaults; the invariant is kept, so defaults are re-applied on every switch between historical and compare |
| `Dashboard.App.EditDate` | src/App.jsx:278-343 | a date picker sets its own date and no other |
| `Dashboard.App.ChartCompareData` | src/App.jsx:426 | the charts get the comparison series exactly in compare mode and null otherwise |
| `Dashboard.App.Panels` | src/App.jsx:418-480 | no charts while data is empty, otherwise one per metric in page order, each rendered with that metric's color, unit and label; every chart uses the elapsed layout with two datasets exactly in compare mode with a non-empty second range, and one dataset otherwise |

## Left out

- HTTP is not modelled: URLs, `fetch`, `response.ok`, JSON decoding, the API key and the channel id. The outcome of each fetch is an input.
- `parseFloat`, `toFixed` and all floating-point formatting are not modelled. Metric values are abstract `real`s. MetricCard's `'--'`/`toFixed(1)` display is presentation only.
- `new Date(...)` parsing and `toISOString` are not modelled, because they depend on the time zone. The chart and the validation take them as function parameters. Invalid dates appear only as `InvalidDate`. A NaN that an invalid or missing timestamp would put into chart arithmetic is not modelled.
- `RequestDate` starts from the ISO text. It does not include the conversion from a Date to that text, nor the six-digit years `toISOString` writes outside 0–9999.
- Computing the default date ranges (local `setHours`/`setDate`) is not modelled. `DefaultRanges` is passed in by the caller.
- The timer is the boolean `timerActive`. `UPDATE_INTERVAL` is the constant `Config.UpdateIntervalMs`. Ticks are the caller's calls to `LoadLatest`.
- Each `LoadLatest` is one step: a tick's error clear and its result are applied together. So another tick's failure landing between them, which the code allows, is not represented.
- The model does not state that a request holding an invalid date always comes back as `Err`. In the code, `toISOString` throws a RangeError ("Invalid time value") at src/services/thingspeak.js:43-44, so that fetch always fails. The model still lets a caller pass `Ok` to `FinishHistorical` or `FinishComparison` after such a request.
- Async interleaving is not modelled:
  - A fetch resolving after a mode switch may still commit in the code. In particular, an in-flight live fetch's closure sees the mode captured when the timer was set. `LoadLatest` checks the current mode instead.
  - Which rejection `Promise.all` reports when both fetches fail is a matter of timing, so the error is an input.
- Chart.js registration, the theme, colors and fonts of the options, tooltip callbacks (locale formatting) and constant point styling (tension, radii) are not modelled. These are presentation.
- `ContrastingColor` does not model JavaScript object lookups of inherited property names such as `"toString"`. These would return a function rather than the fallback.
- `ElapsedTick` takes integer tick values. Chart.js may pass fractional ones, which are floating point.
- The unmount cleanup effect (src/App.jsx:159-166) and the theme effect (src/App.jsx:206-209) are not modelled. They only release the timer or set a DOM attribute.
