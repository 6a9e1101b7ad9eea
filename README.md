# Test summary panel: chart data and component state

A Dafny model of the logic inside the OpenMetadata UI component `TestSummary.tsx`,
the panel that shows the history of one data-quality test case as a line chart.
The component fetches the test case's results for a selected time range, turns
them into chart rows and legend entries, draws a reference band when the test
has exactly two parameters, and colours each point by the result's status.

Modules:

- `Wrappers` — `Option`, where `None` stands for JavaScript's `undefined` (or NaN).
- `JsParseInt` — JavaScript's `parseInt(s)` without a radix, on decimal text:
  leading white space is skipped, one optional `+`/`-` is read, then the longest
  run of decimal digits; no digit gives NaN (`None`). `Decimal` writes an integer
  as decimal text and is the inverse that `parseInt` is proved against.
- `ChartBuilder` — the result records, the per-result fold of measurements into
  named numbers, the chart row, the legend, and `GenerateChartData`, which pushes
  one row per result into a fresh array, reverses it in place and returns the
  legend and the rows. It is proved equal to the specification function
  `ChartDataOf`, whose properties are lemmas.
- `ChartRules` — the reference band (present only for exactly two parameters,
  bounds possibly NaN and in either order) and the dot fill colour.
- `TestSummaryComponent` — the class `TestSummary` holding the component's state
  (`selectedTimeRange`, `isLoading`, `results`, `chartData`), plus a log of the
  calls issued to the results endpoint and a count of error notifications. Its
  invariant `Valid` says that the chart always shows the held results and that the
  component is loading exactly until a first call has completed.

Inputs the model takes as parameters instead of computing them: the timestamp
formatter `moment.unix(t).format('DD/MMM HH:mm')` is an arbitrary function
`fmt: int -> string`; the `COLORS` palette is a sequence `colors`, and an index
past its end gives `None` (JavaScript's `undefined`). The outcome of the network
call is a parameter of `FetchTestResults`: `Success(list)` or `Failure`.

Details of the code that the model keeps:

- The skip test of `fetchTestResults` is lodash `isEmpty(data)` on the whole props
  object, not a test of the entity name: `data` is `Option<TestCase>`, `None`
  standing for props that `isEmpty` deems empty. A non-empty object without a
  `fullyQualifiedName` still issues a call, for the name `''`.
- On the skip path `isLoading` is never cleared; the model keeps this, and
  `Valid` records it as "loading exactly while no call has been issued".
- The effect on `selectedTimeRange` also runs once when the component is first
  shown: that mount run is a `FetchTestResults` call made right after the
  constructor, with the initial range `last3days`.
- Measurements are spread after `name` and `status`, so a measurement called
  `name` or `status` replaces them in the row; a measurement called `status`
  also gives the dot the third colour, since the dot reads only `status`.
- The legend label is `name || ''` (empty for an unnamed measurement) while the
  row key is `name || 'value'`, so an unnamed series' legend label does not
  match its row key.
- `generateChartData` stores the rows reversed (oldest first) and takes the
  legend from the first (newest) result only.

## Model

| member | source | states |
|---|---|---|
| JsParseInt.TrimStartSpec | openmetadata-ui/src/main/resources/ui/src/components/ProfilerDashboard/component/TestSummary.tsx:81 | the result is a suffix of the input, everything dropped is white space, and the result does not start with white space |
| JsParseInt.DigitPrefixSpec | openmetadata-ui/src/main/resources/ui/src/components/ProfilerDashboard/component/TestSummary.tsx:81 | the result is the longest prefix of the input made of decimal digits |
| JsParseInt.ParseInt | openmetadata-ui/src/main/resources/ui/src/components/ProfilerDashboard/component/TestSummary.tsx:81 | `parseInt` gives NaN exactly when, after white space and an optional sign, there is no digit |
| JsParseInt.ParseTrimmed | openmetadata-ui/src/main/resources/ui/src/components/ProfilerDashboard/component/TestSummary.tsx:81 | on text without leading white space: NaN exactly when no digit follows the optional sign; a negative result needs a leading `-` |
| JsParseInt.ParseIntOfDecimal | openmetadata-ui/src/main/resources/ui/src/components/ProfilerDashboard/component/TestSummary.tsx:81 | the decimal text of any integer, followed by anything that is not a digit, parses back to that integer |
| JsParseInt.ParseIntSkipsWhite | openmetadata-ui/src/main/resources/ui/src/components/ProfilerDashboard/component/TestSummary.tsx:81 | leading white space never changes the parse |
| JsParseInt.ParseIntOfPlus | openmetadata-ui/src/main/resources/ui/src/components/ProfilerDashboard/component/TestSummary.tsx:81 | an explicit `+` before a number's decimal text, followed by a non-digit, reads that number |
| JsParseInt.ParseIntLeadingZero | openmetadata-ui/src/main/resources/ui/src/components/ProfilerDashboard/component/TestSummary.tsx:81 | a leading zero before a digit does not change the parse (`"007"` reads as 7) |
| JsParseInt.ParseIntWithoutDigits | openmetadata-ui/src/main/resources/ui/src/components/ProfilerDashboard/component/TestSummary.tsx:81 | a text with no decimal digit (empty included) parses to NaN |
| JsParseInt.NatDigitsAreDigits | openmetadata-ui/src/main/resources/ui/src/components/ProfilerDashboard/component/TestSummary.tsx:182 | the decimal text of a number is non-empty and all digits (used for the `y${i + 1}` keys) |
| JsParseInt.NatDigitsInjective | openmetadata-ui/src/main/resources/ui/src/components/ProfilerDashboard/component/TestSummary.tsx:182 | different numbers have different decimal texts |
| ChartBuilder.ValuesOfKeys | openmetadata-ui/src/main/resources/ui/src/components/ProfilerDashboard/component/TestSummary.tsx:78-83 | the folded object has exactly the keys of the measurements (name, or `value`), every entry a number |
| ChartBuilder.ValuesOfLastWins | openmetadata-ui/src/main/resources/ui/src/components/ProfilerDashboard/component/TestSummary.tsx:78-83 | for two measurements with the same key the later one wins: a key holds the parsed value of its last measurement |
| ChartBuilder.UnnamedValue | openmetadata-ui/src/main/resources/ui/src/components/ProfilerDashboard/component/TestSummary.tsx:81 | a measurement with a missing or empty name is stored under `value` |
| ChartBuilder.ParsedValueWithoutDigits | openmetadata-ui/src/main/resources/ui/src/components/ProfilerDashboard/component/TestSummary.tsx:81 | a missing, empty or non-numeric value is stored as 0 |
| ChartBuilder.ParsedValueOfDecimal | openmetadata-ui/src/main/resources/ui/src/components/ProfilerDashboard/component/TestSummary.tsx:81 | a value whose text starts with an integer's decimal text is stored as that integer |
| ChartBuilder.RowContents | openmetadata-ui/src/main/resources/ui/src/components/ProfilerDashboard/component/TestSummary.tsx:85-89 | a row has `name`, `status` and the measurement keys; measurements override `name`/`status`, otherwise they hold `fmt(timestamp or 0)` and `status or ''` |
| ChartBuilder.RowWithoutValues | openmetadata-ui/src/main/resources/ui/src/components/ProfilerDashboard/component/TestSummary.tsx:78-89 | a result without measurements gives a row with only `name` and `status` |
| ChartBuilder.SingleValueRow | openmetadata-ui/src/main/resources/ui/src/components/ProfilerDashboard/component/TestSummary.tsx:78-89 | the row of a result with one measurement under a fresh key holds the formatted time, the status and that number |
| ChartBuilder.InformationOf | openmetadata-ui/src/main/resources/ui/src/components/ProfilerDashboard/component/TestSummary.tsx:92-96 | one legend entry per measurement of the first result, in order, labelled `name or ''`, coloured by position; empty input or a first result without measurements gives `[]` |
| ChartBuilder.LegendMatchesNewestRow | openmetadata-ui/src/main/resources/ui/src/components/ProfilerDashboard/component/TestSummary.tsx:78-96 | a named legend entry is a numeric field of the newest (rightmost) row; an unnamed one is labelled `''` while its numbers sit under `value` |
| ChartBuilder.InformationFromNewestOnly | openmetadata-ui/src/main/resources/ui/src/components/ProfilerDashboard/component/TestSummary.tsx:92-96 | results after the first never change the legend |
| ChartBuilder.ReversedAt | openmetadata-ui/src/main/resources/ui/src/components/ProfilerDashboard/component/TestSummary.tsx:97 | element `i` of the reversed sequence is element `n-1-i` of the input |
| ChartBuilder.RowsAt | openmetadata-ui/src/main/resources/ui/src/components/ProfilerDashboard/component/TestSummary.tsx:77-90 | the pushed rows are one per result, in input order |
| ChartBuilder.DataOfOrder | openmetadata-ui/src/main/resources/ui/src/components/ProfilerDashboard/component/TestSummary.tsx:76-97 | row `i` of the stored data is built from result `n-1-i` |
| ChartBuilder.DataOfNewer | openmetadata-ui/src/main/resources/ui/src/components/ProfilerDashboard/component/TestSummary.tsx:76-97 | a newer result at the head of the input becomes the last (rightmost) row |
| ChartBuilder.Reverse | openmetadata-ui/src/main/resources/ui/src/components/ProfilerDashboard/component/TestSummary.tsx:97 | the array is reversed in place |
| ChartBuilder.GenerateChartData | openmetadata-ui/src/main/resources/ui/src/components/ProfilerDashboard/component/TestSummary.tsx:75-99 | pushing rows in a loop and reversing gives `ChartDataOf`: the legend of the first result and row `i` built from result `n-1-i` |
| ChartBuilder.TwoResultsExample | openmetadata-ui/src/main/resources/ui/src/components/ProfilerDashboard/component/TestSummary.tsx:75-99 | two `rowCount` results, newest first, give the older row first and a one-entry legend |
| ChartRules.YValuesAt | openmetadata-ui/src/main/resources/ui/src/components/ProfilerDashboard/component/TestSummary.tsx:181-183 | the reduce keeps the parsed value (NaN allowed) of parameter `i` under `y${i + 1}` |
| ChartRules.YValuesKeys | openmetadata-ui/src/main/resources/ui/src/components/ProfilerDashboard/component/TestSummary.tsx:181-183 | the reduce sets no key other than `y1` … `yn` |
| ChartRules.FirstYKeys | openmetadata-ui/src/main/resources/ui/src/components/ProfilerDashboard/component/TestSummary.tsx:182 | the first two keys are `y1` and `y2` |
| ChartRules.ReferenceBand | openmetadata-ui/src/main/resources/ui/src/components/ProfilerDashboard/component/TestSummary.tsx:223 | a band exists exactly when there are two parameter values; its bounds are their parsed values, NaN allowed |
| ChartRules.BandIsUnordered | openmetadata-ui/src/main/resources/ui/src/components/ProfilerDashboard/component/TestSummary.tsx:181-183 | a lower bound above the upper bound is passed through unchecked |
| ChartRules.BandKeepsNaN | openmetadata-ui/src/main/resources/ui/src/components/ProfilerDashboard/component/TestSummary.tsx:182 | a missing bound stays NaN, with no fallback to 0 |
| ChartRules.DotFill | openmetadata-ui/src/main/resources/ui/src/components/ProfilerDashboard/component/TestSummary.tsx:103-108 | `#28A745` exactly for status `Success`, `#CB2431` exactly for `Failed`, `#EFAE2F` otherwise |
| ChartRules.DotFillOfRow | openmetadata-ui/src/main/resources/ui/src/components/ProfilerDashboard/component/TestSummary.tsx:101-108 | on a built row the dot follows the result's status, unless a measurement named `status` replaced it |
| TestSummaryComponent.TestSummary.constructor | openmetadata-ui/src/main/resources/ui/src/components/ProfilerDashboard/component/TestSummary.tsx:54-60 | initial state: no chart object, no results, range `last3days`, loading, no call issued |
| TestSummaryComponent.TestSummary.HandleTimeRangeChange | openmetadata-ui/src/main/resources/ui/src/components/ProfilerDashboard/component/TestSummary.tsx:69-73 | the selection becomes the value; an equal value changes nothing |
| TestSummaryComponent.TestSummary.ShowResults | openmetadata-ui/src/main/resources/ui/src/components/ProfilerDashboard/component/TestSummary.tsx:139-140 | results become the fetched list and the chart becomes `ChartDataOf` of it |
| TestSummaryComponent.TestSummary.FetchTestResults | openmetadata-ui/src/main/resources/ui/src/components/ProfilerDashboard/component/TestSummary.tsx:123-146 | empty props: nothing changes, loading included; otherwise one call is logged, success replaces results and chart, failure keeps both and adds a notification, and loading ends |
| TestSummaryComponent.TestSummary.Complete | openmetadata-ui/src/main/resources/ui/src/components/ProfilerDashboard/component/TestSummary.tsx:126-145 | with props present: one call for the entity and the selected range is logged; success replaces results and chart, failure keeps both and adds a notification; loading ends either way |
| TestSummaryComponent.TestSummary.SelectTimeRange | openmetadata-ui/src/main/resources/ui/src/components/ProfilerDashboard/component/TestSummary.tsx:148-150 | choosing the same range changes nothing and issues no call; a new range is stored and, with props present, one call for it is made, success replaces results and chart, failure keeps both and adds a notification, and loading ends; with empty props nothing but the range changes |

## Left out

- JSX, antd and recharts rendering, including the loader/empty-state choice, the selector options memo (`timeRangeOption`), the parameter list with its SQL editor, and the description previewer: presentation only.
- `getListTestCaseResults` and the `axios` error: network I/O, replaced by the `FetchOutcome` parameter; the result limit `API_RES_MAX_SIZE` is not recorded in the call log.
- The `startTs`/`endTs` window (`moment()` minus the range's day count): it reads the clock; the call log records the range key instead.
- `showErrorToast`: only the number of notifications is kept.
- Overlapping fetches and stale responses: each fetch completes as one atomic step.
- The contents of `COLORS`, `PROFILER_FILTER_RANGE` and the `TestCaseStatus` enum (defined in files that are not part of this model); the statuses are taken to be the strings `Success` and `Failed`.
- JsParseInt.ParseInt: hexadecimal `0x`/`0X` prefixes, which real `parseInt` reads in base 16, are outside the model (here `"0x1A"` reads as 0); so are the floating-point rounding of long digit runs and `Infinity`.
- JavaScript object key order in rows: rows are maps.
- Result timestamps are integers or missing; a NaN timestamp is not a separate case, since `NaN || 0` gives 0 just as a missing one does, which is the model's `GetOr(0)`.
