/**
 * The state of the test summary component and the two things that change it:
 * choosing a time range, and the completion of one fetch of results.
 */
module TestSummaryComponent {
  import opened Wrappers
  import opened ChartBuilder

  /** The props the fetch reads: the test case's fully qualified name. */
  datatype TestCase = TestCase(fullyQualifiedName: Option<string>)

  /** How one call to the results endpoint ends. */
  datatype FetchOutcome = Success(list: seq<TestCaseResult>) | Failure

  /** One call issued to the results endpoint: the entity name and the selected range key. */
  datatype FetchRequest = FetchRequest(entity: string, timeRange: string)

  /** The range selected when the component is first shown. */
  const InitialTimeRange: string := "last3days"

  class TestSummary {
    /** The timestamp formatter (`DD/MMM HH:mm`) and the colour palette, given from outside. */
    const fmt: int -> string
    const colors: seq<string>

    /** `None` is the initial empty chart object `{}`. */
    var chartData: Option<ChartData>
    var results: seq<TestCaseResult>
    var selectedTimeRange: string
    var isLoading: bool
    /** Every call issued to the results endpoint, oldest first. */
    var requests: seq<FetchRequest>
    /** How many error notifications were shown. */
    var toastsShown: nat

    /**
     * The chart always shows the rows of the held results, and the component
     * is loading exactly until a first call has completed.
     */
    ghost predicate Valid()
      reads this
    {
      && (chartData.None? ==> results == [])
      && (chartData.Some? ==> chartData.value == ChartDataOf(results, fmt, colors))
      && (isLoading <==> requests == [])
    }

    constructor (fmt: int -> string, colors: seq<string>)
      ensures Valid()
      ensures this.fmt == fmt && this.colors == colors
      ensures chartData == None && results == [] && selectedTimeRange == InitialTimeRange
      ensures isLoading && requests == [] && toastsShown == 0
    {
      this.fmt := fmt;
      this.colors := colors;
      chartData := None;
      results := [];
      selectedTimeRange := InitialTimeRange;
      isLoading := true;
      requests := [];
      toastsShown := 0;
    }

    /** handleTimeRangeChange: a different range is stored; the same range changes nothing. */
    method HandleTimeRangeChange(value: string)
      requires Valid()
      modifies this
      ensures Valid()
      ensures selectedTimeRange == value
      ensures value == old(selectedTimeRange) ==> unchanged(this)
      ensures chartData == old(chartData) && results == old(results) && isLoading == old(isLoading)
      ensures requests == old(requests) && toastsShown == old(toastsShown)
    {
      if value != selectedTimeRange {
        selectedTimeRange := value;
      }
    }

    /**
     * One completed run of fetchTestResults. Empty props skip it and leave
     * everything, `isLoading` included, as it was. Otherwise one call is
     * issued; on success the results and the chart are replaced, on failure a
     * notification is shown and both are kept; either way loading ends.
     */
    method FetchTestResults(data: Option<TestCase>, outcome: FetchOutcome)
      requires Valid()
      modifies this
      ensures Valid()
      ensures data.None? ==> unchanged(this)
      ensures data.Some? ==>
        && requests == old(requests) + [FetchRequest(data.value.fullyQualifiedName.GetOr(""), old(selectedTimeRange))]
        && !isLoading
        && selectedTimeRange == old(selectedTimeRange)
      ensures data.Some? && outcome.Success? ==>
        && results == outcome.list
        && chartData == Some(ChartDataOf(outcome.list, fmt, colors))
        && toastsShown == old(toastsShown)
      ensures data.Some? && outcome.Failure? ==>
        && results == old(results)
        && chartData == old(chartData)
        && toastsShown == old(toastsShown) + 1
    {
      if data.Some? {
        Complete(data.value.fullyQualifiedName.GetOr(""), outcome);
      }
    }

    /**
     * The part of the fetch that runs once the props are present: the call for
     * the entity and the selected range, its outcome, and the `finally`.
     */
    method Complete(entity: string, outcome: FetchOutcome)
      requires Valid()
      modifies this
      ensures Valid()
      ensures requests == old(requests) + [FetchRequest(entity, old(selectedTimeRange))]
      ensures !isLoading && selectedTimeRange == old(selectedTimeRange)
      ensures outcome.Success? ==>
        && results == outcome.list
        && chartData == Some(ChartDataOf(outcome.list, fmt, colors))
        && toastsShown == old(toastsShown)
      ensures outcome.Failure? ==>
        && results == old(results)
        && chartData == old(chartData)
        && toastsShown == old(toastsShown) + 1
    {
      requests := requests + [FetchRequest(entity, selectedTimeRange)];
      match outcome {
        case Success(list) => ShowResults(list);
        case Failure => toastsShown := toastsShown + 1;
      }
      isLoading := false;
    }

    /** The success branch of the fetch: `setResults` and then `generateChartData` on the fetched list. */
    method ShowResults(list: seq<TestCaseResult>)
      modifies this
      ensures results == list && chartData == Some(ChartDataOf(list, fmt, colors))
      ensures selectedTimeRange == old(selectedTimeRange) && isLoading == old(isLoading)
      ensures requests == old(requests) && toastsShown == old(toastsShown)
    {
      results := list;
      var built := GenerateChartData(list, fmt, colors);
      chartData := Some(built);
    }

    /**
     * Choosing a range in the selector: the same range neither changes the
     * state nor issues a call; a different one is stored and the effect that
     * depends on it runs one fetch for the new range.
     */
    method SelectTimeRange(value: string, data: Option<TestCase>, outcome: FetchOutcome)
      requires Valid()
      modifies this
      ensures Valid()
      ensures selectedTimeRange == value
      ensures value == old(selectedTimeRange) ==> unchanged(this)
      ensures value != old(selectedTimeRange) && data.Some? ==>
        requests == old(requests) + [FetchRequest(data.value.fullyQualifiedName.GetOr(""), value)]
      ensures value != old(selectedTimeRange) && data.Some? ==> !isLoading
      ensures value != old(selectedTimeRange) && data.Some? && outcome.Success? ==>
        && results == outcome.list
        && chartData == Some(ChartDataOf(outcome.list, fmt, colors))
        && toastsShown == old(toastsShown)
      ensures value != old(selectedTimeRange) && data.Some? && outcome.Failure? ==>
        && results == old(results)
        && chartData == old(chartData)
        && toastsShown == old(toastsShown) + 1
      ensures value != old(selectedTimeRange) && data.None? ==>
        && requests == old(requests)
        && results == old(results)
        && chartData == old(chartData)
        && isLoading == old(isLoading)
        && toastsShown == old(toastsShown)
    {
      var previous := selectedTimeRange;
      HandleTimeRangeChange(value);
      if value != previous {
        FetchTestResults(data, outcome);
      }
    }
  }
}
