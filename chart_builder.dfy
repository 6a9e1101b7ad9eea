/**
 * The chart data builder of the test summary panel: a newest-first list of
 * test case results becomes one chart row per result, oldest first, plus the
 * legend (series) descriptors taken from the newest result.
 */
module ChartBuilder {
  import opened Wrappers
  import opened JsParseInt

  /** One named measurement of a result; both parts are optional text. */
  datatype TestResultValue = TestResultValue(name: Option<string>, value: Option<string>)

  /** One historical evaluation of a test case. */
  datatype TestCaseResult = TestCaseResult(
    timestamp: Option<int>,
    testCaseStatus: Option<string>,
    testResultValue: Option<seq<TestResultValue>>)

  /** A cell of a chart row: the formatted time and the status are text, measurements are numbers. */
  datatype Field = Text(text: string) | Num(num: int)

  /** A chart row, keyed by field name. */
  type Row = map<string, Field>

  /** A legend entry (`label` in the source; `label` is a Dafny keyword); `color` is `None` when the palette has no entry at that position. */
  datatype SeriesInfo = SeriesInfo(seriesLabel: string, color: Option<string>)

  datatype ChartData = ChartData(information: seq<SeriesInfo>, data: seq<Row>)

  /** The key a measurement is stored under: its name, or `"value"` when the name is missing or empty. */
  function KeyOf(v: TestResultValue): (key: string) {
    if v.name.Some? && v.name.value != "" then v.name.value else "value"
  }

  /** `parseInt(value || '') || 0`: the parsed value, with NaN read as 0. */
  function ParsedValue(v: TestResultValue): (n: int) {
    match ParseInt(v.value.GetOr(""))
    case Some(n) => n
    case None => 0
  }

  /** The measurements of a result as a list; a missing list spreads nothing, like an empty one. */
  function ValueList(r: TestCaseResult): (vs: seq<TestResultValue>) {
    r.testResultValue.GetOr([])
  }

  /**
   * The left fold over the measurements that spreads the accumulator and then
   * sets one key per measurement to a number.
   */
  function ValuesOf(vs: seq<TestResultValue>): (values: map<string, Field>) {
    if vs == [] then map[]
    else
      var last := vs[|vs| - 1];
      ValuesOf(vs[..|vs| - 1])[KeyOf(last) := Num(ParsedValue(last))]
  }

  /** Every key that occurs among the measurements is present, and nothing else; every entry is a number. */
  lemma {:induction false} ValuesOfKeys(vs: seq<TestResultValue>)
    ensures ValuesOf(vs).Keys == set j | 0 <= j < |vs| :: KeyOf(vs[j])
    ensures forall k :: k in ValuesOf(vs) ==> ValuesOf(vs)[k].Num?
  {
    if vs != [] {
      var n := |vs| - 1;
      var init := vs[..n];
      ValuesOfKeys(init);
      assert (set j | 0 <= j < |vs| :: KeyOf(vs[j])) == (set j | 0 <= j < n :: KeyOf(init[j])) + {KeyOf(vs[n])} by {
        forall j | 0 <= j < n ensures init[j] == vs[j] { }
      }
    }
  }

  /** The row of one result: `name`, `status`, then the spread measurements. */
  function BuildRow(r: TestCaseResult, fmt: int -> string): (row: Row) {
    map["name" := Text(fmt(r.timestamp.GetOr(0))), "status" := Text(r.testCaseStatus.GetOr(""))]
      + ValuesOf(ValueList(r))
  }

  /**
   * What a row holds: `name` and `status` and one numeric field per measurement
   * key; because the measurements are spread last, a measurement called `name`
   * or `status` overrides the formatted time or the status.
   */
  lemma RowContents(r: TestCaseResult, fmt: int -> string)
    ensures var row, values := BuildRow(r, fmt), ValuesOf(ValueList(r));
      && row.Keys == {"name", "status"} + values.Keys
      && (forall k :: k in values ==> row[k] == values[k] && row[k].Num?)
      && ("name" !in values ==> row["name"] == Text(fmt(r.timestamp.GetOr(0))))
      && ("status" !in values ==> row["status"] == Text(r.testCaseStatus.GetOr("")))
  {
    ValuesOfKeys(ValueList(r));
  }

  /** `COLORS[i]`: `None` past the end of the palette. */
  function ColorAt(colors: seq<string>, i: nat): (c: Option<string>)
    ensures c.Some? <==> i < |colors|
    ensures c.Some? ==> c.value == colors[i]
  {
    if i < |colors| then Some(colors[i]) else None
  }

  /** The legend: one entry per measurement of the first (newest) result, coloured by position. */
  function InformationOf(rs: seq<TestCaseResult>, colors: seq<string>): (info: seq<SeriesInfo>)
    ensures rs == [] || rs[0].testResultValue.None? ==> info == []
    ensures rs != [] && rs[0].testResultValue.Some? ==>
      && |info| == |rs[0].testResultValue.value|
      && forall i :: 0 <= i < |info| ==>
           info[i] == SeriesInfo(rs[0].testResultValue.value[i].name.GetOr(""), ColorAt(colors, i))
  {
    if rs == [] || rs[0].testResultValue.None? then []
    else
      var vs := rs[0].testResultValue.value;
      seq(|vs|, i requires 0 <= i < |vs| => SeriesInfo(vs[i].name.GetOr(""), ColorAt(colors, i)))
  }

  /** The elements of `s` in the opposite order. */
  function Reversed<T>(s: seq<T>): (r: seq<T>)
    ensures |r| == |s|
  {
    if s == [] then [] else [s[|s| - 1]] + Reversed(s[..|s| - 1])
  }

  /** Position `i` of the reversed sequence holds what position `|s| - 1 - i` held. */
  lemma {:induction false} ReversedAt<T>(s: seq<T>)
    ensures forall i :: 0 <= i < |s| ==> Reversed(s)[i] == s[|s| - 1 - i]
  {
    if s != [] {
      var init, last := s[..|s| - 1], s[|s| - 1];
      var rest := Reversed(init);
      ReversedAt(init);
      assert Reversed(s) == [last] + rest;
      forall i | 0 <= i < |s|
        ensures Reversed(s)[i] == s[|s| - 1 - i]
      {
        var j := |s| - 1 - i;
        if i > 0 {
          assert Reversed(s)[i] == rest[i - 1];
          assert rest[i - 1] == init[|init| - 1 - (i - 1)];
          assert |init| - 1 - (i - 1) == j;
          assert init[j] == s[j];
        } else {
          assert j == |s| - 1;
        }
      }
    }
  }

  /** The rows in the order they are pushed: one per result, in input order. */
  function Rows(rs: seq<TestCaseResult>, fmt: int -> string): (rows: seq<Row>)
    ensures |rows| == |rs|
  {
    if rs == [] then [] else Rows(rs[..|rs| - 1], fmt) + [BuildRow(rs[|rs| - 1], fmt)]
  }

  /** The `i`-th pushed row is the row of the `i`-th result. */
  lemma {:induction false} RowsAt(rs: seq<TestCaseResult>, fmt: int -> string)
    ensures forall i :: 0 <= i < |rs| ==> Rows(rs, fmt)[i] == BuildRow(rs[i], fmt)
  {
    if rs != [] {
      var init, last := rs[..|rs| - 1], rs[|rs| - 1];
      var pushed := Rows(init, fmt);
      RowsAt(init, fmt);
      assert Rows(rs, fmt) == pushed + [BuildRow(last, fmt)];
      forall i | 0 <= i < |rs|
        ensures Rows(rs, fmt)[i] == BuildRow(rs[i], fmt)
      {
        if i < |init| {
          assert Rows(rs, fmt)[i] == pushed[i];
          assert init[i] == rs[i];
        } else {
          assert i == |rs| - 1;
          assert rs[i] == last;
        }
      }
    }
  }

  /** The stored rows: the pushed rows reversed, so the oldest result comes first. */
  function DataOf(rs: seq<TestCaseResult>, fmt: int -> string): (data: seq<Row>)
    ensures |data| == |rs|
  {
    Reversed(Rows(rs, fmt))
  }

  /** The stored rows run from the oldest result to the newest. */
  lemma DataOfOrder(rs: seq<TestCaseResult>, fmt: int -> string)
    ensures forall i :: 0 <= i < |rs| ==> DataOf(rs, fmt)[i] == BuildRow(rs[|rs| - 1 - i], fmt)
  {
    var rows := Rows(rs, fmt);
    ReversedAt(rows);
    RowsAt(rs, fmt);
    forall i | 0 <= i < |rs|
      ensures DataOf(rs, fmt)[i] == BuildRow(rs[|rs| - 1 - i], fmt)
    {
      var j := |rs| - 1 - i;
      assert DataOf(rs, fmt)[i] == rows[|rows| - 1 - i];
      assert |rows| - 1 - i == j;
      assert rows[j] == BuildRow(rs[j], fmt);
    }
  }

  /** What the builder stores: the legend and the rows. */
  function ChartDataOf(rs: seq<TestCaseResult>, fmt: int -> string, colors: seq<string>): (cd: ChartData) {
    ChartData(InformationOf(rs, colors), DataOf(rs, fmt))
  }

  /**
   * Last key wins: the entry for a key is the parsed value of the LAST
   * measurement that maps to that key.
   */
  lemma {:induction false} ValuesOfLastWins(vs: seq<TestResultValue>, j: nat)
    requires j < |vs|
    requires forall k :: j < k < |vs| ==> KeyOf(vs[k]) != KeyOf(vs[j])
    ensures KeyOf(vs[j]) in ValuesOf(vs) && ValuesOf(vs)[KeyOf(vs[j])] == Num(ParsedValue(vs[j]))
  {
    if j < |vs| - 1 {
      var init := vs[..|vs| - 1];
      assert forall k :: j < k < |init| ==> init[k] == vs[k];
      ValuesOfLastWins(init, j);
    }
  }

  /** A measurement without a name (or with an empty one) is stored under `"value"`. */
  lemma UnnamedValue(vs: seq<TestResultValue>, j: nat)
    requires j < |vs| && (vs[j].name.None? || vs[j].name == Some(""))
    requires forall k :: j < k < |vs| ==> KeyOf(vs[k]) != "value"
    ensures "value" in ValuesOf(vs) && ValuesOf(vs)["value"] == Num(ParsedValue(vs[j]))
  {
    ValuesOfLastWins(vs, j);
  }

  /** A missing value, an empty one, or one without any digit is stored as 0. */
  lemma ParsedValueWithoutDigits(v: TestResultValue)
    requires forall i :: 0 <= i < |v.value.GetOr("")| ==> !IsDigit(v.value.GetOr("")[i])
    ensures ParsedValue(v) == 0
  {
    ParseIntWithoutDigits(v.value.GetOr(""));
  }

  /** The decimal text of an integer, with anything non-digit after it, is stored as that integer. */
  lemma ParsedValueOfDecimal(name: Option<string>, n: int, rest: string)
    requires rest == [] || !IsDigit(rest[0])
    ensures ParsedValue(TestResultValue(name, Some(Decimal(n) + rest))) == n
  {
    ParseIntOfDecimal(n, rest);
  }

  /** A result without measurements gives a row with only `name` and `status`. */
  lemma RowWithoutValues(r: TestCaseResult, fmt: int -> string)
    requires r.testResultValue.None? || r.testResultValue == Some([])
    ensures BuildRow(r, fmt) == map["name" := Text(fmt(r.timestamp.GetOr(0))), "status" := Text(r.testCaseStatus.GetOr(""))]
  {
    assert ValueList(r) == [];
  }

  /**
   * The legend names the numeric fields of the newest (rightmost) row: a named
   * entry is labelled with its row key, while an unnamed one is labelled `''`
   * although its numbers are stored under `value`.
   */
  lemma LegendMatchesNewestRow(rs: seq<TestCaseResult>, fmt: int -> string, colors: seq<string>, i: nat)
    requires rs != [] && i < |InformationOf(rs, colors)|
    ensures var text, newest := InformationOf(rs, colors)[i].seriesLabel, DataOf(rs, fmt)[|rs| - 1];
      && (text != "" ==> text in newest && newest[text].Num?)
      && (text == "" ==> "value" in newest && newest["value"].Num?)
  {
    var vs := ValueList(rs[0]);
    var last := |rs| - 1;
    DataOfOrder(rs, fmt);
    assert |rs| - 1 - last == 0;
    assert DataOf(rs, fmt)[last] == BuildRow(rs[0], fmt);
    RowContents(rs[0], fmt);
    ValuesOfKeys(vs);
    assert KeyOf(vs[i]) in ValuesOf(vs);
  }

  /** The legend depends on the newest result only. */
  lemma InformationFromNewestOnly(r: TestCaseResult, older: seq<TestCaseResult>, older': seq<TestCaseResult>, colors: seq<string>)
    ensures InformationOf([r] + older, colors) == InformationOf([r] + older', colors)
  {
    assert ([r] + older)[0] == r == ([r] + older')[0];
  }

  lemma ReversedPrepend<T>(x: T, s: seq<T>)
    ensures Reversed([x] + s) == Reversed(s) + [x]
  {
    var lhs, rhs := Reversed([x] + s), Reversed(s) + [x];
    ReversedAt([x] + s);
    ReversedAt(s);
    forall i | 0 <= i < |lhs|
      ensures lhs[i] == rhs[i]
    {
      if i < |s| {
        assert ([x] + s)[|s| - i] == s[|s| - 1 - i];
      }
    }
  }

  lemma RowsPrepend(r: TestCaseResult, rs: seq<TestCaseResult>, fmt: int -> string)
    ensures Rows([r] + rs, fmt) == [BuildRow(r, fmt)] + Rows(rs, fmt)
  {
    var lhs, rhs := Rows([r] + rs, fmt), [BuildRow(r, fmt)] + Rows(rs, fmt);
    RowsAt([r] + rs, fmt);
    RowsAt(rs, fmt);
    forall i | 0 <= i < |lhs|
      ensures lhs[i] == rhs[i]
    {
      if i > 0 {
        assert ([r] + rs)[i] == rs[i - 1];
      }
    }
  }

  /** A newer result, put at the head of the input, becomes the last (rightmost) row. */
  lemma DataOfNewer(r: TestCaseResult, rs: seq<TestCaseResult>, fmt: int -> string)
    ensures DataOf([r] + rs, fmt) == DataOf(rs, fmt) + [BuildRow(r, fmt)]
  {
    RowsPrepend(r, rs, fmt);
    ReversedPrepend(BuildRow(r, fmt), Rows(rs, fmt));
  }

  /** The row of a result with one measurement, stored under a key that overrides nothing. */
  lemma SingleValueRow(ts: int, status: string, key: string, n: int, fmt: int -> string)
    requires key != "" && key != "name" && key != "status"
    ensures BuildRow(TestCaseResult(Some(ts), Some(status), Some([TestResultValue(Some(key), Some(Decimal(n)))])), fmt)
      == map["name" := Text(fmt(ts)), "status" := Text(status), key := Num(n)]
  {
    var v := TestResultValue(Some(key), Some(Decimal(n)));
    var r := TestCaseResult(Some(ts), Some(status), Some([v]));
    ParsedValueOfDecimal(Some(key), n, "");
    assert Decimal(n) + "" == Decimal(n);
    assert ParsedValue(v) == n;
    assert KeyOf(v) == key;
    assert [v][..0] == [];
    assert ValuesOf([v]) == map[key := Num(n)];
    assert ValueList(r) == [v];
    var base := map["name" := Text(fmt(ts)), "status" := Text(status)];
    assert BuildRow(r, fmt) == base + map[key := Num(n)];
  }

  /**
   * Two results, newest first, measuring `rowCount`: the rows come out oldest
   * first and the legend has the one series of the newest result.
   */
  lemma TwoResultsExample(fmt: int -> string, colors: seq<string>)
    ensures var newer := TestCaseResult(Some(100), Some("Success"), Some([TestResultValue(Some("rowCount"), Some("10"))]));
      var older := TestCaseResult(Some(50), Some("Failed"), Some([TestResultValue(Some("rowCount"), Some("5"))]));
      ChartDataOf([newer, older], fmt, colors) == ChartData(
        [SeriesInfo("rowCount", ColorAt(colors, 0))],
        [ map["name" := Text(fmt(50)), "status" := Text("Failed"), "rowCount" := Num(5)],
          map["name" := Text(fmt(100)), "status" := Text("Success"), "rowCount" := Num(10)] ])
  {
    assert Decimal(10) == "10" by {
      assert NatDigits(10) == NatDigits(1) + [DigitChar(0)];
    }
    assert Decimal(5) == "5";
    SingleValueRow(100, "Success", "rowCount", 10, fmt);
    SingleValueRow(50, "Failed", "rowCount", 5, fmt);
    var newer := TestCaseResult(Some(100), Some("Success"), Some([TestResultValue(Some("rowCount"), Some("10"))]));
    var older := TestCaseResult(Some(50), Some("Failed"), Some([TestResultValue(Some("rowCount"), Some("5"))]));
    var data := DataOf([newer, older], fmt);
    DataOfOrder([newer, older], fmt);
    assert data == [BuildRow(older, fmt), BuildRow(newer, fmt)];
  }

  /** Reverses an array in place (`Array.prototype.reverse`). */
  method Reverse<T>(a: array<T>)
    modifies a
    ensures a[..] == Reversed(old(a[..]))
  {
    var lo, hi := 0, a.Length;
    while lo + 1 < hi
      invariant 0 <= lo <= hi <= a.Length && lo + hi == a.Length
      invariant forall k :: 0 <= k < lo ==> a[k] == old(a[a.Length - 1 - k]) && a[a.Length - 1 - k] == old(a[k])
      invariant forall k :: lo <= k < hi ==> a[k] == old(a[k])
    {
      a[lo], a[hi - 1] := a[hi - 1], a[lo];
      lo, hi := lo + 1, hi - 1;
    }
    ReversedAt(old(a[..]));
    assert forall k :: 0 <= k < a.Length ==> a[k] == old(a[a.Length - 1 - k]);
  }

  /**
   * generateChartData: push one row per result in input order into a fresh
   * array, reverse it in place, and pair it with the legend.
   */
  method GenerateChartData(currentData: seq<TestCaseResult>, fmt: int -> string, colors: seq<string>)
    returns (cd: ChartData)
    ensures cd == ChartDataOf(currentData, fmt, colors)
    ensures cd.information == InformationOf(currentData, colors)
    ensures |cd.data| == |currentData|
    ensures forall i :: 0 <= i < |currentData| ==> cd.data[i] == BuildRow(currentData[|currentData| - 1 - i], fmt)
  {
    var chartData := new Row[|currentData|];
    var i := 0;
    while i < |currentData|
      invariant 0 <= i <= |currentData|
      invariant forall k :: 0 <= k < i ==> chartData[k] == BuildRow(currentData[k], fmt)
    {
      chartData[i] := BuildRow(currentData[i], fmt);
      i := i + 1;
    }
    RowsAt(currentData, fmt);
    assert chartData[..] == Rows(currentData, fmt);
    Reverse(chartData);
    cd := ChartData(InformationOf(currentData, colors), chartData[..]);
    DataOfOrder(currentData, fmt);
  }
}
