/**
 * Two small rules of the chart: the reference band drawn from exactly two
 * test parameters, and the colour of each data point's dot.
 */
module ChartRules {
  import opened Wrappers
  import opened JsParseInt
  import opened ChartBuilder

  /** A configured parameter of the test definition. */
  datatype TestCaseParameterValue = TestCaseParameterValue(name: Option<string>, value: Option<string>)

  /** The bounds of the shaded band; `None` is NaN (there is no `|| 0` fallback here). */
  datatype Band = Band(y1: Option<int>, y2: Option<int>)

  /** The key `y${i + 1}` the reduce gives to the parameter at position `i`. */
  function YKey(i: nat): (key: string) {
    "y" + NatDigits(i + 1)
  }

  /** Different positions get different keys. */
  lemma YKeyDistinct(i: nat, j: nat)
    requires i != j
    ensures YKey(i) != YKey(j)
  {
    if YKey(i) == YKey(j) {
      assert YKey(i)[1..] == NatDigits(i + 1) && YKey(j)[1..] == NatDigits(j + 1);
      NatDigitsInjective(i + 1, j + 1);
    }
  }

  /** The reduce over the parameters: one key per position, mapped to `parseInt(value || '')`. */
  function YValues(ps: seq<TestCaseParameterValue>): (ys: map<string, Option<int>>) {
    if ps == [] then map[]
    else YValues(ps[..|ps| - 1])[YKey(|ps| - 1) := ParseInt(ps[|ps| - 1].value.GetOr(""))]
  }

  /** The reduce sets no key other than `y1` … `yn`. */
  lemma {:induction false} YValuesKeys(ps: seq<TestCaseParameterValue>, k: string)
    requires k in YValues(ps)
    ensures exists i :: 0 <= i < |ps| && k == YKey(i)
  {
    var n := |ps| - 1;
    if k != YKey(n) {
      YValuesKeys(ps[..n], k);
    }
  }

  /** Keys are distinct, so nothing is overwritten: position `i` keeps its own parsed value. */
  lemma {:induction false} YValuesAt(ps: seq<TestCaseParameterValue>, i: nat)
    requires i < |ps|
    ensures YKey(i) in YValues(ps) && YValues(ps)[YKey(i)] == ParseInt(ps[i].value.GetOr(""))
  {
    var n := |ps| - 1;
    if i < n {
      var init := ps[..n];
      assert init[i] == ps[i];
      YValuesAt(init, i);
      YKeyDistinct(n, i);
    }
  }

  lemma FirstYKeys()
    ensures YKey(0) == "y1" && YKey(1) == "y2"
  {
    assert NatDigits(1) == [DigitChar(1)] == "1";
    assert NatDigits(2) == [DigitChar(2)] == "2";
  }

  /**
   * The reference band: present exactly when there are two parameter values;
   * its bounds are the two parsed values, NaN allowed, in either order.
   */
  function ReferenceBand(parameterValues: Option<seq<TestCaseParameterValue>>): (band: Option<Band>)
    ensures band.Some? <==> parameterValues.Some? && |parameterValues.value| == 2
    ensures band.Some? ==>
      && band.value.y1 == ParseInt(parameterValues.value[0].value.GetOr(""))
      && band.value.y2 == ParseInt(parameterValues.value[1].value.GetOr(""))
  {
    if parameterValues.Some? && |parameterValues.value| == 2 then
      var ps := parameterValues.value;
      FirstYKeys();
      YValuesAt(ps, 0);
      YValuesAt(ps, 1);
      var yValues := YValues(ps);
      Some(Band(yValues["y1"], yValues["y2"]))
    else
      None
  }

  /** The band does not check its bounds: a lower bound above the upper one passes through. */
  lemma BandIsUnordered()
    ensures var ps := [TestCaseParameterValue(Some("minValue"), Some(Decimal(10))),
                       TestCaseParameterValue(Some("maxValue"), Some(Decimal(5)))];
      ReferenceBand(Some(ps)) == Some(Band(Some(10), Some(5)))
  {
    ParseIntOfDecimal(10, "");
    ParseIntOfDecimal(5, "");
    assert Decimal(10) + "" == Decimal(10) && Decimal(5) + "" == Decimal(5);
  }

  /** A missing bound stays NaN rather than becoming 0. */
  lemma BandKeepsNaN(p: TestCaseParameterValue)
    ensures ReferenceBand(Some([TestCaseParameterValue(Some("minValue"), None), p])).value.y1 == None
  {
    ParseIntWithoutDigits("");
  }

  const SuccessStatus: string := "Success"
  const FailedStatus: string := "Failed"
  const SuccessFill: string := "#28A745"
  const FailedFill: string := "#CB2431"
  const OtherFill: string := "#EFAE2F"

  /** updatedDot's fill: strict comparison of the row's `status` with the two statuses. */
  function DotFill(payload: Row): (fill: string)
    ensures fill == SuccessFill <==> "status" in payload && payload["status"] == Text(SuccessStatus)
    ensures fill == FailedFill <==> "status" in payload && payload["status"] == Text(FailedStatus)
    ensures fill == SuccessFill || fill == FailedFill || fill == OtherFill
  {
    if "status" in payload && payload["status"] == Text(SuccessStatus) then SuccessFill
    else if "status" in payload && payload["status"] == Text(FailedStatus) then FailedFill
    else OtherFill
  }

  /**
   * On a built row the dot follows the result's status, unless a measurement
   * named `status` replaced it by a number, which matches neither status.
   */
  lemma DotFillOfRow(r: TestCaseResult, fmt: int -> string)
    ensures var status := r.testCaseStatus.GetOr("");
      DotFill(BuildRow(r, fmt)) ==
        if "status" in ValuesOf(ValueList(r)) then OtherFill
        else if status == SuccessStatus then SuccessFill
        else if status == FailedStatus then FailedFill
        else OtherFill
  {
    RowContents(r, fmt);
  }
}
