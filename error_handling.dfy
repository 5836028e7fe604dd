// The input error gate: the non-positive shift and test, the four error
// types, and the combined check. Error types 1-3 and the combined check
// write their results onto two shared record objects, modelled as classes.

module ErrorHandling {
  import opened LuxelTypes
  import opened RadiationQuality
  import opened SourceTypeTests

  /** The shared record that error types 1-3 fill in: the element values and a flag. */
  class CVsWithErrFlag {
    var cvs: seq<real>
    var errFlag: bool

    constructor ()
      ensures cvs == [] && !errFlag
    {
      cvs := [];
      errFlag := false;
    }
  }

  /** The shared record that the combined check fills in. */
  class ErrorCheckValues {
    var isErr: bool
    var errorsList: seq<PyValue>

    constructor ()
      ensures !isErr && errorsList == []
    {
      isErr := false;
      errorsList := [];
    }
  }

  function Values(r: Reading): seq<real> {
    [r.ow, r.pl, r.al, r.cu]
  }

  function Min4(r: Reading): (m: real)
    ensures m <= r.ow && m <= r.pl && m <= r.al && m <= r.cu
    ensures m == r.ow || m == r.pl || m == r.al || m == r.cu
  {
    var a := if r.ow <= r.pl then r.ow else r.pl;
    var b := if a <= r.al then a else r.al;
    if b <= r.cu then b else r.cu
  }

  function Abs(x: real): real {
    if x < 0.0 then -x else x
  }

  /** The positive default added on top of |min| when shifting. */
  const ShiftDefault: real := 0.00000001

  /**
   * check_for_negative_elements: when the smallest value is at most zero,
   * every value is shifted by |min| + 1e-8; otherwise nothing changes. The
   * second test (min == 0) sits behind the first and is never taken.
   */
  function CheckForNegativeElements(r: Reading): (s: Reading)
    ensures Min4(r) <= 0.0 ==> s.Positive()
    ensures s.ow - s.pl == r.ow - r.pl && s.pl - s.al == r.pl - r.al && s.al - s.cu == r.al - r.cu
    ensures Min4(r) <= 0.0 ==> s.ow - r.ow == Abs(Min4(r)) + ShiftDefault
    ensures Min4(r) > 0.0 ==> s == r
  {
    var m := Min4(r);
    var shift := if m <= 0.0 then Abs(m) + ShiftDefault else if m == 0.0 then ShiftDefault else 0.0;
    if shift > 0.0 then Reading(r.ow + shift, r.pl + shift, r.al + shift, r.cu + shift) else r
  }

  /** test_for_negative_elements: some value is at most zero. */
  function TestForNegativeElements(r: Reading): (b: bool)
    ensures b <==> Min4(r) <= 0.0
  {
    var minValue := Min4(r);
    minValue <= 0.0
  }

  /**
   * reassign_negative_and_zerovalued_element_values: each non-positive value
   * would be replaced by 1.0, but only the flag is returned.
   */
  function ReassignNegativeAndZeroValuedElementValues(r: Reading): (hadErr: bool)
    ensures hadErr <==> !r.Positive()
  {
    var (v1, e1) := if r.ow <= 0.0 then (1.0, true) else (r.ow, false);
    var (v2, e2) := if r.pl <= 0.0 then (1.0, true) else (r.pl, e1);
    var (v3, e3) := if r.al <= 0.0 then (1.0, true) else (r.al, e2);
    var (v4, e4) := if r.cu <= 0.0 then (1.0, true) else (r.cu, e3);
    var discarded := [v1, v2, v3, v4];
    e4
  }

  /**
   * check_error_type1: flags a non-positive value and zeroes every
   * non-positive value, leaving the others; both go to the shared record.
   */
  method CheckErrorType1(r: Reading, shared: CVsWithErrFlag) returns (result: CVsWithErrFlag)
    modifies shared
    ensures result == shared
    ensures shared.errFlag <==> TestForNegativeElements(r)
    ensures |shared.cvs| == 4
    ensures forall i :: 0 <= i < 4 ==> shared.cvs[i] == (if Values(r)[i] <= 0.0 then 0.0 else Values(r)[i])
  {
    var ow, pl, al, cu := r.ow, r.pl, r.al, r.cu;
    var errFlag;
    if ow <= 0.0 || pl <= 0.0 || al <= 0.0 || cu <= 0.0 {
      if ow <= 0.0 { ow := 0.0; }
      if pl <= 0.0 { pl := 0.0; }
      if al <= 0.0 { al := 0.0; }
      if cu <= 0.0 { cu := 0.0; }
      errFlag := true;
    } else {
      errFlag := false;
    }
    shared.cvs := [ow, pl, al, cu];
    shared.errFlag := errFlag;
    result := shared;
  }

  /**
   * The loop over the control values in check_error_type2 and
   * check_error_conditions. Its only assignment sets nonNegControlValues to
   * false, so the name is bound (to false) exactly when some control value
   * is negative and unbound otherwise (None).
   */
  method ScanControlValues(controlValues: seq<real>) returns (nonNegControlValues: Option<bool>)
    ensures nonNegControlValues.Some? <==> exists i :: 0 <= i < |controlValues| && controlValues[i] < 0.0
    ensures nonNegControlValues != Some(true)
  {
    nonNegControlValues := None;
    var k := 0;
    while k < |controlValues|
      invariant 0 <= k <= |controlValues|
      invariant nonNegControlValues.Some? <==> exists i :: 0 <= i < k && controlValues[i] < 0.0
      invariant nonNegControlValues != Some(true)
    {
      if controlValues[k] < 0.0 {
        nonNegControlValues := Some(false);
      }
      k := k + 1;
    }
  }

  /**
   * check_error_type2. Reading nonNegControlValues raises when no control
   * value is negative; otherwise it is false, the clamp is skipped, and the
   * shared record gets the unchanged values with a false flag.
   */
  method CheckErrorType2(r: Reading, controlValues: seq<real>, shared: CVsWithErrFlag) returns (o: Outcome<CVsWithErrFlag>)
    modifies shared
    ensures (forall i :: 0 <= i < |controlValues| ==> controlValues[i] >= 0.0) ==>
      o == Raises(UnboundLocalError) && unchanged(shared)
    ensures (exists i :: 0 <= i < |controlValues| && controlValues[i] < 0.0) ==>
      o == Returns(shared) && shared.cvs == Values(r) && !shared.errFlag
  {
    var errFlag := false;
    var nonNegControlValues := ScanControlValues(controlValues);
    if nonNegControlValues.None? {
      return Raises(UnboundLocalError);
    }
    // nonNegControlValues is false here, so the clamp to 1.0 never runs.
    shared.cvs := Values(r);
    shared.errFlag := errFlag;
    o := Returns(shared);
  }

  /** One directed pair of check_error_type3: a/b < 0.5 and |a - b| > 10. */
  predicate DirectedPairError(a: real, b: real)
    requires b != 0.0
  {
    a / b < 0.5 && Abs(a - b) > 10.0
  }

  /** The six directed pairs (numerator, denominator) of check_error_type3, as indices into Values. */
  const CheckedPairs: seq<(int, int)> := [(0, 2), (0, 3), (0, 1), (1, 3), (1, 2), (3, 2)]

  /** The flag check_error_type3 computes: one of the six directed pairs fails. */
  function RatioDifferenceError(r: Reading): (b: bool)
    requires r.NonZero()
    ensures b <==> (exists k :: 0 <= k < |CheckedPairs| &&
                      DirectedPairError(Values(r)[CheckedPairs[k].0], Values(r)[CheckedPairs[k].1]))
  {
    var owAl := DirectedPairError(r.ow, r.al);
    var owCu := DirectedPairError(r.ow, r.cu);
    var owPl := DirectedPairError(r.ow, r.pl);
    var plCu := DirectedPairError(r.pl, r.cu);
    var plAl := DirectedPairError(r.pl, r.al);
    var cuAl := DirectedPairError(r.cu, r.al);
    assert owAl == DirectedPairError(Values(r)[CheckedPairs[0].0], Values(r)[CheckedPairs[0].1]);
    assert owCu == DirectedPairError(Values(r)[CheckedPairs[1].0], Values(r)[CheckedPairs[1].1]);
    assert owPl == DirectedPairError(Values(r)[CheckedPairs[2].0], Values(r)[CheckedPairs[2].1]);
    assert plCu == DirectedPairError(Values(r)[CheckedPairs[3].0], Values(r)[CheckedPairs[3].1]);
    assert plAl == DirectedPairError(Values(r)[CheckedPairs[4].0], Values(r)[CheckedPairs[4].1]);
    assert cuAl == DirectedPairError(Values(r)[CheckedPairs[5].0], Values(r)[CheckedPairs[5].1]);
    owAl || owCu || owPl || plCu || plAl || cuAl
  }

  /**
   * check_error_type3: writes the values and the ratio/difference flag to the
   * shared record and returns nothing (None to its caller).
   */
  method CheckErrorType3(r: Reading, shared: CVsWithErrFlag)
    requires r.NonZero()
    modifies shared
    ensures shared.cvs == Values(r)
    ensures shared.errFlag == RatioDifferenceError(r)
  {
    var errFlag := false;
    if RatioDifferenceError(r) {
      errFlag := true;
    }
    shared.cvs := Values(r);
    shared.errFlag := errFlag;
  }

  /**
   * check_error_type4: all four values in (10, 20]. The "P" it assigns to its
   * label parameter is local and never reaches the caller.
   */
  function CheckErrorType4(r: Reading): (b: bool)
    ensures b ==> r.Positive() && Abs(r.ow - r.pl) < 10.0 && Abs(r.ow - r.cu) < 10.0 && Abs(r.pl - r.al) < 10.0
    ensures b <==> forall i :: 0 <= i < 4 ==> 10.0 < Values(r)[i] <= 20.0
  {
    var inRangeOW := 10.0 < r.ow && r.ow <= 20.0;
    var inRangePL := 10.0 < r.pl && r.pl <= 20.0;
    var inRangeAl := 10.0 < r.al && r.al <= 20.0;
    var inRangeCu := 10.0 < r.cu && r.cu <= 20.0;
    assert Values(r)[0] == r.ow && Values(r)[1] == r.pl && Values(r)[2] == r.al && Values(r)[3] == r.cu;
    inRangeOW && inRangePL && inRangeAl && inRangeCu
  }

  /** Python's x != "" with x possibly None. */
  predicate NotEmptyText(x: Option<string>) {
    x.None? || x.value != ""
  }

  /**
   * check_error_conditions. err1 is bound to the uncalled function
   * reassign_negative_and_zerovalued_element_values; the control-value loop
   * raises unless some control value is negative, in which case error type 2
   * is skipped; err3 is the None that check_error_type3 returns; the guard
   * before error type 4 holds for every label.
   */
  method CheckErrorConditions(r: Reading, radQual: Option<string>, controlValues: seq<real>,
                              shared: ErrorCheckValues, cvShared: CVsWithErrFlag) returns (o: Outcome<ErrorCheckValues>)
    requires r.NonZero()
    modifies shared, cvShared
    ensures (forall i :: 0 <= i < |controlValues| ==> controlValues[i] >= 0.0) ==>
      o == Raises(UnboundLocalError) && unchanged(shared, cvShared)
    ensures (exists i :: 0 <= i < |controlValues| && controlValues[i] < 0.0) ==>
      && o == Returns(shared)
      && shared.isErr
      && shared.errorsList == [FunctionObject, Boolean(false), NoneValue, Boolean(CheckErrorType4(r))]
      && cvShared.cvs == Values(r) && cvShared.errFlag == RatioDifferenceError(r)
  {
    var err1 := FunctionObject;
    var err2 := Boolean(false);
    var err4 := Boolean(false);
    var nonNegControlValues := ScanControlValues(controlValues);
    if nonNegControlValues.None? {
      return Raises(UnboundLocalError);
    }
    // nonNegControlValues is false here, so error type 2 is not checked.
    CheckErrorType3(r, cvShared);
    var err3 := NoneValue;
    if radQual.Some? || NotEmptyText(radQual) {
      err4 := Boolean(CheckErrorType4(r));
    }
    var isErr := false;
    if err1.Truthy() || err2.Truthy() || err3.Truthy() || err4.Truthy() {
      isErr := true;
    }
    shared.isErr := isErr;
    shared.errorsList := [err1, err2, err3, err4];
    o := Returns(shared);
  }

  /** isValidRQinput: membership in the eight branch-label strings. */
  function IsValidRQInput(rqInput: string): (b: bool)
    ensures b <==> ConvertRQStringToInt(rqInput) >= 0
  {
    rqInput in ["BL", "BH_DU", "BH", "PL", "PM", "PH", "Mixed_BL", "Mixed_BH"]
  }

  // ---------------------------------------------------------------------
  // Properties

  /** Shifting is idempotent: a shifted reading is positive and is left alone. */
  lemma CheckForNegativeElementsIdempotent(r: Reading)
    ensures CheckForNegativeElements(CheckForNegativeElements(r)) == CheckForNegativeElements(r)
  {
    var s := CheckForNegativeElements(r);
    assert s.Positive() ==> Min4(s) > 0.0;
  }

  /** The shift changes the reading exactly when the test reports a non-positive value. */
  lemma ShiftIffTest(r: Reading)
    ensures CheckForNegativeElements(r) != r <==> TestForNegativeElements(r)
  {
  }

  /** The test and the reassignment report the same flag. */
  lemma ReassignAgreesWithTest(r: Reading)
    ensures ReassignNegativeAndZeroValuedElementValues(r) == TestForNegativeElements(r)
  {
  }

  /** For positive values a directed pair fails exactly when b exceeds both 2a and a + 10. */
  lemma DirectedPairOnPositives(a: real, b: real)
    requires a > 0.0 && b > 0.0
    ensures DirectedPairError(a, b) <==> 2.0 * a < b && b - a > 10.0
  {
    DivCompare(a, b, 0.5);
  }

  /** The guard before error type 4 cannot fail. */
  lemma ErrorType4GuardAlwaysTrue(radQual: Option<string>)
    ensures radQual.Some? || NotEmptyText(radQual)
  {
  }

  /** Readings inside the low-dose window never trip the ratio/difference check. */
  lemma LowDoseWindowHasNoRatioError(r: Reading)
    requires CheckErrorType4(r)
    ensures !RatioDifferenceError(r)
  {
    assert r.Positive();
    forall a, b | 10.0 < a <= 20.0 && 10.0 < b <= 20.0
      ensures !DirectedPairError(a, b)
    {
      var q := a / b;
      assert a == q * b;
      if q < 0.5 {
        assert q * b < 0.5 * b by {
          assert (0.5 - q) * b > 0.0;
        }
      }
    }
    assert Values(r)[0] == r.ow && Values(r)[1] == r.pl && Values(r)[2] == r.al && Values(r)[3] == r.cu;
  }

  /**
   * Only six directions are tested: with OW = 50 and the rest 1 nothing is
   * flagged, while swapping OW and PL flags the OW/PL pair.
   */
  lemma RatioCheckIsDirected()
    ensures !RatioDifferenceError(Reading(50.0, 1.0, 1.0, 1.0))
    ensures RatioDifferenceError(Reading(1.0, 50.0, 1.0, 1.0))
  {
  }

  /** The valid labels are exactly the texts of the eight branch labels. */
  lemma ValidInputsAreBranchLabels(l: Label)
    ensures IsValidRQInput(Text(l)) <==> IsBranchLabel(l)
  {
  }
}
