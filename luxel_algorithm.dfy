// The Luxel+ algorithm: decode the environment class and zone, run the
// error gate, then fill the calculation record stage by stage (branch
// quality, DDE, SDE, LDE, beta indicator, reported quality, beta dose,
// energy), in the standard-error-conditions mode.

module LuxelAlgorithm {
  import opened LuxelTypes
  import opened RadiationQuality
  import opened SourceTypeIndicators
  import opened DoseCoefficients
  import opened LuxelCalc
  import opened ErrorHandling
  import opened Reporting
  import opened Energy

  // Radiation environment class codes.
  const EnvClassPhotonOnly := 3
  const EnvClassUraniumBeta := 6
  const EnvClassXRayOnly := 7

  /** Decoding of the radiation environment class into the flags [PO, DU, XRO]. */
  function DecodeEnvClass(envClass: int): (env: EnvClassFlags)
    ensures env.po <==> envClass == EnvClassPhotonOnly
    ensures env.du <==> envClass == EnvClassUraniumBeta
    ensures env.xro <==> envClass == EnvClassXRayOnly
  {
    if envClass == EnvClassPhotonOnly then EnvClassFlags(true, false, false)
    else if envClass == EnvClassUraniumBeta then EnvClassFlags(false, true, false)
    else if envClass == EnvClassXRayOnly then EnvClassFlags(false, false, true)
    else NoEnvClass
  }

  /** The zone flags: collar or waist, extremity, and photon-only zone. */
  datatype ZoneFlags = ZoneFlags(collarWaist: bool, extremity: bool, poZone: bool)

  /** The extremity zone codes: wrists, ankles and outer extremity. */
  const ExtremityZones: set<string> := {"05", "06", "11", "12", "20"}

  /**
   * Decoding of the zone code: "13" and "14" are collar and waist and count
   * as photon-only zones; the wrist, ankle and outer-extremity codes are
   * extremities; anything else (whole body "01", no code) sets nothing.
   */
  function DecodeZone(zone: Option<string>): (z: ZoneFlags)
    ensures z.collarWaist <==> zone == Some("13") || zone == Some("14")
    ensures z.poZone <==> z.collarWaist
    ensures z.extremity <==> zone.Some? && zone.value in ExtremityZones
    ensures !(z.collarWaist && z.extremity)
  {
    if zone == Some("13") || zone == Some("14") then ZoneFlags(true, false, true)
    else if zone.Some? && (zone.value == "05" || zone.value == "06" || zone.value == "11"
                           || zone.value == "12" || zone.value == "20") then ZoneFlags(false, true, false)
    else ZoneFlags(false, false, false)
  }

  /** The UBeta class together with a photon-only, collar/waist or extremity zone. */
  function UBetaAndPOZone(envClass: int, z: ZoneFlags): bool {
    (z.collarWaist || z.extremity || z.poZone) && DecodeEnvClass(envClass).du
  }

  /**
   * The error value of the record: 0 without an error, 2 when error type 1
   * or 3 is flagged (the reading must be skipped), 1 for any other error.
   */
  function ErrorEffectNumber(isErr: bool, errorsList: seq<PyValue>): (n: int)
    requires |errorsList| == 4
    ensures n == 0 || n == 1 || n == 2
    ensures n == 0 <==> !isErr
    ensures n == 2 <==> isErr && (errorsList[0].Truthy() || errorsList[2].Truthy())
  {
    if isErr then
      if errorsList[0].Truthy() || errorsList[2].Truthy() then 2 else 1
    else 0
  }

  /** The record luxel_plus_calculations, with each value/description pair as two fields. */
  class LuxelPlusCalculations {
    var errorValue: int
    var errorDescr: string
    var dde: real
    var sde: real
    var lde: real
    var branchRQValue: int
    var branchRQDescr: string
    var reportedRQValue: int
    var reportedRQDescr: string
    var betaIndicator: bool
    var betaDose: real
    var betaDoseDescr: string
    var energy: real
    var sdePreadjusted: real
    var knownOW: real
    var knownPL: real
    var knownAl: real
    var knownCu: real
    var knownDDE: real
    var knownSDE: real

    /**
     * The record once every stage has run: the stage values v, the readings
     * as known values and -1 for the known doses.
     */
    constructor (r: Reading, v: Results)
      ensures Snapshot() == v
      ensures knownOW == r.ow && knownPL == r.pl && knownAl == r.al && knownCu == r.cu
      ensures knownDDE == -1.0 && knownSDE == -1.0
    {
      errorValue, errorDescr := v.errorValue, v.errorDescr;
      dde, sde, lde := v.dde, v.sde, v.lde;
      branchRQValue, branchRQDescr := v.branchRQValue, v.branchRQDescr;
      reportedRQValue, reportedRQDescr := v.reportedRQValue, v.reportedRQDescr;
      betaIndicator, betaDose, betaDoseDescr := v.betaIndicator, v.betaDose, v.betaDoseDescr;
      energy, sdePreadjusted := v.energy, v.sdePreadjusted;
      knownOW, knownPL, knownAl, knownCu := r.ow, r.pl, r.al, r.cu;
      knownDDE, knownSDE := -1.0, -1.0;
    }

    /** The stored values. */
    function Snapshot(): Results
      reads this
    {
      Results(errorValue, errorDescr, dde, sde, lde, branchRQValue, branchRQDescr,
              reportedRQValue, reportedRQDescr, betaIndicator, betaDose, betaDoseDescr,
              energy, sdePreadjusted)
    }
  }

  /** Some control value is negative, which is what lets the error gate run to the end. */
  predicate SomeNegative(controlValues: seq<real>) {
    exists i :: 0 <= i < |controlValues| && controlValues[i] < 0.0
  }

  /** The values the record holds once every stage has run. */
  datatype Results = Results(
    errorValue: int, errorDescr: string,
    dde: real, sde: real, lde: real,
    branchRQValue: int, branchRQDescr: string,
    reportedRQValue: int, reportedRQDescr: string,
    betaIndicator: bool, betaDose: real, betaDoseDescr: string,
    energy: real, sdePreadjusted: real)

  /** The error gate's list when it runs to the end. */
  function GateErrorsList(r: Reading): seq<PyValue> {
    [FunctionObject, Boolean(false), NoneValue, Boolean(CheckErrorType4(r))]
  }

  /**
   * The stages of the algorithm after a gate that ran to the end, as values:
   * branch quality, DDE, SDE, LDE, beta indicator, reported quality, beta
   * dose and energy, in that order, the first failure ending the run.
   */
  function StageResults(r: Reading, envClass: int, zone: Option<string>, m: Math): (o: Outcome<Results>)
    requires r.Positive() && GaussWidthDefined(m)
    ensures o == Raises(NameError) <==> UBetaAndPOZone(envClass, DecodeZone(zone))
    // Otherwise only the energy stage can raise: the run returns a record
    // exactly when the energy of the reported label is defined.
    ensures !UBetaAndPOZone(envClass, DecodeZone(zone)) ==>
      var branch := Text(DetermineRadiationQuality(r, false, false));
      var reported := ReportRadiationQuality(r, AssignBetaIndicator(branch), false, DecodeEnvClass(envClass),
                                             DecodeZone(zone).poZone, false, m);
      reported.Returns? && (o.Raises? <==> CalcContinuousEnergy(r, Some(Text(reported.value)), m).Raises?)
    ensures o.Raises? ==> o.error == NameError || o.error == AttributeError
    ensures o.Returns? ==>
      && o.value.errorValue == 2 && o.value.errorDescr == ""
      && o.value.sdePreadjusted == o.value.sde
      && 0 <= o.value.branchRQValue < 8 && o.value.branchRQValue != 1
      && o.value.reportedRQValue in {-1, 0, 2, 3, 4, 5}
      && (o.value.betaDose == 0.0 || o.value.betaDose >= 1.0)
    // Each stored code is the code of the stored label.
    ensures o.Returns? ==>
      && o.value.branchRQValue == ConvertRQStringToInt(o.value.branchRQDescr)
      && o.value.reportedRQValue == ConvertRQStringToInt(o.value.reportedRQDescr)
    ensures o.Returns? && DecodeZone(zone).extremity ==> o.value.dde == 0.0 && o.value.lde == 0.0
    ensures o.Returns? && !DecodeZone(zone).extremity ==> o.value.lde <= o.value.sde
    // Which stage produced each stored value: the doses and the beta indicator
    // come from the branch label, the beta dose and the energy from the
    // reported label.
    ensures o.Returns? ==>
      && o.value.branchRQDescr == Text(DetermineRadiationQuality(r, false, false))
      && o.value.sde == CalcTotalSDE(r, o.value.branchRQDescr)
      && (!DecodeZone(zone).extremity ==>
            o.value.dde == CalcTotalDDE(r, o.value.branchRQDescr) && o.value.lde == CalcLDE(o.value.dde, o.value.sde, m.exp))
      && o.value.betaIndicator == AssignBetaIndicator(o.value.branchRQDescr)
    ensures o.Returns? ==>
      var reported := ReportRadiationQuality(r, o.value.betaIndicator, false, DecodeEnvClass(envClass), DecodeZone(zone).poZone, false, m);
      reported.Returns? && o.value.reportedRQDescr == Text(reported.value)
    ensures o.Returns? ==>
      var split := CalcBetaDoseAndAdjustedSDE(o.value.betaIndicator, r.cu, o.value.dde, o.value.sde, o.value.reportedRQDescr,
                                              false, DecodeEnvClass(envClass));
      o.value.betaDose == split.betaDose && o.value.betaDoseDescr == split.remark
    ensures o.Returns? ==> CalcContinuousEnergy(r, Some(o.value.reportedRQDescr), m) == Returns(o.value.energy)
  {
    var env := DecodeEnvClass(envClass);
    var z := DecodeZone(zone);
    var poAndUBeta := UBetaAndPOZone(envClass, z);
    var errEffectNumber := ErrorEffectNumber(true, GateErrorsList(r));
    var branchRQ := RadiationQuality.RadiationQuality(r, poAndUBeta, env, z.poZone);
    var dde := if z.extremity then 0.0 else CalcTotalDDE(r, Text(branchRQ));
    var sde := CalcTotalSDE(r, Text(branchRQ));
    var lde := if z.extremity then 0.0 else CalcLDE(dde, sde, m.exp);
    var betaIndicator := AssignBetaIndicator(Text(branchRQ));
    var reportedRQ := ReportRadiationQuality(r, betaIndicator, poAndUBeta, env, z.poZone, false, m);
    if reportedRQ.Raises? then Raises(reportedRQ.error)
    else
      var split := CalcBetaDoseAndAdjustedSDE(betaIndicator, r.cu, dde, sde, Text(reportedRQ.value), poAndUBeta, env);
      var energy := CalcContinuousEnergy(r, Some(Text(reportedRQ.value)), m);
      if energy.Raises? then Raises(energy.error)
      else
        BranchCodeNeverDU(r, poAndUBeta, env, z.poZone);
        ReportedCodes(reportedRQ.value);
        Returns(Results(errEffectNumber, "", dde, sde, lde,
                        ConvertRQStringToInt(Text(branchRQ)), Text(branchRQ),
                        ConvertRQStringToInt(Text(reportedRQ.value)), Text(reportedRQ.value),
                        betaIndicator, split.betaDose, split.remark, energy.value, sde))
  }

  /**
   * luxel_plus_algorithm in the standard-error-conditions mode. The error
   * gate raises unless a control value is negative; after it every stage
   * runs, whatever the error value, and a fresh record then holds
   * StageResults. A stage that raises ends the run, so the record is
   * filled once all stages have produced their values.
   */
  method LuxelPlusAlgorithm(r: Reading, envClass: int, zone: Option<string>, controlValues: seq<real>, m: Math,
                            errShared: ErrorCheckValues, cvShared: CVsWithErrFlag)
    returns (o: Outcome<LuxelPlusCalculations>)
    requires r.Positive() && GaussWidthDefined(m)
    modifies errShared, cvShared
    ensures !SomeNegative(controlValues) ==> o == Raises(UnboundLocalError)
    ensures SomeNegative(controlValues) ==> (o.Raises? <==> StageResults(r, envClass, zone, m).Raises?)
    ensures SomeNegative(controlValues) && o.Raises? ==> o.error == StageResults(r, envClass, zone, m).error
    ensures o.Returns? ==> fresh(o.value) && o.value.Snapshot() == StageResults(r, envClass, zone, m).value
    ensures o.Returns? ==> o.value.knownOW == r.ow && o.value.knownPL == r.pl && o.value.knownAl == r.al && o.value.knownCu == r.cu
    ensures o.Returns? ==> o.value.knownDDE == -1.0 && o.value.knownSDE == -1.0
    ensures !SomeNegative(controlValues) ==> unchanged(errShared, cvShared)
    ensures SomeNegative(controlValues) ==>
      && errShared.isErr && errShared.errorsList == GateErrorsList(r)
      && cvShared.cvs == Values(r) && cvShared.errFlag == RatioDifferenceError(r)
  {
    // Environment class and zone.
    var env := DecodeEnvClass(envClass);
    var z := DecodeZone(zone);
    var poAndUBeta := UBetaAndPOZone(envClass, z);

    // Error gate.
    var errConditions := CheckErrorConditions(r, Some(""), controlValues, errShared, cvShared);
    if errConditions.Raises? {
      return Raises(errConditions.error);
    }
    var isErr := errConditions.value.isErr;
    var errorsList := errConditions.value.errorsList;
    var errEffectNumber := ErrorEffectNumber(isErr, errorsList);
    // The flag string is built with "+" expressions whose results are discarded.
    var errFlagString := "";

    // Branch radiation quality, DDE, SDE, LDE and beta indicator.
    var branchRQ := RadiationQuality.RadiationQuality(r, poAndUBeta, env, z.poZone);
    var dde := if z.extremity then 0.0 else CalcTotalDDE(r, Text(branchRQ));
    var sde := CalcTotalSDE(r, Text(branchRQ));
    var lde := if z.extremity then 0.0 else CalcLDE(dde, sde, m.exp);
    var betaIndicator := AssignBetaIndicator(Text(branchRQ));

    // Reported radiation quality.
    var reportedRQ := ReportRadiationQuality(r, betaIndicator, poAndUBeta, env, z.poZone, false, m);
    if reportedRQ.Raises? {
      return Raises(reportedRQ.error);
    }

    // Beta dose, from the reported label.
    var split := CalcBetaDoseAndAdjustedSDE(betaIndicator, r.cu, dde, sde, Text(reportedRQ.value), poAndUBeta, env);

    // Energy, from the reported label.
    var energy := CalcContinuousEnergy(r, Some(Text(reportedRQ.value)), m);
    if energy.Raises? {
      return Raises(energy.error);
    }

    var c := new LuxelPlusCalculations(r, Results(errEffectNumber, errFlagString, dde, sde, lde,
                                                  ConvertRQStringToInt(Text(branchRQ)), Text(branchRQ),
                                                  ConvertRQStringToInt(Text(reportedRQ.value)), Text(reportedRQ.value),
                                                  betaIndicator, split.betaDose, split.remark, energy.value, sde));
    o := Returns(c);
  }

  // ---------------------------------------------------------------------
  // Properties

  /** Each environment class code sets at most one flag, and codes other than 3, 6 and 7 set none. */
  lemma EnvClassFlagsExclusive(envClass: int)
    ensures var env := DecodeEnvClass(envClass);
      !(env.po && env.du) && !(env.po && env.xro) && !(env.du && env.xro)
    ensures envClass !in {3, 6, 7} ==> DecodeEnvClass(envClass) == NoEnvClass
  {
  }

  /** The UBeta-and-PO-zone flag is the UBeta class with a collar, waist or extremity zone. */
  lemma UBetaAndPOZoneIff(envClass: int, zone: Option<string>)
    ensures UBetaAndPOZone(envClass, DecodeZone(zone)) <==>
      envClass == 6 && zone.Some? && zone.value in {"13", "14", "05", "06", "11", "12", "20"}
  {
  }

  /** With the gate's results the error value is always 2: the uncalled function object counts as error type 1. */
  lemma ErrorValueAlwaysTwo(err4: bool)
    ensures ErrorEffectNumber(true, [FunctionObject, Boolean(false), NoneValue, Boolean(err4)]) == 2
  {
  }

  /** The branch label is never "BH_DU", so the branch code is never 1 and never -1. */
  lemma BranchCodeNeverDU(r: Reading, poAndUBeta: bool, env: EnvClassFlags, poZone: bool)
    requires r.NonZero()
    ensures var n := ConvertRQStringToInt(Text(RadiationQuality.RadiationQuality(r, poAndUBeta, env, poZone)));
      0 <= n < 8 && n != 1
  {
    var l := RadiationQuality.RadiationQuality(r, poAndUBeta, env, poZone);
    assert l != BHDU && IsBranchLabel(l);
    StringIntRoundTrip(l);
  }

  /** The codes of the reported labels: "BU" has none and is stored as -1. */
  lemma ReportedCodes(l: Label)
    requires l in {BL, BH, BU, PL, PM, PH}
    ensures ConvertRQStringToInt(Text(l)) in {-1, 0, 2, 3, 4, 5}
    ensures ConvertRQStringToInt(Text(l)) == -1 <==> l == BU
  {
  }

  /** The stored LDE never exceeds the stored SDE, extremity or not, when the SDE is not negative. */
  lemma StoredLDEAtMostSDE(dde: real, sde: real, extremity: bool, m: Math)
    requires sde >= 0.0
    ensures (if extremity then 0.0 else CalcLDE(dde, sde, m.exp)) <= sde
  {
  }
}
