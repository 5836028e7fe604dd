// Reporting radiation quality: the label written to the report, derived
// from the source type, the photon energy bands and the environment flags.
// It is never used for branching.

module Reporting {
  import opened LuxelTypes
  import opened SourceTypeTests
  import opened RadiationQuality
  import opened SourceTypeIndicators
  import opened Energy

  /**
   * determine_report_radiation_quality, as the list [report, beta, photon].
   * A pure photon (source type 2) is reported by the band of its photon
   * energy, with an empty beta label; everything else is reported as "BH",
   * qualified "P" when the PO&UBeta flag, the DU flag or the beta indicator
   * is set and "PB" otherwise.
   */
  function DetermineReportRadiationQuality(r: Reading, sourceType: int, poAndUBeta: bool, envDU: bool,
                                           betaIndicator: bool, m: Math): (q: seq<Label>)
    requires r.Positive()
    ensures |q| == 3
    ensures sourceType == 2 ==> q[0] in {PL, PM, PH} && q[1] == Blank && q[2] == q[0]
    ensures sourceType == 2 ==> (q[0] == PH <==> CalcPurePhotonEnergy(r, m) >= 205.0)
    ensures sourceType == 2 ==> (q[0] == PM <==> 43.0 < CalcPurePhotonEnergy(r, m) < 204.0)
    ensures sourceType != 2 ==> q[0] == BH && q[1] == q[2] && q[1] in {P, PB}
    ensures sourceType != 2 ==> (q[1] == P <==> poAndUBeta || envDU || betaIndicator)
  {
    var photonEnergy := CalcPurePhotonEnergy(r, m);
    if sourceType == 2 then
      var band := if photonEnergy >= 205.0 then PH
                  else if photonEnergy > 43.0 && photonEnergy < 204.0 then PM
                  else PL;
      [band, Blank, band]
    else
      var qualifier := if poAndUBeta || envDU || betaIndicator then P else PB;
      [BH, qualifier, qualifier]
  }

  /** The photon-only condition: a PO or XRO class or a PO zone, but not the UBeta class. */
  predicate ForcesPhotonOnly(env: EnvClassFlags, poZone: bool) {
    (env.po || env.xro || poZone) && !env.du
  }

  /** The relabelling of a beta label for the report. */
  function ReportBetaLabel(l: Label): (k: Label)
    ensures l == BHDU ==> k == BU
    ensures l == MixedBH ==> k == BH
    ensures l != BHDU && l != MixedBH ==> k == l
  {
    if l == BHDU then BU else if l == MixedBH then BH else l
  }

  /**
   * report_radiation_quality. With the PO&UBeta flag it raises NameError
   * (the beta call names an undefined CU). Otherwise the photon-only
   * condition forces source type 2; a pure beta reports its relabelled
   * beta_rad_quality; anything else reports through
   * DetermineReportRadiationQuality. With return_special_rq the beta label
   * is returned instead of the report.
   */
  function ReportRadiationQuality(r: Reading, betaIndicator: bool, poAndUBeta: bool, env: EnvClassFlags,
                                  poZone: bool, returnSpecialRQ: bool, m: Math): (o: Outcome<Label>)
    requires r.Positive()
    ensures o.Raises? <==> poAndUBeta
    ensures o.Raises? ==> o.error == NameError
    ensures !poAndUBeta && !returnSpecialRQ ==> o.value in {BL, BH, BU, PL, PM, PH}
    ensures !poAndUBeta && returnSpecialRQ ==> o.value in {BL, BH, BU, Blank, P, PB}
    ensures !poAndUBeta && ForcesPhotonOnly(env, poZone) ==>
              o.value == DetermineReportRadiationQuality(r, 2, false, false, betaIndicator, m)[if returnSpecialRQ then 1 else 0]
    ensures !poAndUBeta && !ForcesPhotonOnly(env, poZone) && SourceTypeIndicator(r, env.du) == 1 ==>
              o.value == ReportBetaLabel(BetaRadQuality(r, env.du))
    ensures !poAndUBeta && !ForcesPhotonOnly(env, poZone) && SourceTypeIndicator(r, env.du) == 2 ==>
              o.value == DetermineReportRadiationQuality(r, 2, false, env.du, betaIndicator, m)[if returnSpecialRQ then 1 else 0]
    ensures !poAndUBeta && !ForcesPhotonOnly(env, poZone) && SourceTypeIndicator(r, env.du) == -1 ==>
              o.value == (if !returnSpecialRQ then BH else if env.du || betaIndicator then P else PB)
  {
    if poAndUBeta then Raises(NameError)
    else
      var sourceType0 := if ForcesPhotonOnly(env, poZone) then 2 else SourceTypeIndicator(r, env.du);
      var sourceType := if sourceType0 == 0 then -1 else sourceType0;
      if sourceType == 1 then
        BetaRQOfReport(r, env.du)
      else
        var values := DetermineReportRadiationQuality(r, sourceType, poAndUBeta, env.du, betaIndicator, m);
        Returns(if returnSpecialRQ then values[1] else values[0])
  }

  /** The source-type-1 branch: the report and the special label are both the relabelled beta label. */
  function BetaRQOfReport(r: Reading, envDU: bool): (o: Outcome<Label>)
    requires r.Positive() && SourceTypeIndicator(r, envDU) == 1
    ensures o.Returns? && o.value in {BL, BH, BU}
    ensures envDU ==> o.value == BU
  {
    Returns(ReportBetaLabel(BetaRadQuality(r, envDU)))
  }

  // ---------------------------------------------------------------------
  // Properties

  /** An energy in [204, 205) falls between the PM and PH bands and is reported "PL". */
  lemma EnergyGapReportsPL(r: Reading, m: Math)
    requires r.Positive() && 204.0 <= CalcPurePhotonEnergy(r, m) < 205.0
    ensures DetermineReportRadiationQuality(r, 2, false, false, false, m)[0] == PL
  {
  }

  /** A pure beta reading never needs the "Mixed_BH" relabelling: its beta label is BL, BH or BH_DU. */
  lemma PureBetaNeverMixedBH(r: Reading, envDU: bool)
    requires r.Positive() && SourceTypeIndicator(r, envDU) == 1
    ensures BetaRadQuality(r, envDU) in {BL, BH, BHDU}
    ensures !envDU ==> BetaRadQuality(r, envDU) != BHDU
  {
  }

  /** Under the UBeta class a reported beta is always "BU". */
  lemma UBetaPureBetaReportsBU(r: Reading, m: Math, betaIndicator: bool, poZone: bool, returnSpecialRQ: bool)
    requires r.Positive() && DUWindow(r, 1.94)
    ensures ReportRadiationQuality(r, betaIndicator, false, EnvClassFlags(false, true, false), poZone, returnSpecialRQ, m)
         == Returns(BU)
  {
  }

  /** The photon-only condition makes the report depend on the photon energy alone. */
  lemma ForcedPhotonDependsOnEnergyOnly(r1: Reading, r2: Reading, m: Math, env: EnvClassFlags, poZone: bool, b1: bool, b2: bool)
    requires r1.Positive() && r2.Positive() && ForcesPhotonOnly(env, poZone)
    requires CalcPurePhotonEnergy(r1, m) == CalcPurePhotonEnergy(r2, m)
    ensures ReportRadiationQuality(r1, b1, false, env, poZone, false, m)
         == ReportRadiationQuality(r2, b2, false, env, poZone, false, m)
  {
  }
}
