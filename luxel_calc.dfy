// Dose calculation: SDE and DDE as linear combinations of the readings with
// coefficient sets chosen by label and region, the LDE cap, and the split of
// the SDE into a beta dose and an adjusted SDE.

module LuxelCalc {
  import opened LuxelTypes
  import opened BoundaryLines
  import opened SourceTypeTests
  import opened RadiationQuality
  import opened DoseCoefficients

  /** c1*OW + c2*PL + c3*Al + c4*Cu. */
  function Apply(c: Coefficients, r: Reading): real {
    c.c1 * r.ow + c.c2 * r.pl + c.c3 * r.al + c.c4 * r.cu
  }

  // Fixed SDE and DDE sets of the pure branches.
  const PhotonPHSDE := Coefficients(0.00000000000423273, 0.00000000000048378, 0.00000000000705436, 0.982287)
  const PhotonPLPMSDE := Coefficients(0.983565, -0.677245, -0.131354, 0.76856)
  const BetaBHSDE := Coefficients(0.277212, 0.736014, 0.485456, 0.411977)
  const BetaBLSDE := Coefficients(2.20836, 0.000999875, 0.000999875, 0.000999953)
  const DUSDE := Coefficients(1.43564, -0.83034, -3.3665, 27.0087)
  const PhotonPHDDE := Coefficients(0.00213403, 0.0, 0.0, 1.02008)
  const PhotonPLPMDDE := Coefficients(0.0000000000134875, 0.0487997, 0.150351, 0.600787)

  /**
   * calc_photon_total_SDE. Without a known label photon_rad_quality decides;
   * a label other than PH, PL or PM takes the geometric Mixed BH set.
   */
  function CalcPhotonTotalSDE(r: Reading, knownPhotonRQ: Option<string>): (sde: real)
    requires r.NonZero()
    ensures var rq := if knownPhotonRQ.None? then Text(PhotonRadQuality(r)) else knownPhotonRQ.value;
      sde == Apply(if rq == "PH" then PhotonPHSDE
                   else if rq == "PL" || rq == "PM" then PhotonPLPMSDE
                   else MixedBHSDETable(SelectedRegion(r, None)), r)
  {
    var photonRQ := if knownPhotonRQ.None? then Text(PhotonRadQuality(r)) else knownPhotonRQ.value;
    var c :=
      if photonRQ == "PH" then PhotonPHSDE
      else if photonRQ == "PL" || photonRQ == "PM" then PhotonPLPMSDE
      else GetMixedBHSDECoefficients(r, None);
    c.c1 * r.ow + c.c2 * r.pl + c.c3 * r.al + c.c4 * r.cu
  }

  /**
   * calc_beta_total_SDE. Without a known label beta_rad_quality decides
   * (under the UBeta class when envDU holds); anything but BH or BL takes the
   * geometric Mixed BH set.
   */
  function CalcBetaTotalSDE(r: Reading, knownBetaRQ: Option<string>, envDU: bool): (sde: real)
    requires r.NonZero()
    ensures knownBetaRQ == Some("BH") ==> sde == Apply(BetaBHSDE, r)
    ensures knownBetaRQ == Some("BL") ==> sde == Apply(BetaBLSDE, r)
    ensures knownBetaRQ.Some? && knownBetaRQ.value != "BH" && knownBetaRQ.value != "BL" ==>
              sde == Apply(MixedBHSDETable(SelectedRegion(r, None)), r)
    ensures knownBetaRQ.None? && !envDU ==>
      sde == Apply(if PureBHTest(r) then BetaBHSDE
                   else if PureBLTest(r) then BetaBLSDE
                   else MixedBHSDETable(SelectedRegion(r, None)), r)
    ensures knownBetaRQ.None? && envDU ==> sde == Apply(MixedBHSDETable(SelectedRegion(r, None)), r)
  {
    var betaRQ := if knownBetaRQ.None? then Text(BetaRadQuality(r, envDU)) else knownBetaRQ.value;
    var c :=
      if betaRQ == "BH" then BetaBHSDE
      else if betaRQ == "BL" then BetaBLSDE
      else GetMixedBHSDECoefficients(r, None);
    c.c1 * r.ow + c.c2 * r.pl + c.c3 * r.al + c.c4 * r.cu
  }

  /** calc_DU_total_SDE. */
  function CalcDUTotalSDE(r: Reading): (sde: real)
    ensures sde == Apply(DUSDE, r)
  {
    1.43564 * r.ow + -0.83034 * r.pl + -3.3665 * r.al + 27.0087 * r.cu
  }

  /**
   * calc_mixed_total_SDE. Without a known mixed label the function calls a
   * name that is not defined and raises NameError; Mixed_BL takes its fixed
   * set and every other label the Mixed BH selector with the known source.
   */
  function CalcMixedTotalSDE(r: Reading, knownMixedRQ: Option<string>, knownSource: Option<string>): (o: Outcome<real>)
    requires r.al != 0.0
    ensures o.Raises? <==> knownMixedRQ.None?
    ensures o.Raises? ==> o.error == NameError
    ensures knownMixedRQ == Some("Mixed_BL") ==> o == Returns(Apply(MixedBLSDE, r))
    ensures knownMixedRQ.Some? && knownMixedRQ.value != "Mixed_BL" ==>
      o == Returns(Apply(MixedBHSDETable(SelectedRegion(r, knownSource)), r))
  {
    if knownMixedRQ.None? then Raises(NameError)
    else
      var c := if knownMixedRQ.value == "Mixed_BL" then MixedBLSDE else GetMixedBHSDECoefficients(r, knownSource);
      Returns(c.c1 * r.ow + c.c2 * r.pl + c.c3 * r.al + c.c4 * r.cu)
  }

  /**
   * calc_total_SDE: BL/BH use the beta sets, BH_DU the DU set, PL/PM/PH the
   * photon function (which re-derives the photon label), Mixed_BL its set;
   * any other label is Mixed BH, with M30 when the Mixed BH M30 test holds,
   * else NS20 when the Mixed BH NS20 test holds, else the geometric split.
   */
  function CalcTotalSDE(r: Reading, branchRQ: string): (sde: real)
    requires r.NonZero()
    ensures branchRQ == "BL" ==> sde == Apply(BetaBLSDE, r)
    ensures branchRQ == "BH" ==> sde == Apply(BetaBHSDE, r)
    ensures branchRQ == "BH_DU" ==> sde == Apply(DUSDE, r)
    ensures branchRQ in {"PL", "PM", "PH"} ==> sde == CalcPhotonTotalSDE(r, None)
    ensures branchRQ == "Mixed_BL" ==> sde == Apply(MixedBLSDE, r)
    ensures branchRQ !in {"BL", "BH", "BH_DU", "PL", "PM", "PH", "Mixed_BL"} ==>
      sde == Apply(if MixedBHM30Test(r) then MixedBHM30SDE
                   else if MixedBHNS20Test(r) then MixedBHNS20SDE
                   else MixedBHSDETable(SelectedRegion(r, None)), r)
  {
    if branchRQ == "BL" then CalcBetaTotalSDE(r, Some("BL"), false)
    else if branchRQ == "BH" then CalcBetaTotalSDE(r, Some("BH"), false)
    else if branchRQ == "BH_DU" then CalcDUTotalSDE(r)
    else if branchRQ == "PL" || branchRQ == "PM" || branchRQ == "PH" then CalcPhotonTotalSDE(r, None)
    else if branchRQ == "Mixed_BL" then CalcMixedTotalSDE(r, Some("Mixed_BL"), None).value
    else if MixedBHM30Test(r) then CalcMixedTotalSDE(r, Some("Mixed_BH"), Some("M30")).value
    else if MixedBHNS20Test(r) then CalcMixedTotalSDE(r, Some("Mixed_BH"), Some("NS20")).value
    else CalcMixedTotalSDE(r, Some("Mixed_BH"), None).value
  }

  /**
   * calc_total_DDE: Cu for the three pure beta labels; the Mixed_BL set or
   * the geometric Mixed BH set for labels starting "Mixed_B"; otherwise the
   * photon sets chosen by photon_rad_quality, falling back to the geometric
   * Mixed BH set.
   */
  function CalcTotalDDE(r: Reading, branchRQ: string): (dde: real)
    requires r.NonZero()
    ensures branchRQ in {"BL", "BH", "BH_DU"} ==> dde == r.cu
    ensures branchRQ == "Mixed_BL" ==> dde == Apply(MixedBLDDE, r)
    ensures StartsWith(branchRQ, "Mixed_B") && branchRQ != "Mixed_BL" ==>
              dde == Apply(MixedBHDDETable(SelectedRegion(r, None)), r)
    ensures branchRQ !in {"BL", "BH", "BH_DU"} && !StartsWith(branchRQ, "Mixed_B") ==>
      dde == Apply(match PhotonRadQuality(r)
                   case PH => PhotonPHDDE
                   case PL => PhotonPLPMDDE
                   case PM => PhotonPLPMDDE
                   case _ => MixedBHDDETable(SelectedRegion(r, None)), r)
  {
    var sourceType := if branchRQ == "BL" || branchRQ == "BH" || branchRQ == "BH_DU" then 1 else 0;
    if sourceType == 1 then r.cu
    else
      var c :=
        if StartsWith(branchRQ, "Mixed_B") then
          if branchRQ == "Mixed_BL" then MixedBLDDE else GetMixedBHDDECoefficients(r, None)
        else
          var photonRQ := Text(PhotonRadQuality(r));
          if photonRQ == "PH" then PhotonPHDDE
          else if photonRQ == "PL" || photonRQ == "PM" then PhotonPLPMDDE
          else GetMixedBHDDECoefficients(r, None);
      c.c1 * r.ow + c.c2 * r.pl + c.c3 * r.al + c.c4 * r.cu
  }

  /**
   * calc_LDE: the SDE itself below 1, otherwise the smaller of the SDE and
   * SDE*(1.4 - 1.04*exp(-DDE/SDE)).
   */
  function CalcLDE(dde: real, sde: real, exp: real -> real): (lde: real)
    ensures lde <= sde
    ensures sde < 1.0 ==> lde == sde
    ensures sde >= 1.0 ==> lde == sde || lde == sde * (1.4 - 1.04 * exp(-dde / sde))
    ensures sde >= 1.0 ==> lde <= sde * (1.4 - 1.04 * exp(-dde / sde))
  {
    if sde < 1.0 then sde
    else
      var limit := sde * (1.4 - 1.04 * exp(-dde / sde));
      if limit > sde then sde else sde * (1.4 - 1.04 * exp(-dde / sde))
  }

  /** The remark-carrying result of the beta-dose calculations. */
  datatype BetaDose = BetaDose(betaDose: real, adjustedSDE: real, remark: string)

  /** The DDE the beta-dose calculations use: a zero DDE is replaced by Cu. */
  function EffectiveDDE(cu: real, dde: real): (d: real)
    ensures dde != 0.0 ==> d == dde
    ensures dde == 0.0 ==> d == cu
  {
    if dde == 0.0 then cu else dde
  }

  predicate IsPureBetaText(s: string) {
    s == "BL" || s == "BH" || s == "BH_DU"
  }

  predicate IsPhotonText(s: string) {
    s == "PL" || s == "PM" || s == "PH"
  }

  /**
   * calc_beta_dose on its reachable paths. Without the beta indicator a photon
   * label reaches a misspelled name and raises NameError; any other label
   * gives the error value -1.
   */
  function CalcBetaDose(betaIndicator: bool, cu: real, dde: real, sde: real, radQual: string): (o: Outcome<(real, string)>)
    ensures o.Raises? <==> !betaIndicator && IsPhotonText(radQual)
    ensures o.Raises? ==> o.error == NameError
    ensures betaIndicator ==> o.Returns? && o.value.0 >= 1.0
    ensures betaIndicator ==> (o.value.1 == "M" <==> o.value.0 == 1.0) && (o.value.1 == "M" || o.value.1 == "")
    ensures !betaIndicator && !IsPhotonText(radQual) ==> o == Returns((-1.0, "Beta_Dose_Calc_ERR_" + radQual))
    ensures betaIndicator && IsPureBetaText(radQual) && cu >= 0.1 * sde ==>
              o == Returns(if 0.1 * sde <= 1.0 then (1.0, "M") else (0.1 * sde, ""))
    ensures betaIndicator && !(IsPureBetaText(radQual) && cu >= 0.1 * sde) ==>
              o == Returns(if sde - EffectiveDDE(cu, dde) <= 1.0 then (1.0, "M") else (sde - EffectiveDDE(cu, dde), ""))
  {
    if betaIndicator then
      var dde' := EffectiveDDE(cu, dde);
      var dose :=
        if IsPureBetaText(radQual) then
          var maxPureBetaDose := 0.1 * sde;
          if cu >= maxPureBetaDose then maxPureBetaDose else sde - dde'
        else sde - dde';
      if dose <= 1.0 then Returns((1.0, "M")) else Returns((dose, ""))
    else if IsPhotonText(radQual) then Raises(NameError)
    else Returns((-1.0, "Beta_Dose_Calc_ERR_" + radQual))
  }

  /**
   * calc_beta_dose_and_adjustedSDE. With the beta indicator a pure beta label
   * whose Cu reaches 10% of the SDE assigns the cap to a misspelled local, so
   * the beta dose keeps its initial 1.0 and falls to the "M" minimum. The
   * extremity flag it receives is never read and is not a parameter here.
   */
  function CalcBetaDoseAndAdjustedSDE(betaIndicator: bool, cu: real, dde: real, sde: real, radQual: string,
                                      poAndUBeta: bool, env: EnvClassFlags): (d: BetaDose)
    ensures d.betaDose + d.adjustedSDE == sde
    ensures d.betaDose == 0.0 || d.betaDose >= 1.0
    ensures (poAndUBeta || env.du) && radQual == "P" ==> d.betaDose == 0.0 && d.adjustedSDE == sde
    ensures betaIndicator && !((poAndUBeta || env.du) && radQual == "P") ==> d.betaDose >= 1.0
    ensures betaIndicator ==> d.remark == "" || d.remark == "M"
    ensures !betaIndicator ==> d.betaDose == 0.0
    ensures !betaIndicator ==> d.remark == (if IsPhotonText(radQual) then radQual + "_Photons_Only" else radQual)
    ensures betaIndicator && !((poAndUBeta || env.du) && radQual == "P") && IsPureBetaText(radQual) && cu >= 0.1 * sde ==>
              d == BetaDose(1.0, sde - 1.0, "M")
    ensures betaIndicator && !((poAndUBeta || env.du) && radQual == "P") && !(IsPureBetaText(radQual) && cu >= 0.1 * sde) ==>
              d == (if sde - EffectiveDDE(cu, dde) <= 1.0 then BetaDose(1.0, sde - 1.0, "M")
                    else BetaDose(sde - EffectiveDDE(cu, dde), EffectiveDDE(cu, dde), ""))
    ensures (poAndUBeta || env.du) && radQual == "P" ==>
              d == BetaDose(0.0, sde, if !betaIndicator then "P" else if sde - EffectiveDDE(cu, dde) <= 1.0 then "M" else "")
  {
    var split :=
      if betaIndicator then
        var dde' := EffectiveDDE(cu, dde);
        var (dose, adjusted) :=
          if IsPureBetaText(radQual) then
            var maxPureBetaDose := 0.1 * sde;
            if cu >= maxPureBetaDose then (1.0, sde - 1.0) else (sde - dde', dde')
          else (sde - dde', dde');
        if dose <= 1.0 then BetaDose(1.0, sde - 1.0, "M") else BetaDose(dose, adjusted, "")
      else if IsPhotonText(radQual) then BetaDose(0.0, sde, radQual + "_Photons_Only")
      else BetaDose(0.0, sde, radQual);
    if (poAndUBeta || env.du) && radQual == "P" then BetaDose(0.0, sde, split.remark) else split
  }

  // ---------------------------------------------------------------------
  // Properties

  /**
   * The misspelt cap: for a pure beta label with Cu at or above 10% of the
   * SDE the beta dose is the minimum 1.0 with remark "M", whatever the SDE,
   * whereas calc_beta_dose reports the cap 0.1*SDE for the same inputs.
   */
  lemma CappedBetaDoseIsMinimal(cu: real, dde: real, sde: real, radQual: string)
    requires IsPureBetaText(radQual) && cu >= 0.1 * sde
    ensures CalcBetaDoseAndAdjustedSDE(true, cu, dde, sde, radQual, false, NoEnvClass) == BetaDose(1.0, sde - 1.0, "M")
    ensures sde > 10.0 ==> CalcBetaDose(true, cu, dde, sde, radQual) == Returns((0.1 * sde, ""))
  {
  }

  /** The two beta-dose functions agree away from the misspelt cap and the photon NameError. */
  lemma BetaDoseFunctionsAgree(cu: real, dde: real, sde: real, radQual: string)
    requires !(IsPureBetaText(radQual) && cu >= 0.1 * sde)
    ensures CalcBetaDose(true, cu, dde, sde, radQual).value ==
      (CalcBetaDoseAndAdjustedSDE(true, cu, dde, sde, radQual, false, NoEnvClass).betaDose,
       CalcBetaDoseAndAdjustedSDE(true, cu, dde, sde, radQual, false, NoEnvClass).remark)
  {
  }

  /**
   * For every reading the decision tree labels Mixed_BH, the SDE and the DDE
   * use the fitted sets of one and the same Mixed BH sub-region.
   */
  lemma MixedBHDosesShareRegion(r: Reading)
    requires r.NonZero() && DetermineRadiationQuality(r, false, false) == MixedBH
    ensures exists g :: CalcTotalSDE(r, "Mixed_BH") == Apply(MixedBHSDETable(g), r)
                     && CalcTotalDDE(r, "Mixed_BH") == Apply(MixedBHDDETable(g), r)
  {
    var g := SelectedRegion(r, None);
    assert !PureBHTest(r) && !PurePhotonTest(r);
    assert !PureM30Test(r) && !PureNS20Test(r);
    if MixedBHM30Test(r) {
      assert InBand(r);
      assert g == M30Region;
    } else {
      assert !InBand(r);
      assert !MixedBHNS20Test(r);
    }
    assert CalcTotalSDE(r, "Mixed_BH") == Apply(MixedBHSDETable(g), r);
  }

  /**
   * Called directly with Mixed_BH, a reading in the band that passes the pure
   * M30 test but not the pure BH test gets the NS20 SDE set (the Mixed BH NS20
   * test holds, the M30 one does not) and the M30 DDE set.
   */
  lemma MixedBHDosesDivergeOnPureM30(r: Reading)
    requires r.NonZero() && InBand(r) && PureM30Test(r) && !PureBHTest(r)
    ensures CalcTotalSDE(r, "Mixed_BH") == Apply(MixedBHNS20SDE, r)
    ensures CalcTotalDDE(r, "Mixed_BH") == Apply(MixedBHM30DDE, r)
  {
    NS20M30Exclusive(r);
  }

  /** A concrete reading with that divergence: OW = PL = 2.2, Al = 1, Cu = 0.05. */
  lemma DivergenceWitness()
    ensures var r := Reading(2.2, 2.2, 1.0, 0.05);
      && InBand(r) && PureM30Test(r) && !PureBHTest(r)
      && CalcTotalSDE(r, "Mixed_BH") == Apply(MixedBHNS20SDE, r)
      && CalcTotalDDE(r, "Mixed_BH") == Apply(MixedBHM30DDE, r)
  {
    var r := Reading(2.2, 2.2, 1.0, 0.05);
    assert r.ow / r.cu == 44.0;
    assert r.ow / r.pl == 1.0;
    assert r.ow / r.al == 2.2 && r.pl / r.al == 2.2;
    assert PureM30Test(r);
    assert !PureBHTest(r) by {
      var x := r.ow / r.cu;
      assert 1.0 / x >= 0.15 || !(1.85 < r.ow / r.pl);
      if WithinEllipsoid(x, 1.0, 2.2, BH_X0, BH_Y0, BH_Z0, BH_A * BH_A, BH_B * BH_B, BH_C * BH_C) {
        EllipsoidAxisBound(x, 1.0, 2.2, BH_X0, BH_Y0, BH_Z0, BH_A * BH_A, BH_B * BH_B, BH_C * BH_C);
        BeyondAxis(x, BH_X0, BH_A);
      }
    }
    MixedBHDosesDivergeOnPureM30(r);
  }

  /**
   * With exp(-DDE/SDE) in [0, 1] (a non-negative DDE) the LDE of an SDE of at
   * least 1 lies between 0.36*SDE and the SDE.
   */
  lemma LDEBounds(dde: real, sde: real, exp: real -> real)
    requires sde >= 1.0 && 0.0 <= exp(-dde / sde) <= 1.0
    ensures 0.36 * sde <= CalcLDE(dde, sde, exp) <= sde
  {
    var f := 1.4 - 1.04 * exp(-dde / sde);
    assert f >= 0.36;
    assert sde * f - 0.36 * sde == sde * (f - 0.36);
    assert sde * (f - 0.36) >= 0.0;
  }

  /** When 1.04*exp(-DDE/SDE) <= 0.4 the cap does not bite and the LDE is the SDE. */
  lemma LDEUncapped(dde: real, sde: real, exp: real -> real)
    requires sde >= 1.0 && 1.04 * exp(-dde / sde) <= 0.4
    ensures CalcLDE(dde, sde, exp) == sde
  {
    var f := 1.4 - 1.04 * exp(-dde / sde);
    assert sde * f - sde == sde * (f - 1.0);
    assert sde * (f - 1.0) >= 0.0;
  }

  /** For the pure beta labels the DDE is Cu itself and the SDE uses the label's fixed set. */
  lemma PureBetaDoses(r: Reading, l: Label)
    requires r.NonZero() && l in {BL, BH, BHDU}
    ensures CalcTotalDDE(r, Text(l)) == r.cu
    ensures CalcTotalSDE(r, Text(l)) == Apply(if l == BL then BetaBLSDE else if l == BH then BetaBHSDE else DUSDE, r)
  {
  }
}
