// The radiation-quality classifier: beta and photon sub-classifiers, the
// priority decision tree (pure beta, then pure photon, then the mixed split)
// and the label <-> integer code tables.

module RadiationQuality {
  import opened LuxelTypes
  import opened BoundaryLines
  import opened SourceTypeTests

  /**
   * beta_rad_quality. Under the UBeta class only a pure DU (1.94 window) is
   * accepted and "-1" reports its absence. Otherwise a pure beta is BH when
   * the BH test passes, else BH_DU when the 2.15 window holds, else BL; a
   * reading that is no pure beta is Mixed_BH.
   *
   * Without the UBeta class BH_DU is never returned: a pure beta that is not
   * BH passes the BL test, whose OW/PL > 4 contradicts the window's OW/PL < 4.
   */
  function BetaRadQuality(r: Reading, envDU: bool): (l: Label)
    requires r.NonZero()
    ensures envDU ==> (l == BHDU <==> DUWindow(r, 1.94)) && (l == BHDU || l == MinusOne)
    ensures !envDU ==> l in {BL, BH, MixedBH}
    ensures !envDU ==> (l == BL <==> PureBLTest(r))
    ensures !envDU ==> (l == BH <==> PureBHTest(r))
    ensures !envDU ==> (l == MixedBH <==> !PureBLTest(r) && !PureBHTest(r))
  {
    BLBHExclusive(r);
    if envDU then
      if PureBetaTest(r, true, envDU) then BHDU else MinusOne
    else
      var pureDU := PureBetaTest(r, true, envDU);
      if PureBetaTest(r, false, envDU) then
        if PureBHTest(r) then BH
        else if pureDU then BHDU
        else BL
      else MixedBH
  }

  /**
   * photon_rad_quality: Mixed_BH when the pure-photon test fails; PL for a
   * pure NS20 or M30; otherwise PH from Cu/OW >= 0.75, PM strictly between
   * 0.155 and 0.75, and PL at or below 0.155.
   */
  function PhotonRadQuality(r: Reading): (l: Label)
    requires r.NonZero()
    ensures l in {PL, PM, PH, MixedBH}
    ensures l == MixedBH <==> !PurePhotonTest(r)
    ensures PureNS20Test(r) || PureM30Test(r) ==> l == PL
    ensures l == PH <==> PurePhotonTest(r) && !PureNS20Test(r) && !PureM30Test(r) && 0.75 <= r.cu / r.ow
    ensures l == PM <==> PurePhotonTest(r) && !PureNS20Test(r) && !PureM30Test(r) && 0.155 < r.cu / r.ow < 0.75
  {
    var cuow := r.cu / r.ow;
    if PurePhotonTest(r) then
      if PureNS20Test(r) || PureM30Test(r) then PL
      else if 0.75 <= cuow then PH
      else if 0.155 < cuow && cuow < 0.75 then PM
      else PL
    else MixedBH
  }

  /** mixed_BetasPhotons_radiation_quality: the split along the Mixed BH/BL line. */
  function MixedBetasPhotonsRadiationQuality(r: Reading): (l: Label)
    requires r.NonZero()
    ensures l in {MixedBL, MixedBH}
    ensures l == MixedBL <==> r.ow / r.pl > MixedBLLine(r.cu, r.ow)
  {
    if r.ow / r.pl > MixedBLLine(r.cu, r.ow) then MixedBL else MixedBH
  }

  /**
   * determine_radiation_quality. The two flag arguments are overwritten before
   * they are read, so the result depends on the readings alone.
   */
  function DetermineRadiationQuality(r: Reading, pureBetaSource: bool, purePhotonSource: bool): (l: Label)
    requires r.NonZero()
    ensures IsBranchLabel(l) && l != BHDU
    ensures l in {BL, BH} <==> PureBLTest(r) || PureBHTest(r)
    ensures l in {PL, PM, PH} <==> !PureBLTest(r) && !PureBHTest(r) && PurePhotonTest(r)
    ensures l in {MixedBL, MixedBH} <==> !PureBLTest(r) && !PureBHTest(r) && !PurePhotonTest(r)
  {
    var pureBeta := PureBetaTest(r, false, false);
    if pureBeta then BetaRadQuality(r, false)
    else
      var purePhoton := PurePhotonTest(r);
      if purePhoton then PhotonRadQuality(r)
      else
        var boundary := MixedBLLine(r.cu, r.ow);
        if r.ow / r.pl > boundary then MixedBL else MixedBH
  }

  /**
   * radiation_quality on the standard-error path. The PO-and-UBeta case either
   * returns determine_radiation_quality at once or falls through; the forced
   * photon case only sets flags that determine_radiation_quality overwrites.
   */
  function RadiationQuality(r: Reading, poAndUBeta: bool, env: EnvClassFlags, poZone: bool): (l: Label)
    requires r.NonZero()
    ensures l == DetermineRadiationQuality(r, false, false)
  {
    if poAndUBeta && BetaRadQuality(r, env.du) == MinusOne then
      DetermineRadiationQuality(r, false, false)
    else
      var forcePhoton := (env.po || env.xro || poZone) && !env.du;
      var pureBeta := if forcePhoton then false else PureBetaTest(r, false, false);
      var purePhoton := forcePhoton;
      DetermineRadiationQuality(r, pureBeta, purePhoton)
  }

  // ---------------------------------------------------------------------
  // Code tables

  /** The branch labels in the order of their integer codes 0..7. */
  const BranchLabels: seq<Label> := [BL, BHDU, BH, PL, PM, PH, MixedBH, MixedBL]

  /**
   * convert_RQ_string_to_int. The source runs eight independent ifs, so the
   * last matching one wins; the strings differ, so at most one matches.
   */
  function ConvertRQStringToInt(s: string): (n: int)
    ensures -1 <= n < |BranchLabels|
    ensures 0 <= n ==> Text(BranchLabels[n]) == s
    ensures n == -1 <==> forall i :: 0 <= i < |BranchLabels| ==> Text(BranchLabels[i]) != s
  {
    if s == "Mixed_BL" then 7
    else if s == "Mixed_BH" then 6
    else if s == "PH" then 5
    else if s == "PM" then 4
    else if s == "PL" then 3
    else if s == "BH" then 2
    else if s == "BH_DU" then 1
    else if s == "BL" then 0
    else -1
  }

  /** convert_RQ_int_to_string: the label text for 0..7, the empty string otherwise. */
  function ConvertRQIntToString(n: int): (s: string)
    ensures 0 <= n < |BranchLabels| ==> s == Text(BranchLabels[n])
    ensures !(0 <= n < |BranchLabels|) ==> s == ""
  {
    if n == 7 then "Mixed_BL"
    else if n == 6 then "Mixed_BH"
    else if n == 5 then "PH"
    else if n == 4 then "PM"
    else if n == 3 then "PL"
    else if n == 2 then "BH"
    else if n == 1 then "BH_DU"
    else if n == 0 then "BL"
    else ""
  }

  // ---------------------------------------------------------------------
  // Properties

  /** Every branch label has a code, and the code table lists each label once. */
  lemma BranchLabelsComplete(l: Label)
    ensures IsBranchLabel(l) <==> l in BranchLabels
  {
  }

  /** String -> int -> string is the identity on the eight branch labels. */
  lemma StringIntRoundTrip(l: Label)
    requires IsBranchLabel(l)
    ensures ConvertRQIntToString(ConvertRQStringToInt(Text(l))) == Text(l)
  {
    var n := ConvertRQStringToInt(Text(l));
    assert BranchLabels[ConvertRQStringToInt(Text(l))] == l by {
      assert l in BranchLabels;
      var i :| 0 <= i < |BranchLabels| && BranchLabels[i] == l;
      TextInjective(BranchLabels[n], l);
    }
  }

  /** Int -> string -> int is the identity on 0..7. */
  lemma IntStringRoundTrip(n: int)
    requires 0 <= n < |BranchLabels|
    ensures ConvertRQStringToInt(ConvertRQIntToString(n)) == n
  {
    var m := ConvertRQStringToInt(ConvertRQIntToString(n));
    assert 0 <= m by {
      assert Text(BranchLabels[n]) == ConvertRQIntToString(n);
    }
    TextInjective(BranchLabels[m], BranchLabels[n]);
  }

  /** Any other string converts to -1, any other int to "". */
  lemma ConvertOutsideTable(s: string, n: int)
    requires forall l :: IsBranchLabel(l) ==> Text(l) != s
    requires n < 0 || 7 < n
    ensures ConvertRQStringToInt(s) == -1
    ensures ConvertRQIntToString(n) == ""
  {
  }

  /** A pure BL reading is classified BL: the BH test is excluded and the DU window needs OW/PL < 4. */
  lemma PureBLIsBL(r: Reading)
    requires r.NonZero() && PureBLTest(r)
    ensures BetaRadQuality(r, false) == BL
    ensures DetermineRadiationQuality(r, false, false) == BL
  {
  }

  /** On the photon path the Cu/OW threshold 0.155 itself is PL, not PM. */
  lemma PhotonThresholdIsPL(r: Reading)
    requires r.NonZero() && PurePhotonTest(r) && r.cu / r.ow == 0.155
    ensures PhotonRadQuality(r) == PL
  {
  }

  /**
   * For positive readings PH needs no NS20/M30 exclusion: Cu/OW >= 0.75 puts
   * OW/Cu at or below 4/3, far from the NS20 threshold 59.5 and from the M30
   * box and ellipsoid, which need OW/Cu above 22.8.
   */
  lemma PhotonPHOnReadings(r: Reading)
    requires r.Positive()
    ensures PhotonRadQuality(r) == PH <==> PurePhotonTest(r) && 0.75 <= r.cu / r.ow
  {
    DivCompare(r.cu, r.ow, 0.75);
    if 0.75 <= r.cu / r.ow {
      var x := r.ow / r.cu;
      DivCompare(r.ow, r.cu, 4.0 / 3.0);
      assert x <= 4.0 / 3.0;
      var y, z := r.ow / r.pl, r.ow / r.al;
      if PureM30Test(r) {
        EllipsoidAxisBound(x, y, z, M30_X0, M30_Y0, M30_Z0, M30_A * M30_A, M30_B * M30_B, M30_C * M30_C);
        BeyondAxis(x, M30_X0, M30_A);
      }
    }
  }

  /** The UBeta class yields BH_DU exactly on the 1.94 DU window, and "-1" elsewhere. */
  lemma UBetaBetaQuality(r: Reading)
    requires r.NonZero()
    ensures BetaRadQuality(r, true) == (if DUWindow(r, 1.94) then BHDU else MinusOne)
  {
  }

  /** When neither pure test passes, the decision tree ends in the mixed split. */
  lemma MixedBranchIsMixedSplit(r: Reading)
    requires r.NonZero() && !PureBetaTest(r, false, false) && !PurePhotonTest(r)
    ensures DetermineRadiationQuality(r, false, false) == MixedBetasPhotonsRadiationQuality(r)
  {
  }

  /** Every pure photon that is not pure beta gets photon_rad_quality's label, which is never Mixed_BH there. */
  lemma PhotonBranchIsPhotonQuality(r: Reading)
    requires r.NonZero() && !PureBetaTest(r, false, false) && PurePhotonTest(r)
    ensures DetermineRadiationQuality(r, false, false) == PhotonRadQuality(r) != MixedBH
  {
  }
}
