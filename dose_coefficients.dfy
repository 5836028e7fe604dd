// Dose-calculation coefficient sets: the fixed 4-tuples and the Mixed BH
// selectors that split the (PL/Al, OW/Al) plane into three regions.

module DoseCoefficients {
  import opened LuxelTypes
  import opened BoundaryLines

  /** Weights of OW, PL, Al and Cu in a linear dose estimate. */
  datatype Coefficients = Coefficients(c1: real, c2: real, c3: real, c4: real)

  /** The three Mixed BH sub-regions. */
  datatype MixedBHRegion = UpperEnergiesRegion | M30Region | NS20Region

  // SDE sets
  const MixedBLSDE := Coefficients(2.19902, -0.461181, -0.390345, -0.312412)
  const MixedBHM30SDE := Coefficients(1.31327, -1.27113, 0.240387, 3.78949)
  const MixedBHNS20SDE := Coefficients(0.550254, -0.771924, 1.50246, 3.79982)
  const MixedBHUpperEnergiesSDE := Coefficients(1.55768, -0.943272, -0.521712, 0.984623)

  // DDE sets
  const MixedBLDDE := Coefficients(-0.00184938, 0.401851, 0.33279, 0.267751)
  const MixedBHM30DDE := Coefficients(-0.120155, 0.24501, 0.0251505, -0.465947)
  const MixedBHNS20DDE := Coefficients(-0.0254205, 0.171487, -0.128046, -0.392067)
  const MixedBHUpperEnergiesDDE := Coefficients(-0.193218, 0.350681, -0.0533068, 0.742411)

  /** The Mixed BH SDE set fitted for each sub-region. */
  function MixedBHSDETable(g: MixedBHRegion): Coefficients {
    match g
    case UpperEnergiesRegion => MixedBHUpperEnergiesSDE
    case M30Region => MixedBHM30SDE
    case NS20Region => MixedBHNS20SDE
  }

  /** The Mixed BH DDE set fitted for each sub-region. */
  function MixedBHDDETable(g: MixedBHRegion): Coefficients {
    match g
    case UpperEnergiesRegion => MixedBHUpperEnergiesDDE
    case M30Region => MixedBHM30DDE
    case NS20Region => MixedBHNS20DDE
  }

  /**
   * The sub-region a Mixed BH reading belongs to. A known source decides it
   * by name, any unrecognised name meaning the upper energies; without one,
   * OW/Al below the lower line is the upper energies, the closed band up to
   * the upper line is M30 and everything above is NS20.
   */
  function SelectedRegion(r: Reading, knownSource: Option<string>): MixedBHRegion
    requires r.al != 0.0
  {
    match knownSource
    case Some(s) =>
      if s == "M30" then M30Region else if s == "NS20" then NS20Region else UpperEnergiesRegion
    case None =>
      if r.ow / r.al < LowerLine(r.pl, r.al) then UpperEnergiesRegion
      else if r.ow / r.al <= UpperLine(r.pl, r.al) then M30Region
      else NS20Region
  }

  /** get_Mixed_BH_SDE_coefficients. */
  function GetMixedBHSDECoefficients(r: Reading, knownSource: Option<string>): (c: Coefficients)
    requires r.al != 0.0
    ensures c == MixedBHSDETable(SelectedRegion(r, knownSource))
    ensures c == MixedBHM30SDE || c == MixedBHNS20SDE || c == MixedBHUpperEnergiesSDE
  {
    var lower := LowerLine(r.pl, r.al);
    if knownSource.Some? then
      if knownSource.value == "M30" then MixedBHM30SDE
      else if knownSource.value == "NS20" then MixedBHNS20SDE
      else MixedBHUpperEnergiesSDE
    else if r.ow / r.al < lower then MixedBHUpperEnergiesSDE
    else
      var upper := UpperLine(r.pl, r.al);
      if r.ow / r.al >= lower && r.ow / r.al <= upper then MixedBHM30SDE
      else MixedBHNS20SDE
  }

  /** get_Mixed_BH_DDE_coefficients: the same region test, with the DDE sets. */
  function GetMixedBHDDECoefficients(r: Reading, knownSource: Option<string>): (c: Coefficients)
    requires r.al != 0.0
    ensures c == MixedBHDDETable(SelectedRegion(r, knownSource))
    ensures c == MixedBHM30DDE || c == MixedBHNS20DDE || c == MixedBHUpperEnergiesDDE
  {
    var lower := LowerLine(r.pl, r.al);
    if knownSource.Some? then
      if knownSource.value == "M30" then MixedBHM30DDE
      else if knownSource.value == "NS20" then MixedBHNS20DDE
      else MixedBHUpperEnergiesDDE
    else if r.ow / r.al < lower then MixedBHUpperEnergiesDDE
    else
      var upper := UpperLine(r.pl, r.al);
      if r.ow / r.al >= lower && r.ow / r.al <= upper then MixedBHM30DDE
      else MixedBHNS20DDE
  }

  // ---------------------------------------------------------------------
  // Properties

  /** The fitted sets are pairwise distinct, so a set identifies its region. */
  lemma TablesInjective(g1: MixedBHRegion, g2: MixedBHRegion)
    ensures MixedBHSDETable(g1) == MixedBHSDETable(g2) <==> g1 == g2
    ensures MixedBHDDETable(g1) == MixedBHDDETable(g2) <==> g1 == g2
  {
  }

  /** On equal inputs the SDE and DDE selectors pick the same sub-region. */
  lemma SelectorsAgree(r: Reading, knownSource: Option<string>)
    requires r.al != 0.0
    ensures exists g :: GetMixedBHSDECoefficients(r, knownSource) == MixedBHSDETable(g)
                     && GetMixedBHDDECoefficients(r, knownSource) == MixedBHDDETable(g)
  {
    var g := SelectedRegion(r, knownSource);
    assert GetMixedBHSDECoefficients(r, knownSource) == MixedBHSDETable(g);
  }

  /** A known source name decides the set whatever the readings are. */
  lemma KnownSourceIgnoresReadings(r1: Reading, r2: Reading, s: string)
    requires r1.al != 0.0 && r2.al != 0.0
    ensures GetMixedBHSDECoefficients(r1, Some(s)) == GetMixedBHSDECoefficients(r2, Some(s))
    ensures GetMixedBHDDECoefficients(r1, Some(s)) == GetMixedBHDDECoefficients(r2, Some(s))
    ensures s == "M30" ==> GetMixedBHSDECoefficients(r1, Some(s)) == MixedBHM30SDE
    ensures s == "NS20" ==> GetMixedBHSDECoefficients(r1, Some(s)) == MixedBHNS20SDE
    ensures s != "M30" && s != "NS20" ==> GetMixedBHSDECoefficients(r1, Some(s)) == MixedBHUpperEnergiesSDE
  {
  }

  /** Below PL/Al = 18309/14095 the band is empty, so the geometric split never chooses M30. */
  lemma NoM30BelowBandThreshold(r: Reading)
    requires r.al != 0.0 && r.pl / r.al < BandThreshold
    ensures SelectedRegion(r, None) != M30Region
    ensures GetMixedBHSDECoefficients(r, None) != MixedBHM30SDE
    ensures GetMixedBHDDECoefficients(r, None) != MixedBHM30DDE
  {
    BandNonEmptyIff(r.pl, r.al);
  }

  /** Above the upper line the geometric split always chooses NS20. */
  lemma AboveUpperLineIsNS20(r: Reading)
    requires r.al != 0.0 && r.ow / r.al > UpperLine(r.pl, r.al) && r.ow / r.al >= LowerLine(r.pl, r.al)
    ensures GetMixedBHSDECoefficients(r, None) == MixedBHNS20SDE
    ensures GetMixedBHDDECoefficients(r, None) == MixedBHNS20DDE
  {
  }
}
