// Energy estimates: the clamped pure-photon fit in x = (OW/Cu)(Al/PL), the
// fixed pure-beta energies, the Gaussian bridges and the band selection of
// the continuous energy function.

module Energy {
  import opened LuxelTypes
  import opened SourceTypeTests
  import opened RadiationQuality
  import opened SourceTypeIndicators

  /** The element factor x = (OW/Cu)(Al/PL) of the energy fits. */
  function ElemFactor(r: Reading): real
    requires r.NonZero()
  {
    (r.ow / r.cu) * (r.al / r.pl)
  }

  /** On positive readings the element factor is positive. */
  lemma ElemFactorPositive(r: Reading)
    requires r.Positive()
    ensures ElemFactor(r) > 0.0
  {
    var p := r.ow / r.cu;
    var q := r.al / r.pl;
    DivCompare(r.ow, r.cu, 0.0);
    DivCompare(r.al, r.pl, 0.0);
    assert p > 0.0 && q > 0.0;
    assert p * q > 0.0;
  }

  /** The unclamped fit exp(4 - 0.7 log(x + 1.3) + 3/(x + 1.3)) + 12. */
  function PhotonEnergyFit(x: real, m: Math): real
    requires x > -1.3
  {
    m.exp(4.0 + -0.7 * m.log(x - -1.3) + 3.0 / (x - -1.3)) + 12.0
  }

  /**
   * calc_pure_photon_energy: 662 at or below x = 1.055, above it the fit
   * clamped to [16, 662].
   */
  function CalcPurePhotonEnergy(r: Reading, m: Math): (e: real)
    requires r.Positive()
    ensures 16.0 <= e <= 662.0
    ensures ElemFactor(r) <= 1.055 ==> e == 662.0
    ensures ElemFactor(r) > 1.055 && 16.0 <= PhotonEnergyFit(ElemFactor(r), m) <= 662.0 ==>
              e == PhotonEnergyFit(ElemFactor(r), m)
    ensures ElemFactor(r) > 1.055 && PhotonEnergyFit(ElemFactor(r), m) > 662.0 ==> e == 662.0
    ensures ElemFactor(r) > 1.055 && PhotonEnergyFit(ElemFactor(r), m) < 16.0 ==> e == 16.0
  {
    ElemFactorPositive(r);
    var x := ElemFactor(r);
    var energy := PhotonEnergyFit(x, m);
    if x <= 1.055 then 662.0
    else if energy > 662.0 then 662.0
    else if energy < 16.0 then 16.0
    else energy
  }

  /**
   * calc_pure_beta_energy: 620 for "BH_DU", 687 for "BL", 2284 for anything
   * else. Without a label it classifies the reading with beta_rad_quality
   * outside the UBeta class, which never yields "BH_DU".
   */
  function CalcPureBetaEnergy(r: Reading, betaRQInput: Option<string>): (e: real)
    requires r.NonZero()
    ensures e == 620.0 || e == 687.0 || e == 2284.0
    ensures betaRQInput.Some? ==> (e == 620.0 <==> betaRQInput.value == "BH_DU")
    ensures betaRQInput.Some? ==> (e == 687.0 <==> betaRQInput.value == "BL")
    ensures betaRQInput.None? ==> (e == 687.0 <==> PureBLTest(r)) && e != 620.0
  {
    var betaRQ := if betaRQInput.None? then Text(BetaRadQuality(r, false)) else betaRQInput.value;
    if betaRQ == "BH_DU" then 620.0
    else if betaRQ == "BL" then 687.0
    else 2284.0
  }

  /** Python's math library is consistent enough that the Gaussian width is defined. */
  predicate GaussWidthDefined(m: Math) {
    m.sqrt(-2.0 * m.log(0.01)) > 0.0
  }

  /** The exponent -(x - mu)^2 / (2 sigma^2) of a Gaussian, written as -((x - mu)/sigma)^2 / 2. */
  function GaussExponent(x: real, mu: real, sigma: real): real
    requires sigma != 0.0
  {
    var u := (x - mu) / sigma;
    -(u * u) / 2.0
  }

  /**
   * calcGaussianInInterval: a Gaussian of height Amplitude - 16 centred on
   * the interval, lifted by 16, whose width puts the value at 1% of the
   * height at both ends.
   */
  function CalcGaussianInInterval(x: real, xmin: real, xmax: real, amplitude: real, m: Math): real
    requires xmin < xmax && GaussWidthDefined(m)
  {
    var height := amplitude - 16.0;
    var mu := (xmin + xmax) / 2.0;
    var sigma := (xmax - xmin) / (2.0 * m.sqrt(-2.0 * m.log(0.01)));
    height * m.exp(GaussExponent(x, mu, sigma)) + 16.0
  }

  /** At the centre of the interval the Gaussian reaches exactly its amplitude. */
  lemma GaussianPeak(xmin: real, xmax: real, amplitude: real, m: Math)
    requires xmin < xmax && GaussWidthDefined(m) && m.exp(0.0) == 1.0
    ensures CalcGaussianInInterval((xmin + xmax) / 2.0, xmin, xmax, amplitude, m) == amplitude
  {
    var sigma := (xmax - xmin) / (2.0 * m.sqrt(-2.0 * m.log(0.01)));
    assert GaussExponent((xmin + xmax) / 2.0, (xmin + xmax) / 2.0, sigma) == 0.0;
  }

  /** The Gaussian is symmetric about the centre of its interval. */
  lemma GaussianSymmetric(d: real, xmin: real, xmax: real, amplitude: real, m: Math)
    requires xmin < xmax && GaussWidthDefined(m)
    ensures CalcGaussianInInterval((xmin + xmax) / 2.0 + d, xmin, xmax, amplitude, m)
         == CalcGaussianInInterval((xmin + xmax) / 2.0 - d, xmin, xmax, amplitude, m)
  {
    var mu := (xmin + xmax) / 2.0;
    var sigma := (xmax - xmin) / (2.0 * m.sqrt(-2.0 * m.log(0.01)));
    assert (mu - d - mu) / sigma == -((mu + d - mu) / sigma);
    assert GaussExponent(mu + d, mu, sigma) == GaussExponent(mu - d, mu, sigma);
  }

  /** The exponent of a Gaussian is never positive. */
  lemma GaussExponentNonPositive(x: real, mu: real, sigma: real)
    requires sigma != 0.0
    ensures GaussExponent(x, mu, sigma) <= 0.0
  {
    var u := (x - mu) / sigma;
    assert u * u >= 0.0;
  }

  /**
   * When exp maps non-positive arguments into (0, 1], the Gaussian stays
   * strictly above 16 and at most Amplitude, for an Amplitude above 16.
   */
  lemma GaussianBounds(x: real, xmin: real, xmax: real, amplitude: real, m: Math)
    requires xmin < xmax && GaussWidthDefined(m) && amplitude > 16.0
    requires forall t :: t <= 0.0 ==> 0.0 < m.exp(t) <= 1.0
    ensures 16.0 < CalcGaussianInInterval(x, xmin, xmax, amplitude, m) <= amplitude
  {
    var mu := (xmin + xmax) / 2.0;
    var sigma := (xmax - xmin) / (2.0 * m.sqrt(-2.0 * m.log(0.01)));
    GaussExponentNonPositive(x, mu, sigma);
    var g := m.exp(GaussExponent(x, mu, sigma));
    assert 0.0 < g <= 1.0;
    assert CalcGaussianInInterval(x, xmin, xmax, amplitude, m) == (amplitude - 16.0) * g + 16.0;
    ScaledFractionBounds(amplitude - 16.0, g);
  }

  /** A positive height scaled by a factor in (0, 1] stays in (0, height]. */
  lemma ScaledFractionBounds(h: real, g: real)
    requires h > 0.0 && 0.0 < g <= 1.0
    ensures 0.0 < h * g <= h
  {
    assert h - h * g == h * (1.0 - g);
  }

  // Bands of the continuous energy function.
  const DUCentre := 12.89
  const DUHalfWidth := 0.157099
  const Sr90Centre := 17.018
  const Sr90HalfWidth := 0.5

  /** calc_continuous_energy takes the beta path: a label starting "BL" or "BH", or else source type 1. */
  predicate TakesBetaPath(r: Reading, rqInput: Option<string>)
    requires r.NonZero()
  {
    match rqInput
    case Some(s) => StartsWith(s, "BL") || StartsWith(s, "BH")
    case None => SourceTypeIndicator(r, false) == 1
  }

  /**
   * calc_continuous_energy. On the beta path the fixed beta energy of the
   * reading's own beta_rad_quality; otherwise the band of x picks a DU or Sr90
   * Gaussian, the half-Gaussian towards Kr85 (which raises AttributeError,
   * because it calls math.math.sqrt), the Kr85 energy or the photon fit, and
   * a "PH" photon quality below 205 is reset to 662.
   */
  function CalcContinuousEnergy(r: Reading, rqInput: Option<string>, m: Math): (o: Outcome<real>)
    requires r.Positive() && GaussWidthDefined(m)
    ensures o.Raises? <==> !TakesBetaPath(r, rqInput) && 45.0 < ElemFactor(r) < 50.0
    ensures o.Raises? ==> o.error == AttributeError
    ensures TakesBetaPath(r, rqInput) ==>
              o == Returns(if PureBLTest(r) then 687.0 else 2284.0)
    ensures !TakesBetaPath(r, rqInput) && ElemFactor(r) >= 50.0 ==> o == Returns(687.0)
    ensures !TakesBetaPath(r, rqInput) && o.Returns? && PhotonRadQuality(r) == PH ==>
              o.value >= 205.0 && o.value == (if NonBetaBandEnergy(r, m) < 205.0 then 662.0 else NonBetaBandEnergy(r, m))
    ensures !TakesBetaPath(r, rqInput) && o.Returns? && PhotonRadQuality(r) != PH ==>
              o.value == NonBetaBandEnergy(r, m)
  {
    ElemFactorPositive(r);
    var x := ElemFactor(r);
    if TakesBetaPath(r, rqInput) then
      var betaRQ := BetaRadQuality(r, false);
      if betaRQ == BHDU then Returns(620.0)
      else if betaRQ == BL then Returns(687.0)
      else Returns(2284.0)
    else if 45.0 < x < 50.0 then
      Raises(AttributeError)
    else
      var energy := NonBetaBandEnergy(r, m);
      if PhotonRadQuality(r) == PH && energy < 205.0 then Returns(662.0) else Returns(energy)
  }

  /**
   * The energy of the non-beta bands other than the half-Gaussian one: the
   * open DU and Sr90 windows give Gaussians, x >= 50 the Kr85 energy 687,
   * everything else the photon fit.
   */
  function NonBetaBandEnergy(r: Reading, m: Math): (e: real)
    requires r.Positive() && GaussWidthDefined(m) && !(45.0 < ElemFactor(r) < 50.0)
    ensures ElemFactor(r) >= 50.0 ==> e == 687.0
    ensures DUCentre - DUHalfWidth < ElemFactor(r) < DUCentre + DUHalfWidth ==>
              e == CalcGaussianInInterval(ElemFactor(r), DUCentre - DUHalfWidth, DUCentre + DUHalfWidth, 620.0, m)
    ensures Sr90Centre - Sr90HalfWidth < ElemFactor(r) < Sr90Centre + Sr90HalfWidth ==>
              e == CalcGaussianInInterval(ElemFactor(r), Sr90Centre - Sr90HalfWidth, Sr90Centre + Sr90HalfWidth, 2284.0, m)
    ensures (&& ElemFactor(r) < 50.0
             && !(DUCentre - DUHalfWidth < ElemFactor(r) < DUCentre + DUHalfWidth)
             && !(Sr90Centre - Sr90HalfWidth < ElemFactor(r) < Sr90Centre + Sr90HalfWidth)) ==>
              e == CalcPurePhotonEnergy(r, m)
  {
    var x := ElemFactor(r);
    var duMin := DUCentre - DUHalfWidth;
    var duMax := DUCentre + DUHalfWidth;
    var srMin := Sr90Centre - Sr90HalfWidth;
    var srMax := Sr90Centre + Sr90HalfWidth;
    if duMin < x < duMax then CalcGaussianInInterval(x, duMin, duMax, 620.0, m)
    else if srMin < x < srMax then CalcGaussianInInterval(x, srMin, srMax, 2284.0, m)
    else if x >= 50.0 then 687.0
    else CalcPurePhotonEnergy(r, m)
  }

  // ---------------------------------------------------------------------
  // Properties

  /** The beta path of the continuous energy never produces the DU energy 620. */
  lemma ContinuousBetaPathNeverDU(r: Reading, rqInput: Option<string>, m: Math)
    requires r.Positive() && GaussWidthDefined(m) && TakesBetaPath(r, rqInput)
    ensures CalcContinuousEnergy(r, rqInput, m) != Returns(620.0)
    ensures CalcContinuousEnergy(r, rqInput, m) == Returns(CalcPureBetaEnergy(r, None))
  {
  }

  /** A reported "BU" does not start with "BL" or "BH", so it takes the band path. */
  lemma ReportedBUTakesBandPath(r: Reading)
    requires r.NonZero()
    ensures !TakesBetaPath(r, Some("BU"))
  {
    assert "BU"[1] == 'U';
  }

  /** Without a label, the beta path is exactly the pure BL or pure BH reading. */
  lemma UnlabelledBetaPath(r: Reading)
    requires r.NonZero()
    ensures TakesBetaPath(r, None) <==> PureBLTest(r) || PureBHTest(r)
  {
  }
}
