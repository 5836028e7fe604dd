// Boolean source-type tests over ratios of the four readings: strict and
// closed thresholds, two axis-aligned ellipsoids, the boundary lines and a
// piecewise parabola/line boundary. All of them take the standard-error path,
// which never rewrites the readings.

module SourceTypeTests {
  import opened LuxelTypes
  import opened BoundaryLines

  /** Comparing a ratio with a constant is comparing the numerator with a multiple of a positive denominator. */
  lemma DivCompare(n: real, d: real, k: real)
    requires d > 0.0
    ensures n / d > k <==> n > k * d
    ensures n / d >= k <==> n >= k * d
    ensures n / d < k <==> n < k * d
    ensures n / d <= k <==> n <= k * d
  {
    var q := n / d;
    assert n == q * d;
    assert n - k * d == (q - k) * d;
    if q > k {
      assert (q - k) * d > 0.0;
    } else if q < k {
      assert (k - q) * d > 0.0;
    }
  }

  /**
   * Closed axis-aligned ellipsoid test with centre (x0, y0, z0); a2, b2 and c2
   * are the squared semi-axes.
   */
  predicate WithinEllipsoid(x: real, y: real, z: real, x0: real, y0: real, z0: real, a2: real, b2: real, c2: real)
    requires a2 > 0.0 && b2 > 0.0 && c2 > 0.0
  {
    (x - x0) * (x - x0) / a2 + (y - y0) * (y - y0) / b2 + (z - z0) * (z - z0) / c2 <= 1.0
  }

  // Pure BH (Sr90) ellipsoid in (OW/Cu, OW/PL, OW/Al).
  const BH_X0: real := 19.829787
  const BH_A: real := 9.5083431
  const BH_Y0: real := 1.7589584
  const BH_B: real := 0.26849493
  const BH_Z0: real := 2.6139127
  const BH_C: real := 0.49276144

  // Pure M30 ellipsoid in (OW/Cu, OW/PL, OW/Al).
  const M30_X0: real := 48.408094
  const M30_A: real := 25.591335
  const M30_Y0: real := 1.0582187
  const M30_B: real := 0.11519215
  const M30_Z0: real := 2.1337529
  const M30_C: real := 0.28750167

  /** Pure BL beta (Kr85): OW/PL above 4 and Cu/OW below 0.125, both strict. */
  predicate PureBLTest(r: Reading)
    requires r.NonZero()
  {
    r.ow / r.pl > 4.0 && r.cu / r.ow < 0.125
  }

  /** Pure BH beta (Sr90): the box in front of the ellipsoid, else the ellipsoid. */
  predicate PureBHTest(r: Reading)
    requires r.NonZero()
  {
    var x := r.ow / r.cu;
    var y := r.ow / r.pl;
    var z := r.ow / r.al;
    if 1.0 / x < 0.15 && 1.85 < y && y < 2.5 && z < 4.0 then true
    else WithinEllipsoid(x, y, z, BH_X0, BH_Y0, BH_Z0, BH_A * BH_A, BH_B * BH_B, BH_C * BH_C)
  }

  /** Pure NS20 photons: OW/Cu at least 59.5 and OW/Al in the closed window [2.5890474, 5.0]. */
  predicate PureNS20Test(r: Reading)
    requires r.NonZero()
  {
    var owcu := r.ow / r.cu;
    var owal := r.ow / r.al;
    if owcu >= 59.5 then 2.5890474 <= owal && owal <= 5.0 else false
  }

  /** Pure M30 photons: the wide box, else the M30 ellipsoid. */
  predicate PureM30Test(r: Reading)
    requires r.NonZero()
  {
    var owcu := r.ow / r.cu;
    var owpl := r.ow / r.pl;
    var owal := r.ow / r.al;
    if owcu > 30.5 && owpl < 1.05 && 1.83 < owal && owal < 2.41 then true
    else WithinEllipsoid(owcu, owpl, owal, M30_X0, M30_Y0, M30_Z0, M30_A * M30_A, M30_B * M30_B, M30_C * M30_C)
  }

  /** OW/Al lies in the closed band between the lower and the upper line. */
  predicate InBand(r: Reading)
    requires r.NonZero()
  {
    r.ow / r.al >= LowerLine(r.pl, r.al) && r.ow / r.al <= UpperLine(r.pl, r.al)
  }

  predicate MixedBHM30Test(r: Reading)
    requires r.NonZero()
  {
    if InBand(r) then !(PureBHTest(r) || PureM30Test(r)) else false
  }

  predicate MixedBHNS20Test(r: Reading)
    requires r.NonZero()
  {
    if InBand(r) then !(PureBHTest(r) || PureNS20Test(r)) else false
  }

  /** The DU window: lower < OW/PL < 4.0 and Cu/OW < 0.125. */
  predicate DUWindow(r: Reading, lower: real)
    requires r.NonZero()
  {
    lower < r.ow / r.pl && r.ow / r.pl < 4.0 && r.cu / r.ow < 0.125
  }

  /** The lower OW/PL limit of the DU window: eased to 1.94 for the UBeta class. */
  function DULowerLimit(envDU: bool): real {
    if envDU then 1.94 else 2.15
  }

  /**
   * pure_beta_test. Under the UBeta class only the DU flag is ever set, so the
   * plain beta result stays false there.
   */
  predicate PureBetaTest(r: Reading, returnDU: bool, envDU: bool)
    requires r.NonZero()
  {
    var lower := DULowerLimit(envDU);
    var pureDU := if envDU || returnDU then DUWindow(r, lower) else false;
    var pureBeta := if envDU then false else PureBLTest(r) || PureBHTest(r);
    if returnDU then pureDU else pureBeta
  }

  /** The OW/PL boundary of the pure-photon region as a function of x = OW/Cu. */
  function PhotonBoundary(x: real): real {
    if x < 8.5 then 0.0094191 * (x * x) + -0.098501 * x + 1.33
    else if 8.5 <= x && x < 21.8 then 0.0013201 * (x * x) + -0.041246 * x + 1.4282
    else 0.0016 * x + 1.1207
  }

  predicate PurePhotonTest(r: Reading)
    requires r.NonZero()
  {
    if PureNS20Test(r) || PureM30Test(r) then true
    else if r.ow / r.al >= LowerLine(r.pl, r.al) then
      r.ow / r.al < 1.235 * (r.pl / r.al) + -0.20
    else
      r.ow / r.pl <= PhotonBoundary(r.ow / r.cu)
  }

  predicate MixedSourceTest(betaTest: bool, photonTest: bool) {
    (!betaTest && !photonTest) || (betaTest && photonTest)
  }

  // ---------------------------------------------------------------------
  // Properties

  /** The closed ellipsoid contains its centre. */
  lemma EllipsoidContainsCentre(x0: real, y0: real, z0: real, a2: real, b2: real, c2: real)
    requires a2 > 0.0 && b2 > 0.0 && c2 > 0.0
    ensures WithinEllipsoid(x0, y0, z0, x0, y0, z0, a2, b2, c2)
  {
  }

  lemma SquareNonNegative(t: real)
    ensures t * t >= 0.0
  {
  }

  /**
   * A point of the ellipsoid is within one semi-axis of the centre on every
   * axis: (x - x0)^2 <= a2, and likewise for y and z.
   */
  lemma EllipsoidAxisBound(x: real, y: real, z: real, x0: real, y0: real, z0: real, a2: real, b2: real, c2: real)
    requires a2 > 0.0 && b2 > 0.0 && c2 > 0.0
    requires WithinEllipsoid(x, y, z, x0, y0, z0, a2, b2, c2)
    ensures (x - x0) * (x - x0) <= a2
    ensures (y - y0) * (y - y0) <= b2
    ensures (z - z0) * (z - z0) <= c2
  {
    var p, q, r := (x - x0) * (x - x0), (y - y0) * (y - y0), (z - z0) * (z - z0);
    SquareNonNegative(x - x0);
    SquareNonNegative(y - y0);
    SquareNonNegative(z - z0);
    DivCompare(p, a2, 0.0);
    DivCompare(q, b2, 0.0);
    DivCompare(r, c2, 0.0);
    DivCompare(p, a2, 1.0);
    DivCompare(q, b2, 1.0);
    DivCompare(r, c2, 1.0);
  }

  /** A coordinate strictly beyond the semi-axis b > 0 on either side is outside that axis bound. */
  lemma BeyondAxis(t: real, t0: real, b: real)
    requires 0.0 < b && (t0 + b < t || t < t0 - b)
    ensures (t - t0) * (t - t0) > b * b
  {
    var e := if t0 + b < t then t - t0 else t0 - t;
    var k := e - b;
    assert (t - t0) * (t - t0) == e * e;
    assert e * e == b * b + 2.0 * b * k + k * k;
    assert k * k > 0.0;
    assert b * k > 0.0;
  }

  /** Any reading inside the BH region has OW/PL below 2.5. */
  lemma PureBHBoundsOWPL(r: Reading)
    requires r.NonZero() && PureBHTest(r)
    ensures r.ow / r.pl < 2.5
  {
    var x, y, z := r.ow / r.cu, r.ow / r.pl, r.ow / r.al;
    if !(1.0 / x < 0.15 && 1.85 < y && y < 2.5 && z < 4.0) {
      EllipsoidAxisBound(x, y, z, BH_X0, BH_Y0, BH_Z0, BH_A * BH_A, BH_B * BH_B, BH_C * BH_C);
      if y >= 2.5 {
        BeyondAxis(y, BH_Y0, BH_B);
      }
    }
  }

  /** pure_BL_test and pure_BH_test never hold together. */
  lemma BLBHExclusive(r: Reading)
    requires r.NonZero()
    ensures !(PureBLTest(r) && PureBHTest(r))
  {
    if PureBHTest(r) {
      PureBHBoundsOWPL(r);
    }
  }

  /** Any reading in the M30 region has OW/Al below 2.5. */
  lemma PureM30BoundsOWAl(r: Reading)
    requires r.NonZero() && PureM30Test(r)
    ensures r.ow / r.al < 2.5
  {
    var x, y, z := r.ow / r.cu, r.ow / r.pl, r.ow / r.al;
    if !(x > 30.5 && y < 1.05 && 1.83 < z && z < 2.41) {
      EllipsoidAxisBound(x, y, z, M30_X0, M30_Y0, M30_Z0, M30_A * M30_A, M30_B * M30_B, M30_C * M30_C);
      if z >= 2.5 {
        BeyondAxis(z, M30_Z0, M30_C);
      }
    }
  }

  /** pure_NS20_test and pure_M30_test never hold together. */
  lemma NS20M30Exclusive(r: Reading)
    requires r.NonZero()
    ensures !(PureNS20Test(r) && PureM30Test(r))
  {
    if PureM30Test(r) {
      PureM30BoundsOWAl(r);
    }
  }

  /** pure_BL_test in terms of the readings themselves, for positive readings. */
  lemma PureBLOnReadings(r: Reading)
    requires r.Positive()
    ensures PureBLTest(r) <==> r.ow > 4.0 * r.pl && 8.0 * r.cu < r.ow
  {
    DivCompare(r.ow, r.pl, 4.0);
    DivCompare(r.cu, r.ow, 0.125);
  }

  /** pure_NS20_test in terms of the readings themselves, for positive readings. */
  lemma PureNS20OnReadings(r: Reading)
    requires r.Positive()
    ensures PureNS20Test(r) <==>
      r.ow >= 59.5 * r.cu && 2.5890474 * r.al <= r.ow && r.ow <= 5.0 * r.al
  {
    DivCompare(r.ow, r.cu, 59.5);
    DivCompare(r.ow, r.al, 2.5890474);
    DivCompare(r.ow, r.al, 5.0);
  }

  /**
   * pure_beta_test in its three regimes: the DU window (1.94 or 2.15) when
   * asked for the DU result; BL or BH without the UBeta class; always false
   * under the UBeta class when the DU result is not asked for.
   */
  lemma PureBetaTestCases(r: Reading, returnDU: bool, envDU: bool)
    requires r.NonZero()
    ensures returnDU ==> (PureBetaTest(r, returnDU, envDU) <==> DUWindow(r, if envDU then 1.94 else 2.15))
    ensures !returnDU && envDU ==> !PureBetaTest(r, returnDU, envDU)
    ensures !returnDU && !envDU ==> (PureBetaTest(r, returnDU, envDU) <==> PureBLTest(r) || PureBHTest(r))
  {
  }

  /** A reading in the DU window is never a pure BL (the window needs OW/PL < 4). */
  lemma DUWindowExcludesBL(r: Reading, lower: real)
    requires r.NonZero() && DUWindow(r, lower)
    ensures !PureBLTest(r)
  {
  }

  /** mixed_source_test holds exactly when the beta and photon results agree. */
  lemma MixedSourceIffEqual(b: bool, p: bool)
    ensures MixedSourceTest(b, p) <==> b == p
  {
  }

  /**
   * Inside the band, a reading that is not a pure BH passes at least one of
   * the Mixed BH tests, because it cannot be both a pure M30 and a pure NS20.
   */
  lemma InBandNotBHIsMixed(r: Reading)
    requires r.NonZero() && InBand(r) && !PureBHTest(r)
    ensures MixedBHM30Test(r) || MixedBHNS20Test(r)
  {
    NS20M30Exclusive(r);
  }

  /** The Mixed BH tests need the band to be non-empty: PL/Al >= 18309/14095. */
  lemma MixedBHTestsNeedBand(r: Reading)
    requires r.NonZero() && (MixedBHM30Test(r) || MixedBHNS20Test(r))
    ensures r.pl / r.al >= BandThreshold
  {
    BandNonEmptyIff(r.pl, r.al);
  }

  /**
   * The piecewise photon boundary never drops to 1.07: its two parabolas have
   * their minima at about 1.0725 and 1.106 and the last piece rises from 1.1556.
   */
  lemma PhotonBoundaryFloor(x: real)
    ensures PhotonBoundary(x) > 1.07
  {
    if x < 8.5 {
      var u := x - 5.2288;
      assert x * x == u * u + 10.4576 * x - 27.34034944;
      assert u * u >= 0.0;
    } else if x < 21.8 {
      var u := x - 15.622;
      assert x * x == u * u + 31.244 * x - 244.046884;
      assert u * u >= 0.0;
    }
  }

  /**
   * Below the lower line, every reading with OW/PL <= 1.07 is a pure photon,
   * whatever its OW/Cu.
   */
  lemma LowOWPLBelowLowerLineIsPhoton(r: Reading)
    requires r.NonZero() && r.ow / r.al < LowerLine(r.pl, r.al) && r.ow / r.pl <= 1.07
    ensures PurePhotonTest(r)
  {
    PhotonBoundaryFloor(r.ow / r.cu);
  }
}
