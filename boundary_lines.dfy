// The three straight boundary lines of the classification planes.

module BoundaryLines {

  /** OW/Al on the line between Mixed BH M30 and higher-energy Mixed BH, at PL/Al = pl/al. */
  function LowerLine(pl: real, al: real): real
    requires al != 0.0
  {
    -1.75 * (pl / al) + 5.05
  }

  /** OW/Al on the line between Mixed BH NS20 and Mixed BH M30, at PL/Al = pl/al. */
  function UpperLine(pl: real, al: real): real
    requires al != 0.0
  {
    -0.3405 * (pl / al) + 3.2191
  }

  /** OW/PL on the line between Mixed BH and Mixed BL, at Cu/OW = cu/ow. */
  function MixedBLLine(cu: real, ow: real): real
    requires ow != 0.0
  {
    -2.6786 * (cu / ow) + 2.8304
  }

  /** The PL/Al value where the lower and the upper line cross. */
  const BandThreshold: real := 18309.0 / 14095.0

  /** All three lines strictly decrease as their ratio argument grows. */
  lemma LinesDecreasing(n1: real, d1: real, n2: real, d2: real)
    requires d1 != 0.0 && d2 != 0.0 && n1 / d1 < n2 / d2
    ensures LowerLine(n1, d1) > LowerLine(n2, d2)
    ensures UpperLine(n1, d1) > UpperLine(n2, d2)
    ensures MixedBLLine(n1, d1) > MixedBLLine(n2, d2)
  {
  }

  /**
   * The band lower <= OW/Al <= upper is non-empty exactly when
   * PL/Al >= 18309/14095; below that the lower line lies above the upper one.
   */
  lemma BandNonEmptyIff(pl: real, al: real)
    requires al != 0.0
    ensures LowerLine(pl, al) <= UpperLine(pl, al) <==> pl / al >= BandThreshold
    ensures pl / al < BandThreshold ==> LowerLine(pl, al) > UpperLine(pl, al)
  {
    var t := pl / al;
    assert UpperLine(pl, al) - LowerLine(pl, al) == 1.4095 * t - 1.8309;
    assert 1.4095 * t - 1.8309 >= 0.0 <==> t >= BandThreshold;
  }
}
