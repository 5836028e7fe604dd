// Beta and source-type indicators: a prefix test on a known label, and the
// three-way pure beta / pure photon / mixed classification of a reading.

module SourceTypeIndicators {
  import opened LuxelTypes
  import opened SourceTypeTests
  import opened RadiationQuality

  /**
   * assign_beta_indicator. The readings it receives play no part in the
   * result, so they are not parameters here. Three independent ifs run in
   * order; the photon prefixes only ever write the initial false again, so
   * only the Mixed, BL and BH prefixes decide.
   */
  function AssignBetaIndicator(knownRQ: string): (b: bool)
    ensures b <==> StartsWith(knownRQ, "Mixed") || StartsWith(knownRQ, "BL") || StartsWith(knownRQ, "BH")
    ensures StartsWith(knownRQ, "PL") || StartsWith(knownRQ, "PM") || StartsWith(knownRQ, "PH") ==> !b
    ensures b ==> |knownRQ| >= 2 && (knownRQ[0] == 'M' || knownRQ[0] == 'B')
  {
    var afterMixed := StartsWith(knownRQ, "Mixed");
    if StartsWith(knownRQ, "BL") || StartsWith(knownRQ, "BH") then true else afterMixed
  }

  /**
   * source_type_indicator: 1 for a pure beta (under the UBeta class only the
   * 1.94 DU window counts as one), 2 for a pure photon that is not a beta,
   * -1 otherwise. The mixed test it computes is never read.
   */
  function SourceTypeIndicator(r: Reading, envDU: bool): (n: int)
    requires r.NonZero()
    ensures n == 1 || n == 2 || n == -1
    ensures n == 1 <==> (if envDU then DUWindow(r, 1.94) else PureBLTest(r) || PureBHTest(r))
    ensures n == 2 <==> !(if envDU then DUWindow(r, 1.94) else PureBLTest(r) || PureBHTest(r)) && PurePhotonTest(r)
  {
    var betaTest :=
      if envDU then
        var pureDU := PureBetaTest(r, true, envDU);
        if !pureDU then false else true
      else PureBetaTest(r, false, envDU);
    var photonTest := PurePhotonTest(r);
    var mixedTest := MixedSourceTest(betaTest, photonTest);
    if betaTest then 1
    else if photonTest then 2
    else -1
  }

  // ---------------------------------------------------------------------
  // Properties

  /**
   * On the engine's labels the beta indicator holds exactly for the beta and
   * mixed labels; "BU", "P", "PB", "-1" and "" are not beta labels.
   */
  lemma BetaIndicatorOnLabels(l: Label)
    ensures AssignBetaIndicator(Text(l)) <==> l in {BL, BH, BHDU, MixedBL, MixedBH}
  {
    match l
    case BL => assert StartsWith("BL", "BL");
    case BH => assert StartsWith("BH", "BH");
    case BHDU => assert Text(l)[..2] == "BH";
    case MixedBL => assert Text(l)[..5] == "Mixed";
    case MixedBH => assert Text(l)[..5] == "Mixed";
    case PL => assert StartsWith("PL", "PL");
    case PM => assert StartsWith("PM", "PM");
    case PH => assert StartsWith("PH", "PH");
    case BU => assert Text(l)[..2] == "BU";
    case MinusOne =>
    case P =>
    case PB =>
    case Blank =>
  }

  /**
   * Without the UBeta class the indicator agrees with the decision tree: 1
   * for a beta label, 2 for a photon label, -1 for a Mixed label.
   */
  lemma IndicatorMatchesDecisionTree(r: Reading)
    requires r.NonZero()
    ensures var l := DetermineRadiationQuality(r, false, false);
      && (SourceTypeIndicator(r, false) == 1 <==> l in {BL, BH})
      && (SourceTypeIndicator(r, false) == 2 <==> l in {PL, PM, PH})
      && (SourceTypeIndicator(r, false) == -1 <==> l in {MixedBL, MixedBH})
  {
  }
}
