# Luxel+ classification and dose engine, modelled in Dafny

This project models the core of the Luxel+ dosimeter algorithm. Its input is
one read: four converted element readings OW, PL, Al and Cu, an environment
class and a zone code. The engine:

- classifies the read into a radiation-quality label (BL, BH, BH_DU, PL, PM,
  PH, Mixed_BL, Mixed_BH) with a priority decision tree. The tree tests
  ratios of the readings against thresholds, straight boundary lines, a
  piecewise parabola and two ellipsoids;
- selects a coefficient 4-tuple by label, and for Mixed BH by a three-way
  region split of the (PL/Al, OW/Al) plane;
- computes SDE and DDE as linear combinations of the readings;
- derives the LDE, the beta dose with the adjusted SDE, the reported label
  and an energy estimate;
- checks the inputs through an error gate first.

Two small calibration-side pieces of the fitting scripts are modelled as
well: the table of fit bounds with its linear model and bias, and the
valid-dose-range check.

The model follows the code on the default standard-error-conditions path.
On that path the readings are never rewritten. Readings are real numbers,
and every entry point that forms ratios requires them to be non-zero or
positive, as the physical domain is. Reachable Python failures are
modelled as `Outcome.Raises(error)`: an undefined name, an unbound local, or
an attribute missing from `math`. `exp`, `log` and `sqrt` are uninterpreted
functions passed in a `Math` record. A lemma that needs a fact about them,
such as `exp(0) = 1` or `0 < exp(t) <= 1` for `t <= 0`, states it as a
precondition.

Modules, one file each:

- `LuxelTypes`: readings, labels and their strings, environment flags,
  Python outcomes and truthiness.
- `BoundaryLines`: the three boundary lines.
- `SourceTypeTests`: the pure source-type tests.
- `RadiationQuality`: the label decision tree and the code tables.
- `SourceTypeIndicators`: the beta indicator and the source-type indicator.
- `DoseCoefficients`: the coefficient sets and the Mixed BH region selectors.
- `LuxelCalc`: SDE, DDE, LDE and the beta dose.
- `ErrorHandling`: the error gate. The shared result records are classes
  whose fields the checks overwrite.
- `Reporting`: the reported label.
- `Energy`: the energy estimate.
- `LuxelAlgorithm`: the orchestrator. It fills a fresh
  `LuxelPlusCalculations` record.
- `DoseRange`: the valid-dose-range check.
- `FitCalibration`: fit bounds, model, bias, filter label and dose type.

Where the code and its comments disagree, the model follows the code:

- The branch label is never `BH_DU`, because `determine_radiation_quality`
  cannot produce it.
- The error value is always 2, because `err1` is bound to a function object.
- A capped beta dose is always 1 with remark "M", because of the misspelled
  `betadose`.
- A Mixed BH read above the upper line and not below the lower line takes
  the NS20 SDE set, not the upper-energies set (`DoseCoefficients.AboveUpperLineIsNS20`).
  Neither Mixed BH test holds there, so the geometric selector decides. Below
  the lower line, for example OW=3, PL=1, Al=1, Cu=0.1, the upper-energies set
  is taken. When called with "Mixed_BH", `calc_total_SDE` and
  `calc_total_DDE` disagree on a pure M30 read inside the band: SDE uses NS20
  and DDE uses M30 (`LuxelCalc.DivergenceWitness`). A Mixed_BH label from
  the decision tree never reaches that case (`LuxelCalc.MixedBHDosesShareRegion`).
- The 620 beta energy of `calc_continuous_energy` is dead.
- A reported "BU" takes the band path of the energy.

## Model

The source-type tests, the boundary lines and a few helpers are transcribed
as predicates and functions without contracts of their own. The lemmas in
the table characterise them:

- `SourceTypeTests.WithinEllipsoid` (include/luxel_plus_source_type_tests.py
  lines 17-25): `EllipsoidContainsCentre`, `EllipsoidAxisBound`.
- `PureBLTest` (lines 27-49) and `DUWindow`: `PureBLOnReadings`,
  `BLBHExclusive`, `DUWindowExcludesBL`.
- `PureBHTest` (lines 51-107): `PureBHBoundsOWPL`.
- `PureNS20Test` (lines 109-156): `PureNS20OnReadings`, `NS20M30Exclusive`.
- `PureM30Test` (lines 158-208): `PureM30BoundsOWAl`.
- `MixedBHM30Test` (lines 210-240) and `MixedBHNS20Test` (lines 242-270):
  `InBandNotBHIsMixed`, `MixedBHTestsNeedBand`.
- `PureBetaTest` (lines 272-345): `PureBetaTestCases`.
- `PurePhotonTest` (lines 347-462) and `PhotonBoundary`: `PhotonBoundaryFloor`,
  `LowOWPLBelowLowerLineIsPhoton`.
- `MixedSourceTest` (lines 464-475): `MixedSourceIffEqual`.
- `BoundaryLines.UpperLine`, `LowerLine` and `MixedBLLine`
  (include/luxel_plus_boundary_and_fit_params.py lines 1-9, 11-19 and 21-28):
  `LinesDecreasing`, `BandNonEmptyIff`.
- `FitCalibration.CalcStdSDE` (converted_general_SDE_calc_2025_post_fail_MinBias_v2.py
  lines 117-119): `ModelFunction`, `ModelAgreesWithEngine`.
- `Energy.CalcGaussianInInterval` (include/luxel_plus_energy_functions.py
  lines 77-92): `GaussianPeak`, `GaussianSymmetric`, `GaussianBounds`.
- `DoseCoefficients.SelectedRegion` (the geometric selector of
  include/luxel_plus_dose_calc_coefficients.py lines 77-184): the contracts of
  `GetMixedBHSDECoefficients` and `GetMixedBHDDECoefficients`, and
  `SelectorsAgree`.
- `LuxelCalc.Apply` (the linear dose form of jb_luxel_calc.py, for example
  line 135): `FitCalibration.ModelAgreesWithEngine`.


| member | source | states |
|---|---|---|
| BoundaryLines.LinesDecreasing | include/luxel_plus_boundary_and_fit_params.py:1-28 | the M30/upper-energies line -1.75·PL/Al+5.05, the NS20/M30 line -0.3405·PL/Al+3.2191 and the BH/BL line -2.6786·Cu/OW+2.8304 all strictly decrease in their ratio |
| BoundaryLines.BandNonEmptyIff | include/luxel_plus_boundary_and_fit_params.py:1-19 | lower line ≤ upper line exactly when PL/Al ≥ 18309/14095; below that the lower line lies strictly above |
| SourceTypeTests.EllipsoidContainsCentre | include/luxel_plus_source_type_tests.py:17-25 | the closed ellipsoid test accepts its centre |
| SourceTypeTests.EllipsoidAxisBound | include/luxel_plus_source_type_tests.py:17-25 | a point inside the ellipsoid lies within one semi-axis of the centre on every axis |
| SourceTypeTests.BeyondAxis | include/luxel_plus_source_type_tests.py:17-25 | a coordinate beyond the semi-axis on either side violates that axis bound |
| SourceTypeTests.PureBHBoundsOWPL | include/luxel_plus_source_type_tests.py:51-107 | every pure BH read (box or Sr90 ellipsoid) has OW/PL < 2.5 |
| SourceTypeTests.BLBHExclusive | include/luxel_plus_source_type_tests.py:27-107 | pure_BL_test and pure_BH_test never hold together |
| SourceTypeTests.PureM30BoundsOWAl | include/luxel_plus_source_type_tests.py:158-208 | every pure M30 read (box or ellipsoid) has OW/Al < 2.5 |
| SourceTypeTests.NS20M30Exclusive | include/luxel_plus_source_type_tests.py:109-208 | pure_NS20_test and pure_M30_test never hold together |
| SourceTypeTests.PureBLOnReadings | include/luxel_plus_source_type_tests.py:27-49 | for positive readings pure BL holds iff OW > 4·PL and 8·Cu < OW, both strict |
| SourceTypeTests.PureNS20OnReadings | include/luxel_plus_source_type_tests.py:109-156 | for positive readings pure NS20 holds iff OW ≥ 59.5·Cu and 2.5890474·Al ≤ OW ≤ 5·Al |
| SourceTypeTests.PureBetaTestCases | include/luxel_plus_source_type_tests.py:272-345 | with the DU result asked for, pure_beta_test is the DU window with lower limit 1.94 (UBeta) or 2.15; under UBeta without it, always false; otherwise BL or BH |
| SourceTypeTests.DUWindowExcludesBL | include/luxel_plus_source_type_tests.py:27-49 | a read in the DU window (OW/PL < 4) is never a pure BL |
| SourceTypeTests.MixedSourceIffEqual | include/luxel_plus_source_type_tests.py:464-475 | mixed_source_test(b, p) holds iff b = p |
| SourceTypeTests.InBandNotBHIsMixed | include/luxel_plus_source_type_tests.py:210-270 | inside the band a non-BH read passes MixedBH_M30_test or MixedBH_NS20_test |
| SourceTypeTests.MixedBHTestsNeedBand | include/luxel_plus_source_type_tests.py:210-270 | either Mixed BH test implies PL/Al ≥ 18309/14095 |
| SourceTypeTests.PhotonBoundaryFloor | include/luxel_plus_source_type_tests.py:347-462 | the piecewise OW/PL photon boundary in OW/Cu is always above 1.07 |
| SourceTypeTests.LowOWPLBelowLowerLineIsPhoton | include/luxel_plus_source_type_tests.py:347-462 | below the lower line every read with OW/PL ≤ 1.07 is a pure photon |
| RadiationQuality.BetaRadQuality | include/luxel_plus_radiation_quality_functions.py:17-68 | under UBeta: BH_DU iff the 1.94 DU window, else "-1"; otherwise BL iff pure BL, BH iff pure BH, Mixed_BH iff neither |
| RadiationQuality.PhotonRadQuality | include/luxel_plus_radiation_quality_functions.py:70-115 | Mixed_BH iff not a pure photon; NS20 or M30 gives PL; PH iff Cu/OW ≥ 0.75, PM iff 0.155 < Cu/OW < 0.75 (otherwise PL) |
| RadiationQuality.MixedBetasPhotonsRadiationQuality | include/luxel_plus_radiation_quality_functions.py:263-291 | Mixed_BL iff OW/PL lies strictly above the BH/BL line, else Mixed_BH |
| RadiationQuality.DetermineRadiationQuality | include/luxel_plus_radiation_quality_functions.py:245-261 | always one of the eight branch labels and never BH_DU; beta labels iff BL or BH test, photon labels iff not beta and pure photon, Mixed iff neither |
| RadiationQuality.RadiationQuality | include/luxel_plus_radiation_quality_functions.py:144-242 | on the standard path equals determine_radiation_quality of the readings for every flag combination |
| RadiationQuality.ConvertRQStringToInt | include/luxel_plus_radiation_quality_functions.py:293-316 | a code in -1..7; a code ≥ 0 indexes the label with that string; -1 iff the string is no branch label |
| RadiationQuality.ConvertRQIntToString | include/luxel_plus_radiation_quality_functions.py:318-341 | 0..7 give the label of that code, any other integer gives "" |
| RadiationQuality.BranchLabelsComplete | include/luxel_plus_radiation_quality_functions.py:293-341 | the code table lists exactly the eight branch labels |
| RadiationQuality.StringIntRoundTrip | include/luxel_plus_radiation_quality_functions.py:293-341 | int-to-string of string-to-int is the identity on the eight labels |
| RadiationQuality.IntStringRoundTrip | include/luxel_plus_radiation_quality_functions.py:293-341 | string-to-int of int-to-string is the identity on 0..7 |
| RadiationQuality.ConvertOutsideTable | include/luxel_plus_radiation_quality_functions.py:293-341 | any other string converts to -1 and any other integer to "" |
| RadiationQuality.PureBLIsBL | include/luxel_plus_radiation_quality_functions.py:56-66 | a pure BL read is labelled BL by beta_rad_quality and by the decision tree |
| RadiationQuality.PhotonThresholdIsPL | include/luxel_plus_radiation_quality_functions.py:94-113 | a pure photon with Cu/OW exactly 0.155 is PL |
| RadiationQuality.PhotonPHOnReadings | include/luxel_plus_radiation_quality_functions.py:94-113 | PH iff pure photon and Cu/OW ≥ 0.75 (NS20 and M30 never reach 0.75) |
| RadiationQuality.UBetaBetaQuality | include/luxel_plus_radiation_quality_functions.py:38-44 | under UBeta beta_rad_quality is BH_DU in the 1.94 window and "-1" outside |
| RadiationQuality.MixedBranchIsMixedSplit | include/luxel_plus_radiation_quality_functions.py:245-261 | neither beta nor photon: the tree returns the Mixed_BL/Mixed_BH split |
| RadiationQuality.PhotonBranchIsPhotonQuality | include/luxel_plus_radiation_quality_functions.py:245-261 | not beta but photon: the tree returns photon_rad_quality, which is then never Mixed_BH |
| SourceTypeIndicators.AssignBetaIndicator | include/luxel_plus_source_type_indicators.py:15-32 | true iff the string starts with Mixed, BL or BH; so false for PL/PM/PH prefixes, and true only for strings starting with M or B |
| SourceTypeIndicators.BetaIndicatorOnLabels | include/luxel_plus_source_type_indicators.py:15-32 | on the label strings it is true exactly for BL, BH, BH_DU, Mixed_BL, Mixed_BH (false for "", "P", "PB", "BU", "-1" and photons) |
| SourceTypeIndicators.SourceTypeIndicator | include/luxel_plus_source_type_indicators.py:72-111 | only 1, 2 or -1; 1 iff the beta test (DU window under UBeta, else BL or BH); 2 iff not beta and pure photon |
| SourceTypeIndicators.IndicatorMatchesDecisionTree | include/luxel_plus_source_type_indicators.py:72-111 | without UBeta the indicator is 1/2/-1 exactly when the tree returns a beta / photon / Mixed label |
| DoseCoefficients.GetMixedBHSDECoefficients | include/luxel_plus_dose_calc_coefficients.py:77-184 | always one of the three Mixed BH SDE sets, the one of the selected sub-region |
| DoseCoefficients.GetMixedBHDDECoefficients | include/luxel_plus_dose_calc_coefficients.py:256-346 | always one of the three Mixed BH DDE sets, the one of the selected sub-region |
| DoseCoefficients.TablesInjective | include/luxel_plus_dose_calc_coefficients.py:21-254 | distinct sub-regions have distinct SDE sets and distinct DDE sets |
| DoseCoefficients.SelectorsAgree | include/luxel_plus_dose_calc_coefficients.py:77-346 | on equal inputs the SDE and DDE selectors pick the same sub-region |
| DoseCoefficients.KnownSourceIgnoresReadings | include/luxel_plus_dose_calc_coefficients.py:107-131 | with a known source the choice ignores the readings: M30, NS20, any other name the upper energies |
| DoseCoefficients.NoM30BelowBandThreshold | include/luxel_plus_dose_calc_coefficients.py:133-169 | with no known source and PL/Al < 18309/14095 neither selector chooses M30 |
| DoseCoefficients.AboveUpperLineIsNS20 | include/luxel_plus_dose_calc_coefficients.py:133-180 | with no known source, OW/Al above the upper line (and not below the lower) selects NS20 for SDE and DDE |
| LuxelCalc.CalcPhotonTotalSDE | jb_luxel_calc.py:37-87 | PH set for PH, PL/PM set for PL or PM, else the geometric Mixed BH set; without a label photon_rad_quality decides |
| LuxelCalc.CalcBetaTotalSDE | jb_luxel_calc.py:89-137 | known BH/BL take their sets; any other known label takes the geometric Mixed BH set; with no label BH, then BL, then geometric Mixed BH; under UBeta the Mixed BH set |
| LuxelCalc.CalcDUTotalSDE | jb_luxel_calc.py:139-159 | the DU set applied to the readings |
| LuxelCalc.CalcMixedTotalSDE | jb_luxel_calc.py:161-193 | NameError without a known label; Mixed_BL set for Mixed_BL, else the Mixed BH set of the known source |
| LuxelCalc.CalcTotalSDE | jb_luxel_calc.py:195-231 | BL/BH beta sets, BH_DU DU set, photons via calc_photon_total_SDE, Mixed_BL set, anything else Mixed BH M30 if MixedBH_M30_test, NS20 if MixedBH_NS20_test, else geometric |
| LuxelCalc.CalcTotalDDE | jb_luxel_calc.py:233-316 | exactly Cu for BL, BH, BH_DU; the Mixed_BL set for Mixed_BL; the geometric Mixed BH DDE set for any other label starting Mixed_B; any other string takes the set of a recomputed photon_rad_quality |
| LuxelCalc.CalcLDE | jb_luxel_calc.py:318-331 | the SDE itself below 1; from 1 on the smaller of SDE and SDE·(1.4 − 1.04·exp(−DDE/SDE)): equal to one, at most both |
| LuxelCalc.CalcBetaDose | jb_luxel_calc.py:333-395 | NameError iff no indicator and a photon label; with the indicator and DDE' = DDE, or Cu when DDE is 0: a pure-beta label with Cu ≥ 0.1·SDE gives 0.1·SDE, anything else SDE − DDE', floored to (1, "M") at or below 1, else remark ""; no indicator and no photon label gives (-1, "Beta_Dose_Calc_ERR_"+label) |
| LuxelCalc.CalcBetaDoseAndAdjustedSDE | jb_luxel_calc.py:397-476 | beta dose + adjusted SDE = SDE; with the indicator: a capped pure beta gives (1, SDE−1, "M"), anything else (SDE−DDE', DDE', "") or (1, SDE−1, "M") when SDE−DDE' ≤ 1; no indicator gives (0, SDE) with remark label+"_Photons_Only" for photons, else the label; "P" with PO&UBeta or DU gives (0, SDE) and keeps the remark |
| LuxelCalc.CappedBetaDoseIsMinimal | jb_luxel_calc.py:420-452 | a pure-beta label with Cu ≥ 0.1·SDE always gives (1, SDE−1, "M"), although the intended dose 0.1·SDE exceeds 1 once SDE > 10 |
| LuxelCalc.BetaDoseFunctionsAgree | jb_luxel_calc.py:333-452 | outside the capped case the two beta-dose functions give the same dose and remark |
| LuxelCalc.MixedBHDosesShareRegion | jb_luxel_calc.py:195-316 | a Mixed_BH read from the tree gets SDE and DDE sets of one common sub-region |
| LuxelCalc.MixedBHDosesDivergeOnPureM30 | jb_luxel_calc.py:195-316 | a non-BH pure M30 inside the band gets the NS20 SDE set but the M30 DDE set |
| LuxelCalc.DivergenceWitness | jb_luxel_calc.py:195-316 | OW=2.2, PL=2.2, Al=1, Cu=0.05 is such a read |
| LuxelCalc.LDEBounds | jb_luxel_calc.py:318-331 | for SDE ≥ 1 and exp in [0, 1], 0.36·SDE ≤ LDE ≤ SDE |
| LuxelCalc.LDEUncapped | jb_luxel_calc.py:318-331 | when 1.04·exp(−DDE/SDE) ≤ 0.4 the cap is not reached and LDE = SDE |
| LuxelCalc.PureBetaDoses | jb_luxel_calc.py:195-255 | BL, BH and BH_DU have DDE = Cu and their fixed SDE set |
| ErrorHandling.CVsWithErrFlag.constructor | include/luxel_plus_error_handling.py:3-6 | a fresh record with no control values and the flag down |
| ErrorHandling.ErrorCheckValues.constructor | include/luxel_plus_error_handling.py:8-11 | a fresh record with no error and an empty list |
| ErrorHandling.Min4 | include/luxel_plus_error_handling.py:13-29 | the minimum of the four values: below each and equal to one |
| ErrorHandling.CheckForNegativeElements | include/luxel_plus_error_handling.py:13-29 | min ≤ 0: every value shifted by the same amount abs(min)+1e-8, so all positive and differences kept; min > 0: unchanged |
| ErrorHandling.TestForNegativeElements | include/luxel_plus_error_handling.py:31-42 | true iff some value ≤ 0 |
| ErrorHandling.ReassignNegativeAndZeroValuedElementValues | include/luxel_plus_error_handling.py:44-83 | returns whether some value was ≤ 0; the reassigned values are discarded |
| ErrorHandling.CheckErrorType1 | include/luxel_plus_error_handling.py:85-127 | the shared record's flag is set iff some channel ≤ 0, and its CVs zero those channels and keep the others |
| ErrorHandling.ScanControlValues | include/luxel_plus_error_handling.py:313-317 | the loop binds the flag (to False) iff some control value is negative, and never to True |
| ErrorHandling.CheckErrorType2 | include/luxel_plus_error_handling.py:129-183 | all control values ≥ 0: UnboundLocalError and nothing written; otherwise the CVs are the readings and the flag is false |
| ErrorHandling.RatioDifferenceError | include/luxel_plus_error_handling.py:185-262 | true iff one of the six directed pairs OW/Al, OW/Cu, OW/PL, PL/Cu, PL/Al, Cu/Al has ratio < 0.5 and an absolute difference > 10 |
| ErrorHandling.CheckErrorType3 | include/luxel_plus_error_handling.py:185-262 | writes the readings and the ratio/difference flag to the shared record (and returns nothing) |
| ErrorHandling.CheckErrorType4 | include/luxel_plus_error_handling.py:264-294 | true iff all four readings lie in (10, 20], hence pairwise closer than 10 |
| ErrorHandling.CheckErrorConditions | include/luxel_plus_error_handling.py:296-339 | all control values ≥ 0: UnboundLocalError, nothing written; otherwise isErr is true, the list is [function object, False, None, err4] in the shared record, and the CV record holds the readings with the ratio/difference flag; error type 2 is never reached |
| ErrorHandling.IsValidRQInput | include/luxel_plus_error_handling.py:341-348 | true iff the string converts to a code ≥ 0 |
| ErrorHandling.CheckForNegativeElementsIdempotent | include/luxel_plus_error_handling.py:13-29 | shifting twice equals shifting once |
| ErrorHandling.ShiftIffTest | include/luxel_plus_error_handling.py:13-42 | the shift changes the readings iff test_for_negative_elements holds |
| ErrorHandling.ReassignAgreesWithTest | include/luxel_plus_error_handling.py:31-83 | reassign_negative_and_zerovalued_element_values and test_for_negative_elements agree |
| ErrorHandling.DirectedPairOnPositives | include/luxel_plus_error_handling.py:200-262 | for positive readings a directed pair flags iff 2a < b and b − a > 10 |
| ErrorHandling.ErrorType4GuardAlwaysTrue | include/luxel_plus_error_handling.py:327-328 | the guard "not None or not empty" holds for every label, so error type 4 is always evaluated |
| ErrorHandling.LowDoseWindowHasNoRatioError | include/luxel_plus_error_handling.py:185-294 | a read in the low-dose window never raises the ratio/difference flag |
| ErrorHandling.RatioCheckIsDirected | include/luxel_plus_error_handling.py:200-262 | OW=50, PL=Al=Cu=1 raises no flag while OW=1, PL=50, Al=Cu=1 does: reverse directions are not tested |
| ErrorHandling.ValidInputsAreBranchLabels | include/luxel_plus_error_handling.py:341-348 | a label's string is a valid RQ input iff it is one of the eight branch labels |
| Reporting.DetermineReportRadiationQuality | include/luxel_plus_reporting_functions.py:82-126 | type 2: [band, "", band] with PH iff energy ≥ 205, PM iff 43 < energy < 204, else PL; other types: ["BH", q, q] with q = "P" iff PO&UBeta, DU or beta indicator, else "PB" |
| Reporting.ReportBetaLabel | include/luxel_plus_reporting_functions.py:63-70 | BH_DU is relabelled BU and Mixed_BH BH; other labels are kept |
| Reporting.ReportRadiationQuality | include/luxel_plus_reporting_functions.py:16-80 | NameError iff PO&UBeta; else one of BL, BH, BU, PL, PM, PH (special: BL, BH, BU, "", P, PB); forced photon and type 2 take the energy band of determine_report_radiation_quality; type 1 the relabelled beta label; type -1 BH, or P/PB when special |
| Reporting.BetaRQOfReport | include/luxel_plus_reporting_functions.py:63-70 | a source-type-1 read reports BL, BH or BU, and BU under UBeta |
| Reporting.EnergyGapReportsPL | include/luxel_plus_reporting_functions.py:88-98 | a pure photon with energy in [204, 205) is reported PL |
| Reporting.PureBetaNeverMixedBH | include/luxel_plus_reporting_functions.py:63-70 | a source-type-1 read's beta label is BL, BH or BH_DU, and not BH_DU without UBeta |
| Reporting.UBetaPureBetaReportsBU | include/luxel_plus_reporting_functions.py:52-70 | under UBeta a read in the 1.94 DU window is reported BU, whatever the other flags |
| Reporting.ForcedPhotonDependsOnEnergyOnly | include/luxel_plus_reporting_functions.py:52-54 | under the photon-only condition two reads with the same photon energy get the same report |
| Energy.CalcPurePhotonEnergy | include/luxel_plus_energy_functions.py:16-47 | always in [16, 662]; exactly 662 when the factor ≤ 1.055; otherwise the fit, clamped to 662 above and 16 below |
| Energy.CalcPureBetaEnergy | include/luxel_plus_energy_functions.py:49-75 | 620 iff label BH_DU, 687 iff BL, else 2284; without a label 687 iff pure BL and never 620 |
| Energy.GaussianPeak | include/luxel_plus_energy_functions.py:77-92 | with exp(0) = 1 the Gaussian equals the amplitude at the interval midpoint |
| Energy.GaussianSymmetric | include/luxel_plus_energy_functions.py:77-92 | the Gaussian is symmetric about the midpoint |
| Energy.GaussianBounds | include/luxel_plus_energy_functions.py:77-92 | with exp in (0, 1] on non-positive arguments and amplitude > 16 the value lies in (16, amplitude] |
| Energy.CalcContinuousEnergy | include/luxel_plus_energy_functions.py:115-191 | AttributeError iff non-beta and 45 < x < 50; beta path 687 for pure BL else 2284; x ≥ 50 gives 687; PH below 205 becomes 662; otherwise the band energy |
| Energy.NonBetaBandEnergy | include/luxel_plus_energy_functions.py:158-184 | DU window: Gaussian to 620; Sr90 window: Gaussian to 2284; x ≥ 50: 687; anywhere else below 50: the photon energy |
| Energy.ContinuousBetaPathNeverDU | include/luxel_plus_energy_functions.py:138-150 | the beta path never yields 620 and equals the unlabelled pure-beta energy |
| Energy.ReportedBUTakesBandPath | include/luxel_plus_energy_functions.py:131-133 | a reported "BU" does not start with BL or BH, so it takes the band path |
| Energy.UnlabelledBetaPath | include/luxel_plus_energy_functions.py:131-136 | without a label the beta path is taken iff pure BL or pure BH |
| LuxelAlgorithm.DecodeEnvClass | jb_luxel_plus_algorithm.py:173-204 | class 3 sets PO, 6 sets DU (UBeta), 7 sets XRO; each flag iff its code |
| LuxelAlgorithm.DecodeZone | jb_luxel_plus_algorithm.py:222-258 | "13"/"14" set collar/waist and PO zone; "05", "06", "11", "12", "20" set extremity; never both |
| LuxelAlgorithm.ErrorEffectNumber | jb_luxel_plus_algorithm.py:279-298 | 0 iff no error; 2 iff error and err1 or err3 truthy; else 1 |
| LuxelAlgorithm.LuxelPlusCalculations.constructor | jb_luxel_plus_algorithm.py:109-130 | the record holds the stage values, the readings as known values and -1 for the known doses |
| LuxelAlgorithm.StageResults | jb_luxel_plus_algorithm.py:316-435 | NameError exactly under UBeta with a PO zone; otherwise raises exactly when the continuous energy of the reported label raises; only NameError or AttributeError ever; a returned record holds the branch label of the decision tree, SDE from it, DDE and LDE from it outside extremity zones (0 inside), the beta indicator of the branch label, the reported label, the beta dose and remark of calc_beta_dose_and_adjustedSDE on the reported label, the continuous energy of the reported label, error value 2 with "" description, SDE stored twice, the branch and reported codes are convert_RQ_string_to_int of the stored labels, so the branch code is in 0..7 and never 1 and the reported code in {-1, 0, 2, 3, 4, 5} |
| LuxelAlgorithm.LuxelPlusAlgorithm | jb_luxel_plus_algorithm.py:72-440 | without a negative control value the gate raises UnboundLocalError and both shared records are unchanged; otherwise the shared records hold the gate's list and the type-3 values, and the run raises exactly when the stages do, or returns a fresh record holding the stage values, the readings, and -1 as the known DDE and SDE |
| LuxelAlgorithm.EnvClassFlagsExclusive | jb_luxel_plus_algorithm.py:173-204 | at most one environment flag is set, none for codes other than 3, 6, 7 |
| LuxelAlgorithm.UBetaAndPOZoneIff | jb_luxel_plus_algorithm.py:222-258 | the UBeta-and-PO-zone flag holds iff class 6 with a collar, waist or extremity zone |
| LuxelAlgorithm.ErrorValueAlwaysTwo | jb_luxel_plus_algorithm.py:279-300 | with the gate's list the error value is always 2 |
| LuxelAlgorithm.BranchCodeNeverDU | jb_luxel_plus_algorithm.py:316-326 | the stored branch code is in 0..7 and never 1 (BH_DU) |
| LuxelAlgorithm.ReportedCodes | jb_luxel_plus_algorithm.py:388-392 | a reported label's code is in {-1, 0, 2, 3, 4, 5}, and -1 exactly for BU |
| LuxelAlgorithm.StoredLDEAtMostSDE | jb_luxel_plus_algorithm.py:345-364 | the stored LDE never exceeds the stored SDE when the SDE is not negative |
| DoseRange.WithinValidDoseRange | general_SDE_calc_2025_post_fail_MinBias_v2.py:24-53 | Pure_Photons [5000, 500000], Photon_Photon_Mixtures [50, 5000], Photon_Beta_Mixtures SDE [300, 30000] and DDE [50, 5000], inclusive; any other type raises UnboundLocalError |
| DoseRange.WindowIsInterval | general_SDE_calc_2025_post_fail_MinBias_v2.py:50-51 | every accepted set is an interval |
| DoseRange.DoseTypeIgnoredForPhotons | general_SDE_calc_2025_post_fail_MinBias_v2.py:29-38 | the dose type does not matter for the two photon source types |
| DoseRange.PhotonWindowsMeetAt5000 | general_SDE_calc_2025_post_fail_MinBias_v2.py:29-38 | the pure-photon and photon-mixture windows share only 5000 |
| DoseRange.MixtureDDEWindowIsPhotonMixtureWindow | general_SDE_calc_2025_post_fail_MinBias_v2.py:35-49 | a photon/beta mixture DDE is judged by the photon-mixture window |
| FitCalibration.UpperChar | converted_general_SDE_calc_2025_post_fail_MinBias_v2.py:67 | 'a'..'z' map to 'A'..'Z' (code − 32); every other character is kept |
| FitCalibration.Upper | converted_general_SDE_calc_2025_post_fail_MinBias_v2.py:67 | same length, upper-cased character by character, no lower-case letter left |
| FitCalibration.UpperIdempotent | converted_general_SDE_calc_2025_post_fail_MinBias_v2.py:67 | upper-casing twice is upper-casing once |
| FitCalibration.GetFitBounds | converted_general_SDE_calc_2025_post_fail_MinBias_v2.py:62-92 | four (lo, hi) pairs with lo ≤ hi; BL and DU tables; any key outside the upper-case ones gets [(−5, 5)]×4; the (−5, 15) bound is never returned |
| FitCalibration.FitBoundsIgnoreCase | converted_general_SDE_calc_2025_post_fail_MinBias_v2.py:62-92 | a fit type and its upper-case form get the same bounds |
| FitCalibration.MixedFitTypesTakeFallback | converted_general_SDE_calc_2025_post_fail_MinBias_v2.py:83-92 | every fit type starting "Mixed" in any case gets the fallback bounds |
| FitCalibration.ModelFunction | converted_general_SDE_calc_2025_post_fail_MinBias_v2.py:117-125 | A·OW + B·PL + C·Al + D·Cu from the first four parameters, the engine's linear form |
| FitCalibration.ModelIgnoresExtraParams | converted_general_SDE_calc_2025_post_fail_MinBias_v2.py:121-125 | parameters after the fourth do not change the model |
| FitCalibration.ModelAgreesWithEngine | converted_general_SDE_calc_2025_post_fail_MinBias_v2.py:117-125 | a coefficient set used as parameters gives the dose the engine computes with it |
| FitCalibration.CalcBias | converted_general_SDE_calc_2025_post_fail_MinBias_v2.py:132-134 | non-negative, zero iff known = calculated, and bias·abs(known) = abs(known − calculated) |
| FitCalibration.RemoveAll | converted_general_SDE_calc_2025_post_fail_MinBias_v2.py:226 | never longer than the input, made only of the input's characters, a string in which the pattern does not occur is unchanged, and one in which it occurs shrinks by at least the pattern's length |
| FitCalibration.RemoveAllAbsent | converted_general_SDE_calc_2025_post_fail_MinBias_v2.py:226 | a string without the pattern's second character is unchanged |
| FitCalibration.RemoveAllTrailing | converted_general_SDE_calc_2025_post_fail_MinBias_v2.py:226 | a trailing pattern is removed when the rest cannot start an occurrence |
| FitCalibration.StripDoseSuffix | converted_general_SDE_calc_2025_post_fail_MinBias_v2.py:226 | never longer than the fit type; a type without 'S' or 'D' is its own label; such a name followed by "_SDE" or "_DDE" filters on the name |
| FitCalibration.DoseTypeToFit | converted_general_SDE_calc_2025_post_fail_MinBias_v2.py:407-418 | BL and BH fit SDE; otherwise a type ending in SDE fits SDE and one ending in DDE fits DDE; any other type raises UnboundLocalError |
| FitCalibration.SuffixedFitTypeDose | converted_general_SDE_calc_2025_post_fail_MinBias_v2.py:407-418 | a "_SDE" fit type fits SDE and a "_DDE" one fits DDE |
| FitCalibration.FitTypesFilterOnTheirLabel | converted_general_SDE_calc_2025_post_fail_MinBias_v2.py:226 | every label but BH_DU, suffixed with a dose type, filters on the label itself |
| FitCalibration.DUFitTypeHasNoDoseType | converted_general_SDE_calc_2025_post_fail_MinBias_v2.py:407-418 | "DU" has its bounds but no dose type (UnboundLocalError), and its filter label "DU" is no label the classifier produces |

## Left out

- File and CSV input, plotting, printing and `print_detailed_err` output, the pandas data accumulator, the scipy fit and the numpy sorting helpers of the calibration scripts; the analysis script as a whole.
- The numerical bodies of `exp`, `log` and `sqrt`: they are uninterpreted, and floating-point rounding at exact boundary hits is not reproduced (all arithmetic is over reals).
- Non-positive readings: the engine's ratios would divide by zero or take logarithms of non-positive values, raising ZeroDivisionError or ValueError; entry points require positive (or non-zero) readings instead.
- The non-standard error mode of `luxel_plus_algorithm` (it sets `.value` on a bool) and the `standardErrorConditions = False` branches of every function, which rewrite the readings first.
- `beta_indicator` (it calls `mixed_source_test` with four arguments where two are accepted, a TypeError), `photon_or_mixed_beta_photon_rad_quality`, and `calcHalfGaussianInInterval`, whose AttributeError is modelled as the outcome of the 45 < x < 50 band.
- `LuxelAlgorithm.LuxelPlusAlgorithm`: the record is filled in one step once every stage has produced its value, rather than field by field; since a raising stage discards the record, no caller can observe the difference. The optional record fields the source leaves as None (sample id, source, source type, ratio) are not modelled.
- `LuxelAlgorithm.LuxelPlusCalculations.constructor`: value/description pairs are flattened into two fields each, and fields the source leaves None before a stage writes them start from the stage values.
- `SourceTypeIndicators.AssignBetaIndicator`: the four readings it accepts and ignores are dropped from the signature.
- `LuxelCalc.CalcBetaDoseAndAdjustedSDE`: the extremity-zone argument it accepts and ignores is dropped.
- `FitCalibration.Upper`: only ASCII letters are upper-cased; Python's Unicode case mapping of other characters (some of which change length) is not modelled.
- `FitCalibration.RemoveAll`: the pattern must be non-empty; `str.replace` with an empty pattern is never used by the script.
- `FitCalibration.CalcBias`: a zero known dose is excluded (the source divides by it).
- `FitCalibration.ModelFunction`: fewer than four parameters would fail to unpack; the model requires four or more.
- The module-level feature flags of the dose-range script, which `within_valid_dose_range` does not read.
