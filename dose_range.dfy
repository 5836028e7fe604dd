// The valid dose windows of the calibration script: a dose value in mrem is
// within range when it lies in the closed window of its source type (and,
// for photon/beta mixtures, of its dose type). Source and dose types
// without a window leave the bounds unassigned, which Python reports as
// UnboundLocalError when the comparison reads them.

module DoseRange {
  import opened LuxelTypes

  /** The source types that assign a window whatever the dose type. */
  predicate PhotonSourceType(sourceType: string) {
    sourceType == "Pure_Photons" || sourceType == "Photon_Photon_Mixtures"
  }

  /** The source and dose types for which the bounds are assigned. */
  predicate HasWindow(sourceType: string, doseType: string) {
    PhotonSourceType(sourceType) || (sourceType == "Photon_Beta_Mixtures" && (doseType == "SDE" || doseType == "DDE"))
  }

  /**
   * within_valid_dose_range. The three source-type tests are independent
   * `if`s, and for photon/beta mixtures the SDE and DDE tests are too; the
   * final comparison is inclusive at both ends.
   */
  function WithinValidDoseRange(sourceType: string, doseValue: real, doseType: string): (o: Outcome<bool>)
    ensures o.Raises? <==> !HasWindow(sourceType, doseType)
    ensures o.Raises? ==> o.error == UnboundLocalError
    ensures sourceType == "Pure_Photons" ==> o == Returns(5000.0 <= doseValue <= 500000.0)
    ensures sourceType == "Photon_Photon_Mixtures" ==> o == Returns(50.0 <= doseValue <= 5000.0)
    ensures sourceType == "Photon_Beta_Mixtures" && doseType == "SDE" ==> o == Returns(300.0 <= doseValue <= 30000.0)
    ensures sourceType == "Photon_Beta_Mixtures" && doseType == "DDE" ==> o == Returns(50.0 <= doseValue <= 5000.0)
  {
    var window :=
      if sourceType == "Pure_Photons" then Some((5000.0, 500000.0))
      else if sourceType == "Photon_Photon_Mixtures" then Some((50.0, 5000.0))
      else if sourceType == "Photon_Beta_Mixtures" then
        (if doseType == "SDE" then Some((300.0, 30000.0))
         else if doseType == "DDE" then Some((50.0, 5000.0))
         else None)
      else None;
    if window.None? then Raises(UnboundLocalError)
    else
      var (doseMin, doseMax) := window.value;
      Returns(doseValue >= doseMin && doseValue <= doseMax)
  }

  // ---------------------------------------------------------------------
  // Properties

  /** Each window is an interval: a value between two accepted values is accepted. */
  lemma WindowIsInterval(sourceType: string, doseType: string, lo: real, mid: real, hi: real)
    requires lo <= mid <= hi
    requires WithinValidDoseRange(sourceType, lo, doseType) == Returns(true)
    requires WithinValidDoseRange(sourceType, hi, doseType) == Returns(true)
    ensures WithinValidDoseRange(sourceType, mid, doseType) == Returns(true)
  {
  }

  /** The dose type matters only for photon/beta mixtures. */
  lemma DoseTypeIgnoredForPhotons(sourceType: string, doseValue: real, t1: string, t2: string)
    requires PhotonSourceType(sourceType)
    ensures WithinValidDoseRange(sourceType, doseValue, t1) == WithinValidDoseRange(sourceType, doseValue, t2)
  {
  }

  /** The pure-photon and photon-mixture windows meet at exactly one dose, 5000 mrem. */
  lemma PhotonWindowsMeetAt5000(doseValue: real)
    ensures WithinValidDoseRange("Pure_Photons", doseValue, "") == Returns(true)
         && WithinValidDoseRange("Photon_Photon_Mixtures", doseValue, "") == Returns(true)
       <==> doseValue == 5000.0
  {
  }

  /** A photon/beta mixture DDE has the photon-mixture window. */
  lemma MixtureDDEWindowIsPhotonMixtureWindow(doseValue: real, doseType: string)
    ensures WithinValidDoseRange("Photon_Beta_Mixtures", doseValue, "DDE")
         == WithinValidDoseRange("Photon_Photon_Mixtures", doseValue, doseType)
  {
  }
}
