// Calibration-side helpers of the coefficient fitting script: the table of
// parameter bounds per fit type, the linear dose model, the fractional bias,
// the label used to filter the data and the dose type a fit runs against.

module FitCalibration {
  import opened LuxelTypes
  import opened DoseCoefficients
  import opened LuxelCalc

  // ---------------------------------------------------------------------
  // Upper-casing

  predicate IsLower(c: char) {
    'a' <= c <= 'z'
  }

  /** Upper-case of one character; only the ASCII letters change. */
  function UpperChar(c: char): (u: char)
    ensures !IsLower(u)
    ensures !IsLower(c) ==> u == c
    ensures IsLower(c) ==> u as int == c as int - 32 && 'A' <= u <= 'Z'
  {
    if IsLower(c) then (c as int - 32) as char else c
  }

  /** str.upper over ASCII: every character upper-cased, in place. */
  function Upper(s: string): (u: string)
    ensures |u| == |s|
    ensures forall i :: 0 <= i < |s| ==> u[i] == UpperChar(s[i])
    ensures forall i :: 0 <= i < |u| ==> !IsLower(u[i])
  {
    if s == [] then [] else [UpperChar(s[0])] + Upper(s[1..])
  }

  /** Upper-casing twice is upper-casing once. */
  lemma {:induction false} UpperIdempotent(s: string)
    ensures Upper(Upper(s)) == Upper(s)
  {
    var u := Upper(s);
    assert forall i :: 0 <= i < |u| ==> Upper(u)[i] == UpperChar(u[i]) == u[i];
  }

  // ---------------------------------------------------------------------
  // Fit bounds

  /** A bounds table: four (low, high) pairs, one per parameter A, B, C, D. */
  predicate WellFormedBounds(b: seq<(real, real)>) {
    |b| == 4 && forall i :: 0 <= i < 4 ==> b[i].0 <= b[i].1
  }

  const FallbackBounds: seq<(real, real)> := [(-5.0, 5.0), (-5.0, 5.0), (-5.0, 5.0), (-5.0, 5.0)]
  const BLBounds: seq<(real, real)> := [(0.5, 5.0), (0.0, 0.001), (0.0, 0.001), (0.0, 0.001)]
  const DUBounds: seq<(real, real)> := [(0.0, 2.0), (-1.0, 1.0), (-5.0, 1.0), (0.0, 35.0)]

  /** The upper-case keys of the table; the mixed-case Mixed_* keys are not among them. */
  const UpperKeys: set<string> := {"BL", "BH", "DU", "PH_SDE", "PH_DDE", "PL_PM_SDE", "PL_PM_DDE"}

  /**
   * get_fit_bounds. The argument is upper-cased before the lookup, so the
   * Mixed_* keys, which contain lower-case letters, are never matched and
   * every Mixed_* fit type takes the fallback bounds.
   */
  function GetFitBounds(knownType: string): (b: seq<(real, real)>)
    ensures WellFormedBounds(b)
    ensures Upper(knownType) == "BL" ==> b == BLBounds
    ensures Upper(knownType) == "DU" ==> b == DUBounds
    ensures Upper(knownType) !in UpperKeys ==> b == FallbackBounds
    ensures b[3] != (-5.0, 15.0)
  {
    var k := Upper(knownType);
    assert k != "Mixed_BL_SDE" && k != "Mixed_BL_DDE" && k != "Mixed_BH_SDE" && k != "Mixed_BH_DDE" by {
      assert |k| >= 2 ==> !IsLower(k[1]);
      assert "Mixed_BL_SDE"[1] == "Mixed_BL_DDE"[1] == "Mixed_BH_SDE"[1] == "Mixed_BH_DDE"[1] == 'i';
    }
    if k == "BL" then BLBounds
    else if k == "BH" then [(-10.0, 10.0), (-10.0, 10.0), (-10.0, 10.0), (-10.0, 10.0)]
    else if k == "DU" then DUBounds
    else if k == "PH_SDE" then [(0.0, 5.0), (0.0, 5.0), (0.0, 5.0), (0.0, 5.0)]
    else if k == "PH_DDE" then [(0.0, 5.0), (0.0, 5.0), (0.0, 5.0), (0.0, 5.0)]
    else if k == "PL_PM_SDE" then [(-5.0, 5.0), (-5.0, 5.0), (-5.0, 5.0), (-5.0, 5.0)]
    else if k == "PL_PM_DDE" then [(0.0, 5.0), (0.0, 5.0), (0.0, 5.0), (0.0, 5.0)]
    else if k == "Mixed_BL_SDE" then [(-5.0, 5.0), (-5.0, 5.0), (-5.0, 5.0), (-5.0, 5.0)]
    else if k == "Mixed_BL_DDE" then [(-5.0, 5.0), (-5.0, 5.0), (-5.0, 5.0), (-5.0, 5.0)]
    else if k == "Mixed_BH_SDE" then [(-5.0, 5.0), (-5.0, 5.0), (-5.0, 5.0), (-5.0, 15.0)]
    else if k == "Mixed_BH_DDE" then [(-5.0, 5.0), (-5.0, 5.0), (-5.0, 5.0), (-5.0, 5.0)]
    else FallbackBounds
  }

  /** The lookup ignores case: a fit type and its upper-case form get the same bounds. */
  lemma FitBoundsIgnoreCase(knownType: string)
    ensures GetFitBounds(knownType) == GetFitBounds(Upper(knownType))
  {
    UpperIdempotent(knownType);
  }

  /** Every Mixed_* fit type, whatever its case, gets the fallback bounds. */
  lemma MixedFitTypesTakeFallback(knownType: string)
    requires |knownType| >= 5 && Upper(knownType[..5]) == "MIXED"
    ensures GetFitBounds(knownType) == FallbackBounds
  {
    assert Upper(knownType)[0] == 'M';
    assert Upper(knownType)[1] == 'I' by {
      assert Upper(knownType[..5])[1] == UpperChar(knownType[1]);
    }
    assert Upper(knownType) !in UpperKeys;
  }

  // ---------------------------------------------------------------------
  // Model and bias

  /** calc_std_SDE: the linear dose response A*OW + B*PL + C*Al + D*Cu. */
  function CalcStdSDE(ow: real, pl: real, al: real, cu: real, a: real, b: real, c: real, d: real): real {
    a * ow + b * pl + c * al + d * cu
  }

  /**
   * model_function: the first four parameters are A, B, C and D; Python's
   * unpacking of params[:4] needs at least four of them.
   */
  function ModelFunction(ow: real, pl: real, al: real, cu: real, params: seq<real>): (dose: real)
    requires |params| >= 4
    ensures dose == Apply(Coefficients(params[0], params[1], params[2], params[3]), Reading(ow, pl, al, cu))
  {
    CalcStdSDE(ow, pl, al, cu, params[0], params[1], params[2], params[3])
  }

  /** Parameters after the fourth do not change the model. */
  lemma ModelIgnoresExtraParams(ow: real, pl: real, al: real, cu: real, params: seq<real>)
    requires |params| >= 4
    ensures ModelFunction(ow, pl, al, cu, params) == ModelFunction(ow, pl, al, cu, params[..4])
  {
  }

  /** Fitted parameters are used by the engine as a coefficient set: both compute the same dose. */
  lemma ModelAgreesWithEngine(c: Coefficients, r: Reading)
    ensures ModelFunction(r.ow, r.pl, r.al, r.cu, [c.c1, c.c2, c.c3, c.c4]) == Apply(c, r)
  {
  }

  /** calc_bias: the absolute fractional bias |(known - calc) / known|. */
  function CalcBias(knownDose: real, calcDose: real): (bias: real)
    requires knownDose != 0.0
    ensures bias >= 0.0
    ensures bias == 0.0 <==> knownDose == calcDose
    ensures bias * (if knownDose < 0.0 then -knownDose else knownDose)
         == (if knownDose - calcDose < 0.0 then calcDose - knownDose else knownDose - calcDose)
  {
    var q := (knownDose - calcDose) / knownDose;
    assert q * knownDose == knownDose - calcDose;
    if q < 0.0 then -q else q
  }

  // ---------------------------------------------------------------------
  // Filter label and dose type

  /**
   * str.replace(pat, ""): every occurrence of a non-empty `pat` removed,
   * scanning left to right and resuming after each removed occurrence.
   */
  function RemoveAll(s: string, pat: string): (r: string)
    requires |pat| > 0
    ensures |r| <= |s|
    ensures forall i :: 0 <= i < |r| ==> r[i] in s
    ensures !Occurs(s, pat) ==> r == s
    ensures Occurs(s, pat) ==> |r| <= |s| - |pat|
    decreases |s|
  {
    if |s| < |pat| then s
    else if s[..|pat|] == pat then
      assert OccursAt(s, pat, 0);
      RemoveAll(s[|pat|..], pat)
    else
      assert Occurs(s, pat) ==> Occurs(s[1..], pat) by {
        if Occurs(s, pat) {
          var i :| 0 <= i <= |s| && OccursAt(s, pat, i);
          assert i != 0;
          assert s[1..][i - 1..i - 1 + |pat|] == s[i..i + |pat|];
          assert OccursAt(s[1..], pat, i - 1);
        }
      }
      assert !Occurs(s, pat) ==> !Occurs(s[1..], pat) by {
        if Occurs(s[1..], pat) {
          var i :| 0 <= i <= |s[1..]| && OccursAt(s[1..], pat, i);
          assert i + |pat| <= |s[1..]| && s[1..][i..i + |pat|] == pat;
          assert s[i + 1..i + 1 + |pat|] == s[1..][i..i + |pat|];
          assert OccursAt(s, pat, i + 1);
        }
      }
      [s[0]] + RemoveAll(s[1..], pat)
  }

  /** `pat` occurs in `s` at position `i`. */
  predicate OccursAt(s: string, pat: string, i: int) {
    0 <= i && i + |pat| <= |s| && s[i..i + |pat|] == pat
  }

  /** `pat` occurs in `s` at some position. */
  ghost predicate Occurs(s: string, pat: string) {
    exists i :: 0 <= i <= |s| && OccursAt(s, pat, i)
  }

  /** A string in which the second character of `pat` does not occur is left unchanged. */
  lemma {:induction false} RemoveAllAbsent(s: string, pat: string)
    requires |pat| >= 2 && pat[1] !in s
    ensures RemoveAll(s, pat) == s
    decreases |s|
  {
    if |s| < |pat| {
    } else {
      assert s[..|pat|] != pat by {
        assert s[1] in s;
      }
      RemoveAllAbsent(s[1..], pat);
      assert [s[0]] + s[1..] == s;
    }
  }

  /** A trailing `pat` is removed when the rest of the string cannot start an occurrence. */
  lemma {:induction false} RemoveAllTrailing(s: string, pat: string)
    requires |pat| >= 2 && pat[1] !in s && pat[0] != pat[1]
    ensures RemoveAll(s + pat, pat) == s
    decreases |s|
  {
    if s == [] {
      assert (s + pat)[..|pat|] == pat;
      assert (s + pat)[|pat|..] == [];
    } else {
      var t := s + pat;
      assert t[..|pat|] != pat by {
        if |s| == 1 {
          assert t[1] == pat[0];
        } else {
          assert t[1] == s[1] && s[1] in s;
        }
      }
      assert t[1..] == s[1..] + pat;
      RemoveAllTrailing(s[1..], pat);
      assert [s[0]] + s[1..] == s;
    }
  }

  /** A name with neither an 'S' nor a 'D' in it, followed by "_SDE" or "_DDE". */
  predicate SuffixedName(knownType: string) {
    && |knownType| >= 4
    && knownType[|knownType| - 4..] in {"_SDE", "_DDE"}
    && 'S' !in knownType[..|knownType| - 4]
    && 'D' !in knownType[..|knownType| - 4]
  }

  /**
   * The label a fit type filters the data on: known_type without "_SDE" and
   * "_DDE". A type with neither an 'S' nor a 'D' is its own label, and a
   * suffixed such name filters on the name.
   */
  function StripDoseSuffix(knownType: string): (filterLabel: string)
    ensures |filterLabel| <= |knownType|
    ensures 'S' !in knownType && 'D' !in knownType ==> filterLabel == knownType
    ensures SuffixedName(knownType) ==> filterLabel == knownType[..|knownType| - 4]
  {
    if 'S' !in knownType && 'D' !in knownType then
      RemoveAllAbsent(knownType, "_SDE");
      RemoveAllAbsent(knownType, "_DDE");
      RemoveAll(RemoveAll(knownType, "_SDE"), "_DDE")
    else if SuffixedName(knownType) then
      var name := knownType[..|knownType| - 4];
      assert knownType == name + knownType[|knownType| - 4..];
      if knownType[|knownType| - 4..] == "_SDE" then
        RemoveAllTrailing(name, "_SDE");
        RemoveAllAbsent(name, "_DDE");
        RemoveAll(RemoveAll(knownType, "_SDE"), "_DDE")
      else
        assert 'S' !in knownType;
        RemoveAllAbsent(knownType, "_SDE");
        RemoveAllTrailing(name, "_DDE");
        RemoveAll(RemoveAll(knownType, "_SDE"), "_DDE")
    else
      RemoveAll(RemoveAll(knownType, "_SDE"), "_DDE")
  }

  /** The dose a fit runs against. */
  datatype DoseKind = SDEDose | DDEDose

  predicate EndsWith(s: string, suffix: string) {
    |suffix| <= |s| && s[|s| - |suffix|..] == suffix
  }

  /**
   * The dose-type selection of the fitting script: "BL" and "BH" fit the
   * SDE, other types fit the dose their name ends with, and a type ending
   * in neither leaves the dose type unassigned.
   */
  function DoseTypeToFit(knownSourceType: string): (o: Outcome<DoseKind>)
    ensures o.Raises? <==> knownSourceType !in {"BL", "BH"} && !EndsWith(knownSourceType, "SDE") && !EndsWith(knownSourceType, "DDE")
    ensures o.Raises? ==> o.error == UnboundLocalError
    ensures knownSourceType in {"BL", "BH"} ==> o == Returns(SDEDose)
    ensures knownSourceType !in {"BL", "BH"} && EndsWith(knownSourceType, "SDE") ==> o == Returns(SDEDose)
    ensures EndsWith(knownSourceType, "DDE") ==> o == Returns(DDEDose)
  {
    if knownSourceType == "BL" || knownSourceType == "BH" then Returns(SDEDose)
    else
      var afterSDE := if EndsWith(knownSourceType, "SDE") then Some(SDEDose) else None;
      var afterDDE := if EndsWith(knownSourceType, "DDE") then Some(DDEDose) else afterSDE;
      if afterDDE.Some? then Returns(afterDDE.value) else Raises(UnboundLocalError)
  }

  // ---------------------------------------------------------------------
  // Properties of the filter label

  /** A fit type with a dose suffix fits the dose its suffix names. */
  lemma SuffixedFitTypeDose(name: string)
    ensures DoseTypeToFit(name + "_SDE") == Returns(SDEDose)
    ensures DoseTypeToFit(name + "_DDE") == Returns(DDEDose)
  {
    assert (name + "_SDE")[|name + "_SDE"| - 3..] == "SDE";
    assert (name + "_DDE")[|name + "_DDE"| - 3..] == "DDE";
  }

  /**
   * Every label but "BH_DU", fitted for its SDE or its DDE, filters on the
   * label itself; so the Mixed_* fit types select the classifier's Mixed_*
   * readings.
   */
  lemma FitTypesFilterOnTheirLabel(l: Label)
    requires l != BHDU
    ensures StripDoseSuffix(Text(l) + "_SDE") == Text(l)
    ensures StripDoseSuffix(Text(l) + "_DDE") == Text(l)
  {
    assert 'S' !in Text(l) && 'D' !in Text(l);
    assert (Text(l) + "_SDE")[..|Text(l)|] == Text(l);
    assert (Text(l) + "_DDE")[..|Text(l)|] == Text(l);
  }

  /**
   * The "DU" fit type has bounds but no dose type, and its filter label
   * "DU" is not a label the classifier produces (that is "BH_DU").
   */
  lemma DUFitTypeHasNoDoseType()
    ensures GetFitBounds("DU") == DUBounds
    ensures DoseTypeToFit("DU") == Raises(UnboundLocalError)
    ensures StripDoseSuffix("DU") == "DU"
    ensures forall l: Label :: Text(l) != StripDoseSuffix("DU")
  {
    assert Upper("DU") == "DU" by {
      assert Upper("DU")[0] == 'D' && Upper("DU")[1] == 'U';
    }
  }
}
