// Shared vocabulary of the Luxel+ model: the four element readings, the
// radiation-quality labels, the environment-class flags, Python-level
// failures and the transcendental functions the dose formulas call.

module LuxelTypes {

  /** The four converted element values of one dosimeter read. */
  datatype Reading = Reading(ow: real, pl: real, al: real, cu: real)
  {
    /** Every ratio the engine forms has a non-zero denominator. */
    predicate NonZero() {
      ow != 0.0 && pl != 0.0 && al != 0.0 && cu != 0.0
    }

    /** The physical domain: all four readings strictly positive. */
    predicate Positive() {
      ow > 0.0 && pl > 0.0 && al > 0.0 && cu > 0.0
    }
  }

  /**
   * Radiation-quality labels. The first eight are the labels the classifier
   * branches on; the others are the auxiliary strings the engine also
   * produces: "-1" (no DU beta), "P", "PB", "BU" and the empty string.
   */
  datatype Label =
    | BL | BH | BHDU | PL | PM | PH | MixedBL | MixedBH
    | MinusOne | P | PB | BU | Blank

  /** The string the source uses for each label. */
  function Text(l: Label): string {
    match l
    case BL => "BL"
    case BH => "BH"
    case BHDU => "BH_DU"
    case PL => "PL"
    case PM => "PM"
    case PH => "PH"
    case MixedBL => "Mixed_BL"
    case MixedBH => "Mixed_BH"
    case MinusOne => "-1"
    case P => "P"
    case PB => "PB"
    case BU => "BU"
    case Blank => ""
  }

  /** The eight labels that drive the dose branches. */
  predicate IsBranchLabel(l: Label) {
    l in {BL, BHDU, BH, PL, PM, PH, MixedBH, MixedBL}
  }

  lemma TextInjective(l1: Label, l2: Label)
    ensures Text(l1) == Text(l2) <==> l1 == l2
  {
  }

  /** Radiation environment classes as the engine's three flags [PO, UBeta/DU, XRO]. */
  datatype EnvClassFlags = EnvClassFlags(po: bool, du: bool, xro: bool)

  const NoEnvClass := EnvClassFlags(false, false, false)

  datatype Option<T> = None | Some(value: T)

  /** The Python exceptions that the reachable defects of the source raise. */
  datatype PyError = NameError | UnboundLocalError | AttributeError

  /** The result of a call that either returns a value or raises. */
  datatype Outcome<T> = Returns(value: T) | Raises(error: PyError)

  /** Python values stored in a list whose elements are not all booleans. */
  datatype PyValue = FunctionObject | NoneValue | Boolean(b: bool)
  {
    /** Python truthiness: a function object is true, None is false. */
    predicate Truthy() {
      match this
      case FunctionObject => true
      case NoneValue => false
      case Boolean(b) => b
    }
  }

  /**
   * exp, log and sqrt from the math library. They are parameters of the
   * model; a lemma that needs one of their values states it as a requirement.
   */
  datatype Math = Math(exp: real -> real, log: real -> real, sqrt: real -> real)

  /** Python's str.startswith. */
  predicate StartsWith(s: string, prefix: string) {
    |prefix| <= |s| && s[..|prefix|] == prefix
  }
}
