/**
 * The `WarningFlags` bit set of one production node, as the set of flags that
 * are raised. Each flag keeps the bit position it has in the source; the
 * presentation layer matches flags by range: bits 0-7 are informational,
 * 8-15 static configuration errors, 16-23 errors the flow solver reports,
 * 24-31 notices about unimplemented features.
 */
module WarningFlags {

  datatype Flag =
    // Non-errors
    | AssumesNauvisSolarRatio
    | ReactorsNeighborsFromPrefs
    | FuelUsageInputLimited
    // Static errors
    | EntityNotSpecified
    | FuelNotSpecified
    | FuelTemperatureExceedsMaximum
    | FuelDoesNotProvideEnergy
    | FuelWithTemperatureNotLinked
    // Solution errors (raised by the flow solver only)
    | DeadlockCandidate
    | OverproductionRequired
    | ExceedsBuiltCount
    // Not implemented warnings
    | TemperatureForIngredientNotMatch

  /** A `WarningFlags` value: the flags whose bits are set. */
  type Flags = set<Flag>

  /** The bit each flag occupies (`1 << Bit(f)`). */
  function Bit(f: Flag): (b: nat)
    ensures b < 32
  {
    match f
    case AssumesNauvisSolarRatio => 0
    case ReactorsNeighborsFromPrefs => 1
    case FuelUsageInputLimited => 2
    case EntityNotSpecified => 8
    case FuelNotSpecified => 9
    case FuelTemperatureExceedsMaximum => 10
    case FuelDoesNotProvideEnergy => 11
    case FuelWithTemperatureNotLinked => 12
    case DeadlockCandidate => 16
    case OverproductionRequired => 17
    case ExceedsBuiltCount => 18
    case TemperatureForIngredientNotMatch => 24
  }

  datatype Severity = Informational | StaticError | SolutionError | NotImplemented

  /** The severity range a bit position falls in: one byte per severity. */
  function RangeOf(bit: nat): Severity
    requires bit < 32
  {
    if bit < 8 then Informational
    else if bit < 16 then StaticError
    else if bit < 24 then SolutionError
    else NotImplemented
  }

  /** The severity each flag is declared with. */
  function SeverityOf(f: Flag): Severity {
    if f in {AssumesNauvisSolarRatio, ReactorsNeighborsFromPrefs, FuelUsageInputLimited} then Informational
    else if f in {DeadlockCandidate, OverproductionRequired, ExceedsBuiltCount} then SolutionError
    else if f == TemperatureForIngredientNotMatch then NotImplemented
    else StaticError
  }

  /** The bit layout: no two flags share a bit, and each bit lies in its flag's severity range. */
  lemma BitLayout(f: Flag, g: Flag)
    ensures f != g ==> Bit(f) != Bit(g)
    ensures RangeOf(Bit(f)) == SeverityOf(f)
  {
  }

  /** The bits the parameter calculation may raise: 0-2 and 8-12. */
  predicate CalculationBit(bit: nat) {
    bit <= 2 || 8 <= bit <= 12
  }

  /** Only flags the parameter calculation raises: no solution-error or not-implemented bit. */
  predicate OnlyCalculationFlags(flags: Flags) {
    forall f :: f in flags ==> CalculationBit(Bit(f))
  }

  /** The flags the parameter calculation may raise. */
  const CalculationFlags: Flags := {
    AssumesNauvisSolarRatio, ReactorsNeighborsFromPrefs, FuelUsageInputLimited,
    EntityNotSpecified, FuelNotSpecified, FuelTemperatureExceedsMaximum,
    FuelDoesNotProvideEnergy, FuelWithTemperatureNotLinked}

  lemma CalculationFlagsOnly(flags: Flags)
    requires flags <= CalculationFlags
    ensures OnlyCalculationFlags(flags)
  {
  }

  /** `flags | f`: raises `f` and clears nothing already raised. */
  function Raise(flags: Flags, f: Flag): (r: Flags)
    ensures f in r && flags <= r
    ensures r - {f} <= flags
  {
    flags + {f}
  }

  lemma CalculationFlagsAvoidSolverRanges(flags: Flags)
    requires OnlyCalculationFlags(flags)
    ensures forall f :: f in flags ==> SeverityOf(f) == Informational || SeverityOf(f) == StaticError
  {
    forall f | f in flags
      ensures SeverityOf(f) == Informational || SeverityOf(f) == StaticError
    {
      BitLayout(f, f);
    }
  }
}
