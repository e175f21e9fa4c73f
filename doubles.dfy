/** IEEE-754 binary64 values as the control loop sees them: not their bits,
    only the class `std::isnormal` and the validity guard care about, with
    the exact real value of every finite one. */
module Doubles {

  /** 2^-1022: the smallest positive normal double. */
  const MinNormal: real := 1.0 / 44942328371557897693232629769725618340449424473557664318357520289433168951375240783177119330601884005280028469967848339414697442203604155623211857659868531094441973356216371319075554900311523529863270738021251442209537670585615720368478277635206809290837627671146574559986811484619929076208839082406056034304.0

  /** (2 - 2^-52) * 2^1023: the largest finite double. */
  const MaxFinite: real := 179769313486231570814527423731704356798070567525844996598917476803157260780028538760589558632766878171540458953514382464234321326889464182768467546703537516986049910576551282076245490090389328944075868508455133942304583236903222948165808559332123348274797826204144723168738177180919299881250404026184124858368.0

  function Abs(x: real): real { if x < 0.0 then -x else x }

  /** The five classes of `std::fpclassify`. A zero or an infinity keeps its sign. */
  datatype Double =
    | Normal(x: real)
    | Zero(negative: bool)
    | Subnormal(x: real)
    | Infinity(negative: bool)
    | NaN
  {
    /** The magnitude of a normal or subnormal value lies in its class's range. */
    predicate WellFormed() {
      match this
      case Normal(x) => MinNormal <= Abs(x) <= MaxFinite
      case Subnormal(x) => 0.0 < Abs(x) < MinNormal
      case _ => true
    }

    predicate IsFinite() { Normal? || Zero? || Subnormal? }
  }

  /** A double: one of the five classes, with a magnitude that agrees with it. */
  type Float64 = d: Double | d.WellFormed() witness Zero(false)

  /** The literal `0.0` that the guard substitutes. */
  const PositiveZero: Float64 := Zero(false)

  /** The real number a finite double stands for. */
  function ToReal(d: Float64): (r: real)
    requires d.IsFinite()
    ensures Abs(r) <= MaxFinite
    ensures r == 0.0 <==> d.Zero?
  {
    match d
    case Normal(x) => x
    case Zero(_) => 0.0
    case Subnormal(x) => x
  }

  /** `std::isnormal`: false for both zeros, subnormals, both infinities and NaN.
      Equivalently: finite with a magnitude of at least 2^-1022. */
  function IsNormal(d: Float64): (b: bool)
    ensures b <==> d.IsFinite() && MinNormal <= Abs(ToReal(d))
  {
    d.Normal?
  }

  /** What the loop may hand on after a controller evaluation: a normal value or +0.0. */
  predicate Consumable(d: Float64) {
    d.Normal? || d == PositiveZero
  }

  /** The validity guard `if (!std::isnormal(c)) c = 0.0;`, as a value. */
  function Guard(d: Float64): (g: Float64)
    ensures Consumable(g)
    ensures !g.NaN? && !g.Infinity? && !g.Subnormal?
    ensures IsNormal(d) ==> g == d
    ensures !IsNormal(d) ==> ToReal(g) == 0.0
    ensures ToReal(g) == 0.0 || MinNormal <= Abs(ToReal(g)) <= MaxFinite
  {
    if IsNormal(d) then d else PositiveZero
  }

  /** Guarding a guarded value changes nothing. */
  lemma GuardIdempotent(d: Float64)
    ensures Guard(Guard(d)) == Guard(d)
  {
  }

  /** The guard is the identity exactly on consumable values. */
  lemma GuardFixedPoints(d: Float64)
    ensures Guard(d) == d <==> Consumable(d)
  {
  }
}
