/** IEEE-754 doubles as they reach the bindings from Python (`float` /
    `f64`), reduced to what the source inspects: a finite value, NaN, or an
    infinity. Finite values are kept as exact reals; rounding of the binary
    representation is not modelled. */
module Floats {
  import opened Wrappers

  datatype Float = Finite(value: real) | NaN | PosInf | NegInf

  /** IEEE `<`: false whenever either side is NaN. */
  predicate Less(a: Float, b: Float) {
    match (a, b)
    case (NaN, _) => false
    case (_, NaN) => false
    case (NegInf, NegInf) => false
    case (NegInf, _) => true
    case (_, NegInf) => false
    case (PosInf, _) => false
    case (Finite(x), Finite(y)) => x < y
    case (Finite(_), PosInf) => true
  }

  /** IEEE `<=`: false whenever either side is NaN. */
  predicate LessOrEqual(a: Float, b: Float) {
    Less(a, b) || (a == b && !a.NaN?)
  }

  /** Comparisons order the non-NaN values totally: exactly one of `<`, `==`
      and `>` holds, and NaN is unordered with everything. */
  lemma Trichotomy(a: Float, b: Float)
    ensures !a.NaN? && !b.NaN? ==>
      (Less(a, b) && a != b && !Less(b, a))
      || (a == b && !Less(a, b) && !Less(b, a))
      || (Less(b, a) && a != b && !Less(a, b))
    ensures a.NaN? || b.NaN? ==> !Less(a, b) && !Less(b, a) && !LessOrEqual(a, b)
  {
  }

  /** `rust_decimal::Decimal::from_f64`, failing with the message the
      bindings' `parse_decimal` raises for a non-finite value. */
  function ParseDecimal(value: Float, field: string): (r: Result<real, string>)
    ensures r.Success? <==> value.Finite?
    ensures r.Success? ==> r.value == value.value
    ensures r.Failure? ==> r.error == field + " must be a finite numeric value"
  {
    if value.Finite? then Success(value.value)
    else Failure(field + " must be a finite numeric value")
  }
}
