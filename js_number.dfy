/**
 * JavaScript numbers as the decoders use them: the arithmetic is exact on
 * reals (no rounding), but the special values that IEEE 754 produces for an
 * unguarded division (NaN, the infinities, negative zero) are kept, because
 * the source stores such results in its state.
 */
module JsNumber {

  datatype Num = Fin(v: real) | NegZero | PosInf | NegInf | NaN

  const PI: real := 3.141592653589793

  predicate IsZero(a: Num) { a == Fin(0.0) || a == NegZero }
  predicate IsFinite(a: Num) { a.Fin? || a.NegZero? }
  predicate IsInfinite(a: Num) { a.PosInf? || a.NegInf? }

  /** The sign bit. */
  predicate Negative(a: Num) {
    match a
    case Fin(v) => v < 0.0
    case NegZero => true
    case NegInf => true
    case _ => false
  }

  /** JavaScript truthiness of a number: false for NaN, 0 and -0. */
  predicate Truthy(a: Num) { !a.NaN? && !IsZero(a) }

  function Value(a: Num): real
    requires IsFinite(a)
  {
    if a.Fin? then a.v else 0.0
  }

  function FromInt(n: int): (r: Num)
    ensures IsFinite(r) && Value(r) == n as real && !Negative(r) == (n >= 0)
  {
    Fin(n as real)
  }

  /** A finite result with value `v`; the sign of a zero result is `negative`. */
  function Finite(v: real, negative: bool): (r: Num)
    ensures IsFinite(r) && Value(r) == v
    ensures v != 0.0 ==> Negative(r) == (v < 0.0)
  {
    if v == 0.0 && negative then NegZero else Fin(v)
  }

  function Infinity(negative: bool): (r: Num)
    ensures IsInfinite(r) && Negative(r) == negative
  {
    if negative then NegInf else PosInf
  }

  function Negate(a: Num): (r: Num)
    ensures r.NaN? == a.NaN? && IsFinite(r) == IsFinite(a)
    ensures IsFinite(a) ==> Value(r) == -Value(a)
  {
    match a
    case Fin(v) => if v == 0.0 then NegZero else Fin(-v)
    case NegZero => Fin(0.0)
    case PosInf => NegInf
    case NegInf => PosInf
    case NaN => NaN
  }

  function Add(a: Num, b: Num): (r: Num)
    ensures r.NaN? <==> a.NaN? || b.NaN? || (a.PosInf? && b.NegInf?) || (a.NegInf? && b.PosInf?)
    ensures IsFinite(a) && IsFinite(b) ==> IsFinite(r) && Value(r) == Value(a) + Value(b)
  {
    if a.NaN? || b.NaN? then NaN
    else if IsInfinite(a) && IsInfinite(b) then (if a == b then a else NaN)
    else if IsInfinite(a) then a
    else if IsInfinite(b) then b
    else Finite(Value(a) + Value(b), Negative(a) && Negative(b))
  }

  function Sub(a: Num, b: Num): (r: Num)
    ensures r.NaN? <==> a.NaN? || b.NaN? || (a.PosInf? && b.PosInf?) || (a.NegInf? && b.NegInf?)
    ensures IsFinite(a) && IsFinite(b) ==> IsFinite(r) && Value(r) == Value(a) - Value(b)
  {
    Add(a, Negate(b))
  }

  function Mul(a: Num, b: Num): (r: Num)
    ensures r.NaN? <==> a.NaN? || b.NaN? || (IsInfinite(a) && IsZero(b)) || (IsZero(a) && IsInfinite(b))
    ensures IsFinite(a) && IsFinite(b) ==> IsFinite(r) && Value(r) == Value(a) * Value(b)
  {
    var negative := Negative(a) != Negative(b);
    if a.NaN? || b.NaN? then NaN
    else if IsInfinite(a) || IsInfinite(b) then
      (if IsZero(a) || IsZero(b) then NaN else Infinity(negative))
    else Finite(Value(a) * Value(b), negative)
  }

  function Div(a: Num, b: Num): (r: Num)
    ensures r.NaN? <==> a.NaN? || b.NaN? || (IsInfinite(a) && IsInfinite(b)) || (IsZero(a) && IsZero(b))
    ensures IsFinite(a) && IsFinite(b) && !IsZero(b) ==> IsFinite(r) && Value(r) == Value(a) / Value(b)
    ensures !IsZero(a) && IsFinite(a) && IsZero(b) ==> IsInfinite(r) && Negative(r) == (Negative(a) != Negative(b))
  {
    var negative := Negative(a) != Negative(b);
    if a.NaN? || b.NaN? then NaN
    else if IsInfinite(a) && IsInfinite(b) then NaN
    else if IsInfinite(a) then Infinity(negative)
    else if IsInfinite(b) then Finite(0.0, negative)
    else if IsZero(b) then (if IsZero(a) then NaN else Infinity(negative))
    else Finite(Value(a) / Value(b), negative)
  }

  /** Math.round: the nearest integer, halves rounded up; a result of zero keeps the argument's sign. */
  function Round(a: Num): (r: Num)
    ensures r.NaN? == a.NaN? && IsInfinite(r) == IsInfinite(a)
    ensures IsFinite(a) ==> IsFinite(r) && Value(r) - 0.5 <= Value(a) < Value(r) + 0.5
    ensures IsFinite(a) ==> Value(r) == Value(r).Floor as real
  {
    if IsFinite(a) then Finite((Value(a) + 0.5).Floor as real, Negative(a)) else a
  }
}
