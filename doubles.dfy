/** The slice of Kotlin `Double` arithmetic the overlay geometry uses: a product and a
    sum of catalog coordinates with a scale factor, then `Double.toInt()`. Finite values
    are exact reals (no rounding to 53 bits); the infinities and NaN are kept because
    a view of size 0 makes the scale factor `600.0 / 0.0 = +Infinity`. */
module Doubles {

  const INT_MIN: int := -0x8000_0000
  const INT_MAX: int := 0x7fff_ffff

  datatype Double = Finite(value: real) | PosInf | NegInf | NaN

  /** Truncation toward zero (the fractional part is dropped, whatever the sign). */
  function Trunc(r: real): int {
    if r >= 0.0 then r.Floor else -((-r).Floor)
  }

  /** Kotlin's `Double.toInt()` on a finite value: truncate toward zero, saturating at
      the bounds of a 32-bit `Int`. */
  function RealToInt(r: real): (n: int)
    ensures INT_MIN <= n <= INT_MAX
  {
    var t := Trunc(r);
    if t > INT_MAX then INT_MAX else if t < INT_MIN then INT_MIN else t
  }

  /** Truncation moves toward zero by less than one: it never rounds to nearest and
      never rounds away from zero. */
  lemma TruncTowardZero(r: real)
    ensures r >= 0.0 ==> 0 <= Trunc(r) && Trunc(r) as real <= r < Trunc(r) as real + 1.0
    ensures r < 0.0 ==> Trunc(r) <= 0 && Trunc(r) as real - 1.0 < r <= Trunc(r) as real
  {
  }

  /** `toInt()` is truncation inside the `Int` range and saturates outside it. */
  lemma RealToIntSaturates(r: real)
    ensures INT_MIN as real - 1.0 < r < INT_MAX as real + 1.0 ==> RealToInt(r) == Trunc(r)
    ensures r >= INT_MAX as real + 1.0 ==> RealToInt(r) == INT_MAX
    ensures r <= INT_MIN as real - 1.0 ==> RealToInt(r) == INT_MIN
  {
    TruncTowardZero(r);
  }

  /** Kotlin's `Double.toInt()`: NaN becomes 0, the infinities the extreme `Int`s. */
  function ToInt(d: Double): (n: int)
    ensures INT_MIN <= n <= INT_MAX
    ensures d.NaN? ==> n == 0
    ensures d.PosInf? ==> n == INT_MAX
    ensures d.NegInf? ==> n == INT_MIN
    ensures d.Finite? ==> n == RealToInt(d.value)
  {
    match d
    case Finite(r) => RealToInt(r)
    case PosInf => INT_MAX
    case NegInf => INT_MIN
    case NaN => 0
  }

  /** `a / b` for a positive finite `a` and a divisor that is finite; a zero divisor
      (a missing size deserialises as 0.0) gives +Infinity. */
  function Divide(a: real, b: real): (q: Double)
    requires a > 0.0
    ensures b != 0.0 ==> q == Finite(a / b)
    ensures b == 0.0 ==> q == PosInf
  {
    if b == 0.0 then PosInf else Finite(a / b)
  }

  /** `a * f` for a finite `a`: NaN stays NaN, an infinity times zero is NaN, and an
      infinity times a non-zero number is the infinity of the product's sign. */
  function Times(a: real, f: Double): (p: Double)
    ensures f.Finite? ==> p == Finite(a * f.value)
    ensures (f.PosInf? || f.NegInf?) && a == 0.0 ==> p.NaN?
    ensures f.PosInf? && a > 0.0 ==> p.PosInf?
    ensures f.PosInf? && a < 0.0 ==> p.NegInf?
    ensures f.NegInf? && a > 0.0 ==> p.NegInf?
    ensures f.NegInf? && a < 0.0 ==> p.PosInf?
    ensures f.NaN? ==> p.NaN?
  {
    match f
    case Finite(_) => Finite(a * f.value)
    case NaN => NaN
    case PosInf => if a > 0.0 then PosInf else if a < 0.0 then NegInf else NaN
    case NegInf => if a > 0.0 then NegInf else if a < 0.0 then PosInf else NaN
  }

  /** `p + q`: NaN absorbs everything, opposite infinities give NaN, and an infinity
      added to a finite value or to the same infinity is that infinity. */
  function Plus(p: Double, q: Double): (s: Double)
    ensures p.Finite? && q.Finite? ==> s == Finite(p.value + q.value)
    ensures (p.NaN? || q.NaN?) ==> s.NaN?
    ensures (p.PosInf? && q.NegInf?) || (p.NegInf? && q.PosInf?) ==> s.NaN?
    ensures p.PosInf? && !q.NaN? && !q.NegInf? ==> s.PosInf?
    ensures p.NegInf? && !q.NaN? && !q.PosInf? ==> s.NegInf?
    ensures q.PosInf? && !p.NaN? && !p.NegInf? ==> s.PosInf?
    ensures q.NegInf? && !p.NaN? && !p.PosInf? ==> s.NegInf?
  {
    match (p, q)
    case (Finite(a), Finite(b)) => Finite(a + b)
    case (NaN, _) => NaN
    case (_, NaN) => NaN
    case (PosInf, NegInf) => NaN
    case (NegInf, PosInf) => NaN
    case (PosInf, _) => PosInf
    case (NegInf, _) => NegInf
    case (_, PosInf) => PosInf
    case (_, NegInf) => NegInf
  }
}
