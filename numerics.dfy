/**
 * Java `double` values as the core uses them: a finite real, one of the two
 * infinities, or NaN. Arithmetic follows IEEE 754 on the extended reals;
 * rounding and the sign of zero are not modelled (every zero is +0).
 */
module Numerics {

  datatype Option<T> = None | Some(value: T)

  datatype Double = Finite(v: real) | PosInf | NegInf | NaN {

    predicate IsInfinite() { PosInf? || NegInf? }

    /** Java's `Double.isNaN(d) || Double.isInfinite(d)` negated. */
    predicate IsFinite() { Finite? }
  }

  /** IEEE negation. */
  function Neg(a: Double): Double {
    match a
    case Finite(x) => Finite(-x)
    case PosInf => NegInf
    case NegInf => PosInf
    case NaN => NaN
  }

  /** IEEE addition: NaN absorbs, opposite infinities give NaN. */
  function Add(a: Double, b: Double): (r: Double)
    ensures a.Finite? && b.Finite? ==> r == Finite(a.v + b.v)
    ensures a.NaN? || b.NaN? ==> r.NaN?
  {
    if a.NaN? || b.NaN? then NaN
    else if (a.PosInf? && b.NegInf?) || (a.NegInf? && b.PosInf?) then NaN
    else if a.PosInf? || b.PosInf? then PosInf
    else if a.NegInf? || b.NegInf? then NegInf
    else Finite(a.v + b.v)
  }

  /** IEEE subtraction, `a - b == a + (-b)`. */
  function Sub(a: Double, b: Double): (r: Double)
    ensures a.Finite? && b.Finite? ==> r == Finite(a.v - b.v)
    ensures a.NaN? || b.NaN? ==> r.NaN?
    ensures a.Finite? && b.IsInfinite() ==> r == Neg(b)
  {
    Add(a, Neg(b))
  }

  /** Sign of a non-NaN, non-zero value. */
  predicate Positive(a: Double) {
    a.PosInf? || (a.Finite? && a.v > 0.0)
  }

  /** IEEE multiplication: zero times an infinity is NaN. */
  function Mul(a: Double, b: Double): (r: Double)
    ensures a.Finite? && b.Finite? ==> r == Finite(a.v * b.v)
    ensures a.NaN? || b.NaN? ==> r.NaN?
  {
    if a.NaN? || b.NaN? then NaN
    else if a.Finite? && b.Finite? then Finite(a.v * b.v)
    else if a == Finite(0.0) || b == Finite(0.0) then NaN
    else if Positive(a) == Positive(b) then PosInf
    else NegInf
  }

  /** IEEE division: 0/0 and inf/inf are NaN, a non-zero value over zero is an infinity. */
  function Div(a: Double, b: Double): (r: Double)
    ensures a.Finite? && b.Finite? && b.v != 0.0 ==> r == Finite(a.v / b.v)
    ensures a.NaN? || b.NaN? ==> r.NaN?
    ensures a.Finite? && b == Finite(0.0) ==> (r.NaN? <==> a.v == 0.0)
  {
    if a.NaN? || b.NaN? then NaN
    else if a.IsInfinite() && b.IsInfinite() then NaN
    else if a.Finite? && b.IsInfinite() then Finite(0.0)
    else if a.IsInfinite() then (if Positive(a) == (b.v >= 0.0) then PosInf else NegInf)
    else if b.v != 0.0 then Finite(a.v / b.v)
    else if a.v == 0.0 then NaN
    else if a.v > 0.0 then PosInf
    else NegInf
  }

  /** Java's `a < b` on doubles: false as soon as either side is NaN. */
  predicate Lt(a: Double, b: Double) {
    if a.NaN? || b.NaN? then false
    else if a.Finite? && b.Finite? then a.v < b.v
    else if a == b then false
    else a.NegInf? || b.PosInf?
  }

  /** Java's `a <= b` on doubles. */
  predicate Le(a: Double, b: Double) {
    !a.NaN? && !b.NaN? && !Lt(b, a)
  }

  lemma LtIsStrictOrder(a: Double, b: Double, c: Double)
    ensures !Lt(a, a)
    ensures Lt(a, b) ==> !Lt(b, a)
    ensures Lt(a, b) && Lt(b, c) ==> Lt(a, c)
    ensures !a.NaN? && !b.NaN? ==> Lt(a, b) || a == b || Lt(b, a)
  {
  }

  /** Java's `Math.min`: NaN if either argument is NaN. */
  function JavaMin(a: Double, b: Double): (r: Double)
    ensures r.NaN? <==> a.NaN? || b.NaN?
    ensures !r.NaN? ==> Le(r, a) && Le(r, b) && (r == a || r == b)
  {
    if a.NaN? || b.NaN? then NaN else if Lt(b, a) then b else a
  }

  /** Java's `Math.max`: NaN if either argument is NaN. */
  function JavaMax(a: Double, b: Double): (r: Double)
    ensures r.NaN? <==> a.NaN? || b.NaN?
    ensures !r.NaN? ==> Le(a, r) && Le(b, r) && (r == a || r == b)
  {
    if a.NaN? || b.NaN? then NaN else if Lt(a, b) then b else a
  }

  predicate NoNaN(s: seq<Double>) {
    forall i :: 0 <= i < |s| ==> !s[i].NaN?
  }

  /**
   * Apache Commons Math `Max.evaluate` on a non-empty array: starts from the
   * first element and replaces the running value by every non-NaN element
   * that is not smaller.
   */
  function SampleMax(s: seq<Double>): (r: Double)
    requires |s| > 0
    ensures NoNaN(s) ==> r in s && forall i :: 0 <= i < |s| ==> Le(s[i], r)
  {
    if |s| == 1 then s[0]
    else
      var m := SampleMax(s[..|s| - 1]);
      var x := s[|s| - 1];
      assert s[..|s| - 1] + [x] == s;
      if x.NaN? then m else if Lt(x, m) then m else x
  }

  /** Apache Commons Math `Min.evaluate` on a non-empty array, the mirror of SampleMax. */
  function SampleMin(s: seq<Double>): (r: Double)
    requires |s| > 0
    ensures NoNaN(s) ==> r in s && forall i :: 0 <= i < |s| ==> Le(r, s[i])
  {
    if |s| == 1 then s[0]
    else
      var m := SampleMin(s[..|s| - 1]);
      var x := s[|s| - 1];
      assert s[..|s| - 1] + [x] == s;
      if x.NaN? then m else if Lt(m, x) then m else x
  }
}
