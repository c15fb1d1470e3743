/**
 * The outcomes of a JavaScript division over exact reals: a finite value, or
 * one of the non-finite results `Infinity`, `-Infinity` and `NaN` that a
 * zero divisor produces. The ROI formulas divide by quantities that the user
 * can make zero, and the results dashboard then compares, scales or takes the
 * absolute value of these outcomes; this module gives those operations the
 * meaning IEEE-754 gives them, with the zero divisor taken as +0.
 */
module ExtendedReal {

  datatype XReal = Finite(v: real) | PosInf | NegInf | NaN

  /** `a / b` as JavaScript evaluates it when `b` is a positive zero or nonzero. */
  function Quot(a: real, b: real): (q: XReal)
    ensures b != 0.0 <==> q.Finite?
    ensures q.Finite? ==> q.v * b == a
    ensures q == PosInf <==> (b == 0.0 && a > 0.0)
    ensures q == NegInf <==> (b == 0.0 && a < 0.0)
    ensures q == NaN <==> (b == 0.0 && a == 0.0)
  {
    if b != 0.0 then Finite(a / b)
    else if a > 0.0 then PosInf
    else if a < 0.0 then NegInf
    else NaN
  }

  /** Multiplication by a positive constant, such as the `* 100` that turns a ratio into a percentage. */
  function Scale(x: XReal, k: real): (r: XReal)
    requires k > 0.0
    ensures r.Finite? <==> x.Finite?
    ensures x.Finite? ==> r.v == x.v * k
    ensures !x.Finite? ==> r == x
  {
    match x
    case Finite(v) => Finite(v * k)
    case _ => x
  }

  /** `Math.abs`: infinities of either sign become `Infinity`, and `NaN` stays `NaN`. */
  function Abs(x: XReal): (r: XReal)
    ensures r != NegInf
    ensures r.Finite? <==> x.Finite?
    ensures x.Finite? ==> r.v >= 0.0 && (r.v == x.v || r.v == -x.v)
    ensures r == NaN <==> x == NaN
  {
    match x
    case Finite(v) => Finite(if v < 0.0 then -v else v)
    case NaN => NaN
    case _ => PosInf
  }

  /** The comparison `x > c`; every comparison with `NaN` is false. */
  predicate Exceeds(x: XReal, c: real) {
    match x
    case Finite(v) => v > c
    case PosInf => true
    case NegInf => false
    case NaN => false
  }

  /** Comparison against a threshold never reverses when the threshold is lowered. */
  lemma ExceedsDownwardClosed(x: XReal, c: real, d: real)
    requires d <= c
    ensures Exceeds(x, c) ==> Exceeds(x, d)
  {
  }
}
