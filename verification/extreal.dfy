/** Extended reals: the numbers the renderer stores in its matrices and vectors.
    A coordinate is either a finite real or one of the two signed infinities that
    stand for geometry unbounded in that direction (horizon lines). */
module ExtReal {

  datatype ER = Fin(v: real) | PosInf | NegInf {

    /** True for the two infinity sentinels. */
    predicate IsInfinite() {
      !Fin?
    }
  }

  /** The sign the multiply routine reads off an operand with `> 0` / `< 0`:
      +1, -1, or 0 for an operand that is exactly zero. */
  function Sign(e: ER): (r: int)
    ensures -1 <= r <= 1
    ensures r == 0 <==> e == Fin(0.0)
    ensures r > 0 <==> e == PosInf || (e.Fin? && e.v > 0.0)
  {
    match e
    case PosInf => 1
    case NegInf => -1
    case Fin(x) => if x > 0.0 then 1 else if x < 0.0 then -1 else 0
  }

  /** `e < bound` as JavaScript compares a number (possibly +-Infinity) with a finite bound. */
  predicate Below(e: ER, bound: real) {
    match e
    case NegInf => true
    case PosInf => false
    case Fin(x) => x < bound
  }

  /** `e > bound`, likewise. */
  predicate Above(e: ER, bound: real) {
    match e
    case NegInf => false
    case PosInf => true
    case Fin(x) => x > bound
  }
}
