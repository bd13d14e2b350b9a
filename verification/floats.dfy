/**
  The part of Python's `float` that the weather assistant depends on: finite
  values, the two infinities used to seed the running extremes, and NaN, which
  `float()` accepts when the user types coordinates.
*/
module Floats {

  datatype Float = Finite(value: real) | PosInf | NegInf | NaN

  /** Python's `a < b` on floats; every comparison with NaN is false. */
  predicate Less(a: Float, b: Float) {
    match (a, b)
    case (NaN, _) => false
    case (_, NaN) => false
    case (NegInf, NegInf) => false
    case (NegInf, _) => true
    case (_, PosInf) => a != PosInf
    case (PosInf, _) => false
    case (_, NegInf) => false
    case (Finite(x), Finite(y)) => x < y
  }

  /** Python's `a <= b` on floats; false whenever NaN is involved. */
  predicate AtMost(a: Float, b: Float) {
    a != NaN && b != NaN && (a == b || Less(a, b))
  }

  /**
    Python's two-argument `max(a, b)`: the second wins only when strictly
    greater. Without NaN the result is the larger one; a NaN first argument is
    kept and a NaN second argument is ignored.
  */
  function PyMax(a: Float, b: Float): (r: Float)
    ensures r == a || r == b
    ensures a != NaN && b != NaN ==> AtMost(a, r) && AtMost(b, r)
    ensures a == NaN || b == NaN ==> r == a
  {
    if Less(a, b) then b else a
  }

  /**
    Python's two-argument `min(a, b)`: the second wins only when strictly
    smaller. Without NaN the result is the smaller one; a NaN first argument is
    kept and a NaN second argument is ignored.
  */
  function PyMin(a: Float, b: Float): (r: Float)
    ensures r == a || r == b
    ensures a != NaN && b != NaN ==> AtMost(r, a) && AtMost(r, b)
    ensures a == NaN || b == NaN ==> r == a
  {
    if Less(b, a) then b else a
  }
}
