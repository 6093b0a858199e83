/**
 * Go's `int` on a 64-bit platform: the range of the type and the integer
 * division operator, which truncates toward zero (Dafny's `/` is Euclidean).
 */
module GoInt {
  const MinInt64: int := -0x8000_0000_0000_0000
  const MaxInt64: int := 0x7fff_ffff_ffff_ffff

  predicate IsInt64(n: int) {
    MinInt64 <= n <= MaxInt64
  }

  /**
   * Go's `a / b` for a positive divisor: the quotient truncated toward zero.
   * The ensures clauses characterise it completely: the quotient has the sign
   * of `a` (or is zero) and `q * b` is the multiple of `b` nearest to zero
   * within distance `b` of `a`. It never leaves the int64 range.
   */
  function Quo(a: int, b: int): (q: int)
    requires b > 0
    ensures 0 <= a ==> 0 <= q && q * b <= a < q * b + b
    ensures a < 0 ==> q <= 0 && q * b - b < a <= q * b
    ensures IsInt64(a) ==> IsInt64(q)
  {
    if a >= 0 then a / b else -((-a) / b)
  }
}
