/** Python's numeric conversions that differ from Dafny's. */
module Arith {

  /** Python's `int(x)` on a float: truncation toward zero. */
  function Trunc(x: real): (n: int)
    ensures x >= 0.0 ==> 0 <= n && n as real <= x < n as real + 1.0
    ensures x < 0.0 ==> n <= 0 && n as real - 1.0 < x <= n as real
  {
    if x >= 0.0 then x.Floor else -((-x).Floor)
  }

  /** Truncation never decreases along non-negative arguments. */
  lemma TruncMonotone(x: real, y: real)
    requires 0.0 <= x <= y
    ensures Trunc(x) <= Trunc(y)
  {
  }
}
