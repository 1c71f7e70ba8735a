/** Numeric conversions the C++ variants perform on parameter values. */
module Numeric {

  /**
    C++'s `(int)` conversion of a floating-point value: the fractional part is
    discarded, rounding toward zero.
  */
  function TruncateToInt(x: real): (n: int)
    ensures 0.0 <= x ==> n as real <= x < n as real + 1.0
    ensures x < 0.0 ==> n as real - 1.0 < x <= n as real
  {
    if 0.0 <= x then x.Floor else -((-x).Floor)
  }
}
