/** Real division as the simulation uses it. Where the source divides by a
    value it never checks, a zero divisor (an IEEE infinity or NaN there) is
    given the value 0 here. */
module Numeric {

  function Div(a: real, b: real): (q: real)
    ensures b != 0.0 ==> q * b == a
    ensures b == 0.0 ==> q == 0.0
  {
    if b == 0.0 then 0.0 else a / b
  }
}
