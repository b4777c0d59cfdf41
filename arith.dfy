/**
 * The numeric conversions the C# sources rely on, written out over Dafny's
 * unbounded `int` and exact `real`:
 *  - `Math.Round(double)` rounds to the nearest integer, ties to even;
 *  - a `(int)` cast of a double truncates toward zero;
 *  - `/` on two ints truncates toward zero (Dafny's own `/` is Euclidean).
 */
module Arith {

  function Max(a: int, b: int): int { if a < b then b else a }

  function Min(a: int, b: int): int { if a < b then a else b }

  /** `Math.Clamp(x, lo, hi)` on doubles. */
  function ClampReal(x: real, lo: real, hi: real): (r: real)
    requires lo <= hi
    ensures lo <= r <= hi
    ensures lo <= x <= hi ==> r == x
    ensures x < lo ==> r == lo
    ensures hi < x ==> r == hi
  {
    if x < lo then lo else if hi < x then hi else x
  }

  function AbsReal(x: real): real { if x < 0.0 then -x else x }

  /** `Math.Round(x)`: the nearest integer, a tie going to the even neighbour. */
  function Round(x: real): (r: int)
    ensures r as real - 0.5 <= x <= r as real + 0.5
    ensures x == r as real + 0.5 ==> r % 2 == 0
    ensures x == r as real - 0.5 ==> r % 2 == 0
  {
    var f := x.Floor;
    var d := x - f as real;
    if d < 0.5 then f
    else if d > 0.5 then f + 1
    else if f % 2 == 0 then f else f + 1
  }

  /** A `(int)` cast of a double: the integer part, truncated toward zero. */
  function TruncToInt(x: real): (r: int)
    ensures 0.0 <= x ==> 0 <= r && r as real <= x < r as real + 1.0
    ensures x < 0.0 ==> r <= 0 && r as real - 1.0 < x <= r as real
  {
    if 0.0 <= x then x.Floor else -((-x).Floor)
  }

  /** C# integer division `a / b`: the quotient truncated toward zero. */
  function TruncDiv(a: int, b: int): (q: int)
    requires b != 0
    ensures var rem := a - q * b;
      && (if rem < 0 then -rem else rem) < (if b < 0 then -b else b)
      && (a >= 0 ==> rem >= 0)
      && (a <= 0 ==> rem <= 0)
  {
    var n := if a < 0 then -a else a;
    var d := if b < 0 then -b else b;
    var m := n / d;
    if (a < 0) == (b < 0) then m else -m
  }
}
