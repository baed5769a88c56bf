/**
 * Go's 64-bit `int`: its range, the two's-complement wrap-around of an
 * arithmetic result that leaves it, and integer division, which truncates
 * toward zero.
 */
module GoInt {
  const MinInt64: int := -0x8000_0000_0000_0000
  const MaxInt64: int := 0x7fff_ffff_ffff_ffff

  /** 2^64, the period of the wrap-around. */
  const Modulo64: int := 0x1_0000_0000_0000_0000

  predicate InInt64(x: int) {
    MinInt64 <= x <= MaxInt64
  }

  /** What an `int` holds after an operation whose exact result is `x`. */
  function Wrap64(x: int): (r: int)
    ensures InInt64(r)
    ensures InInt64(x) ==> r == x
    ensures x > MaxInt64 && x - Modulo64 <= MaxInt64 ==> r == x - Modulo64
  {
    (x - MinInt64) % Modulo64 + MinInt64
  }

  /** Go's integer `/`: the quotient truncated toward zero. */
  function TruncDiv(a: int, b: int): int
    requires b > 0
  {
    if a >= 0 then a / b else -((-a) / b)
  }

  /** Go's integer `%`: the remainder takes the sign of the dividend. */
  function TruncMod(a: int, b: int): int
    requires b > 0
  {
    a - TruncDiv(a, b) * b
  }
}
