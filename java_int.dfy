/**
 * Java's 32-bit `int` arithmetic, written out over Dafny's unbounded integers:
 * the narrowing `(int)` cast from `long` and `/`, which truncates toward zero.
 */
module JavaInt {
  const INT_MIN: int := -0x8000_0000
  const INT_MAX: int := 0x7FFF_FFFF
  const LONG_MAX: int := 0x7FFF_FFFF_FFFF_FFFF

  predicate IsInt(x: int) {
    INT_MIN <= x <= INT_MAX
  }

  /** `(int) x`: keeps the low 32 bits of `x` and reads them in two's complement. */
  function ToInt(x: int): (r: int)
    ensures IsInt(r)
    ensures (x - r) % 0x1_0000_0000 == 0
    ensures IsInt(x) ==> r == x
  {
    var low := x % 0x1_0000_0000;
    if low > INT_MAX then low - 0x1_0000_0000 else low
  }

  /** `a / b` on Java integers with a positive divisor: the quotient rounded toward zero. */
  function DivTrunc(a: int, b: int): (q: int)
    requires b > 0
    ensures a >= 0 ==> 0 <= a - q * b < b
    ensures a < 0 ==> 0 <= q * b - a < b
  {
    if a >= 0 then a / b else -((-a) / b)
  }
}
