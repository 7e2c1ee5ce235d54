/** Java's 32-bit `int` and the two's-complement arithmetic the source relies on. */
module JavaInt {
  const MIN: int := -0x8000_0000
  const MAX: int := 0x7FFF_FFFF

  newtype int32 = x: int | -0x8000_0000 <= x < 0x8000_0000

  /** Reduction of an unbounded integer to the `int` it wraps to. */
  function Wrap(n: int): (r: int32)
    ensures (r as int - n) % 0x1_0000_0000 == 0
    ensures MIN <= n <= MAX ==> r as int == n
  {
    ((n - MIN) % 0x1_0000_0000 + MIN) as int32
  }

  /** Java `a + b` on `int`. */
  function Add(a: int32, b: int32): (r: int32)
    ensures (r as int - (a as int + b as int)) % 0x1_0000_0000 == 0
    ensures MIN <= a as int + b as int <= MAX ==> r as int == a as int + b as int
  {
    Wrap(a as int + b as int)
  }

  /** Java `a - b` on `int`. */
  function Sub(a: int32, b: int32): (r: int32)
    ensures (r as int - (a as int - b as int)) % 0x1_0000_0000 == 0
    ensures MIN <= a as int - b as int <= MAX ==> r as int == a as int - b as int
  {
    Wrap(a as int - b as int)
  }

  /** `Math.abs(int)`: the absolute value, except that `Integer.MIN_VALUE` is its own
      (negative) absolute value. */
  function Abs(a: int32): (r: int32)
    ensures a as int != MIN ==> r >= 0 && (r == a || r as int == -(a as int))
    ensures a as int == MIN ==> r == a
  {
    if a >= 0 then a else Wrap(-(a as int))
  }
}
