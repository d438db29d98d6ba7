/**
 * Java's fixed-width integer arithmetic, written out over Dafny's unbounded
 * integers: 32-bit two's-complement wrap-around and division that truncates
 * toward zero.
 */
module JavaInt {
  const MIN_INT: int := -0x8000_0000
  const MAX_INT: int := 0x7fff_ffff
  const MODULUS: int := 0x1_0000_0000

  /** A Java `int`. */
  newtype Int32 = v: int | -0x8000_0000 <= v < 0x8000_0000

  /** A Java `byte` (signed). */
  newtype Byte = v: int | -0x80 <= v < 0x80

  predicate InRange(v: int) {
    MIN_INT <= v <= MAX_INT
  }

  /** The 32-bit value Java keeps of the mathematical result `v`. */
  function Wrap(v: int): (r: Int32)
    ensures InRange(v) ==> r as int == v
    ensures (v - r as int) % MODULUS == 0
  {
    ((v - MIN_INT) % MODULUS + MIN_INT) as Int32
  }

  function Add(a: Int32, b: Int32): Int32 {
    Wrap(a as int + b as int)
  }

  function Sub(a: Int32, b: Int32): Int32 {
    Wrap(a as int - b as int)
  }

  function Mul(a: Int32, b: Int32): Int32 {
    Wrap(a as int * b as int)
  }

  /** Java's `a / d` for a positive divisor: the quotient truncated toward zero. */
  function Quot(a: int, d: int): (q: int)
    requires d > 0
    ensures a >= 0 ==> q * d <= a < q * d + d
    ensures a < 0 ==> q * d - d < a <= q * d
  {
    if a >= 0 then a / d else -((-a) / d)
  }
}
