/** Go's 64-bit signed integers and their two's-complement wrap-around. */
module Numeric {

  const Int64Min: int := -0x8000_0000_0000_0000
  const Int64Max: int := 0x7fff_ffff_ffff_ffff
  const Two64: int := 0x1_0000_0000_0000_0000

  newtype int64 = x: int | -0x8000_0000_0000_0000 <= x < 0x8000_0000_0000_0000

  predicate InInt64(x: int) { Int64Min <= x <= Int64Max }

  /**
   * The int64 that Go's `+` or `*` yields for the mathematical value x:
   * the unique int64 congruent to x modulo 2^64.
   */
  function Wrap(x: int): (r: int64)
    ensures InInt64(x) ==> r as int == x
    ensures (x - r as int) % Two64 == 0
  {
    ((x - Int64Min) % Two64 + Int64Min) as int64
  }
}
