/**
 * Go's `int64` (and `int` on 64-bit targets): a signed 64-bit integer whose
 * `++` wraps around in two's complement.
 */
module Int64 {

  const MIN: int := -0x8000_0000_0000_0000
  const MAX: int := 0x7FFF_FFFF_FFFF_FFFF
  const MODULUS: int := 0x1_0000_0000_0000_0000

  newtype int64 = x: int | -0x8000_0000_0000_0000 <= x <= 0x7FFF_FFFF_FFFF_FFFF

  /** `x + 1` as Go computes it on an `int64`: the largest value wraps to the smallest. */
  function Inc(x: int64): (r: int64)
  {
    if x as int == MAX then MIN as int64 else x + 1
  }

  /** The two's-complement reading of a mathematical integer, as Go's arithmetic defines it. */
  function Wrap(n: int): (r: int64)
  {
    ((n - MIN) % MODULUS + MIN) as int64
  }

  /** Inc is addition of one modulo 2^64, and below MAX it is plain addition. */
  lemma IncIsModular(x: int64)
    ensures Inc(x) == Wrap(x as int + 1)
    ensures x as int < MAX ==> Inc(x) as int == x as int + 1
    ensures x as int == MAX ==> Inc(x) as int == MIN
  {
  }
}
