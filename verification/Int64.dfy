/** Signed 64-bit numbers. */
module Int64 {
  const TWO_TO_64: int := 0x1_0000_0000_0000_0000
  const MIN_INT64: int := -0x8000_0000_0000_0000
  const MAX_INT64: int := 0x7FFF_FFFF_FFFF_FFFF

  predicate IsInt64(x: int) {
    MIN_INT64 <= x <= MAX_INT64
  }

  /** What is left of x in 64 bits. */
  function Wrap64(x: int): (w: int)
    ensures IsInt64(w) && (w == x <==> IsInt64(x))
    ensures (x - w) % TWO_TO_64 == 0
  {
    (x - MIN_INT64) % TWO_TO_64 + MIN_INT64
  }
}
