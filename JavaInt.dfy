/** Java's 32-bit `int`, with the two's-complement wrap-around of its arithmetic. */
module JavaInt {

  const MinInt32: int := -0x8000_0000
  const MaxInt32: int := 0x7FFF_FFFF

  /** Values a Java `int` can hold. */
  type Int32 = x: int | -0x8000_0000 <= x <= 0x7FFF_FFFF

  /** The `int` Java produces for the mathematical result `x` of `+` or `-`:
      `x` reduced modulo 2^32 into the signed range. */
  function Wrap(x: int): (r: Int32)
    ensures MinInt32 <= x <= MaxInt32 ==> r == x
    ensures (x - r) % 0x1_0000_0000 == 0
  {
    (x - MinInt32) % 0x1_0000_0000 + MinInt32
  }
}
