/** Java's 32-bit `int`, which an `Integer` unboxes to before `+` is applied. */
module JavaInt {

  const TwoTo32: int := 0x1_0000_0000
  const MinInt: int := -0x8000_0000
  const MaxInt: int := 0x7fff_ffff

  newtype Int32 = x: int | -0x8000_0000 <= x < 0x8000_0000

  /** Reduces a mathematical integer to the 32-bit two's-complement value Java keeps. */
  function Wrap(v: int): (r: Int32)
    ensures (r as int - v) % TwoTo32 == 0
    ensures MinInt <= v <= MaxInt ==> r as int == v
  {
    ((v - MinInt) % TwoTo32 + MinInt) as Int32
  }

  /** Java's `x + y` on two ints: the exact sum when it fits, otherwise the sum wrapped around. */
  function Add(x: Int32, y: Int32): (r: Int32)
    ensures (r as int - (x as int + y as int)) % TwoTo32 == 0
    ensures MinInt <= x as int + y as int <= MaxInt ==> r as int == x as int + y as int
    ensures x as int + y as int > MaxInt ==> r as int == x as int + y as int - TwoTo32
    ensures x as int + y as int < MinInt ==> r as int == x as int + y as int + TwoTo32
  {
    Wrap(x as int + y as int)
  }

  /** The largest int plus one is the smallest int. */
  lemma AddOverflowWraps()
    ensures Add(MaxInt as Int32, 1) as int == MinInt
  {
  }
}
