/** Java's fixed-width integers: `int` (32 bits) and `long` (64 bits), with
    the two's-complement wrap-around of `long` arithmetic written out. */
module JavaInt {

  const TwoTo32: int := 0x1_0000_0000
  const TwoTo64: int := 0x1_0000_0000_0000_0000
  const MinLong: int := -0x8000_0000_0000_0000
  const MaxLong: int := 0x7fff_ffff_ffff_ffff
  const MinInt: int := -0x8000_0000
  const MaxInt: int := 0x7fff_ffff

  /** A Java `long`. */
  type Long = x: int | MinLong <= x <= MaxLong

  /** A Java `int`. */
  type Int = x: int | MinInt <= x <= MaxInt

  predicate InLong(x: int) { MinLong <= x <= MaxLong }

  /** The `long` that Java's `+` or `*` produces for the mathematical value `x`:
      the unique value of the `long` range congruent to `x` modulo 2^64. */
  function Wrap64(x: int): (r: Long)
    ensures (r - x) % TwoTo64 == 0
    ensures InLong(x) ==> r == x
  {
    var m := (x - MinLong) % TwoTo64;
    m + MinLong
  }

  /** The unsigned value of the 32 bits of a Java `int`, as `%x` prints it. */
  function Unsigned32(x: Int): (r: nat)
    ensures r < TwoTo32
    ensures x >= 0 ==> r == x
    ensures x < 0 ==> r == x + TwoTo32
  {
    x % TwoTo32
  }

  /** Java's `a + b` on `long` operands. */
  function AddLong(a: int, b: int): (r: Long)
    ensures InLong(a + b) ==> r == a + b
  {
    Wrap64(a + b)
  }

  /** Java's `a * b` on `long` operands. */
  function MulLong(a: int, b: int): (r: Long)
    ensures InLong(a * b) ==> r == a * b
  {
    Wrap64(a * b)
  }
}
