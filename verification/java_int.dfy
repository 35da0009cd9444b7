/** Java `int` arithmetic, which differs from Dafny's unbounded `int`. */
module JavaInt {

  const MinInt32: int := -0x8000_0000
  const MaxInt32: int := 0x7FFF_FFFF

  /** Values a Java `int` can hold. */
  type Int32 = x: int | MinInt32 <= x <= MaxInt32

  /** Two's-complement wrap-around of a Java `int` addition or cast. */
  function Wrap32(x: int): (r: Int32)
    ensures MinInt32 <= x <= MaxInt32 ==> r == x
    ensures (r - x) % 0x1_0000_0000 == 0
  {
    ((x - MinInt32) % 0x1_0000_0000) + MinInt32
  }

  /** Java `int` addition, e.g. `portFrom + i`: the exact sum wrapped to 32 bits. */
  function Add32(a: Int32, b: int): (r: Int32)
    ensures MinInt32 <= a + b <= MaxInt32 ==> r == a + b
  {
    Wrap32(a + b)
  }

  /** Java's `%`: the remainder takes the sign of the dividend (truncating division). */
  function Rem(a: int, b: int): (r: int)
    requires b > 0
    ensures a >= 0 ==> r == a % b
    ensures a < 0 ==> -b < r <= 0
  {
    if a >= 0 then a % b else -((-a) % b)
  }

  /** The guard `n % 2 != 1` rejects exactly the counts that are not positive and odd. */
  lemma OddGuard(n: int)
    ensures Rem(n, 2) != 1 <==> !(n > 0 && n % 2 == 1)
  {
    if n < 0 {
      assert Rem(n, 2) <= 0;
    }
  }
}
