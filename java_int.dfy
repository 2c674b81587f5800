/** Java's 32-bit `int` and its wrap-around addition. */
module JavaInt {

  const INT_MIN: int := -0x8000_0000
  const INT_MAX: int := 0x7FFF_FFFF

  newtype int32 = x: int | -0x8000_0000 <= x < 0x8000_0000

  /** Java `a + b` on two `int`s: the exact sum reduced into the 32-bit range (two's complement). */
  function Add(a: int32, b: int32): (r: int32)
    ensures (r as int - (a as int + b as int)) % 0x1_0000_0000 == 0
    ensures INT_MIN <= a as int + b as int <= INT_MAX ==> r as int == a as int + b as int
  {
    var sum := a as int + b as int;
    if sum > INT_MAX then (sum - 0x1_0000_0000) as int32
    else if sum < INT_MIN then (sum + 0x1_0000_0000) as int32
    else sum as int32
  }

  /** The largest int plus one is the smallest int. */
  lemma AddOverflowWraps()
    ensures Add(INT_MAX as int32, 1) as int == INT_MIN
  {
  }
}
