/** Swift's fixed-width integers as far as the facade depends on them: `Int` is 64 bits and
    traps on overflow, `Int32(n)` traps when `n` does not fit, and `/` truncates toward zero. */
module SwiftInt {

  const IntMin: int := -0x8000_0000_0000_0000
  const IntMax: int := 0x7fff_ffff_ffff_ffff
  const Int32Min: int := -0x8000_0000
  const Int32Max: int := 0x7fff_ffff

  /** `x` is a value of Swift's `Int`: arithmetic producing anything else traps. */
  predicate InInt(x: int) {
    IntMin <= x <= IntMax
  }

  /** `Int32(x)` succeeds (the conversion traps otherwise). */
  predicate InInt32(x: int) {
    Int32Min <= x <= Int32Max
  }

  /** Swift's `n / 2` on `Int`: the quotient truncated toward zero (Dafny's `/` is Euclidean). */
  function Half(n: int): (h: int)
    ensures n >= 0 ==> 0 <= h && 2 * h <= n < 2 * h + 2
    ensures n < 0 ==> h <= 0 && 2 * h - 2 < n <= 2 * h
  {
    if n >= 0 then n / 2 else -((-n) / 2)
  }

}
