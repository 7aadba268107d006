/** Fixed-width integers of the C++ source, as subsets of int. */
module Integers {

  type int32 = x: int | -0x8000_0000 <= x < 0x8000_0000

  /** The qint32 that a mathematical integer becomes in two's complement. */
  function Wrap32(x: int): (r: int32)
    ensures -0x8000_0000 <= x < 0x8000_0000 ==> r == x
    ensures (r - x) % 0x1_0000_0000 == 0
  {
    (x + 0x8000_0000) % 0x1_0000_0000 - 0x8000_0000
  }

  /** A sum of two positive int32 either is exact or wraps to something negative. */
  lemma PositiveWrapIsExact(x: int)
    requires -0x8000_0000 <= x < 0x1_0000_0000 && Wrap32(x) > 0
    ensures Wrap32(x) == x
  {
  }

  type int64 = x: int | -0x8000_0000_0000_0000 <= x < 0x8000_0000_0000_0000

  /** The qint64 that a mathematical integer becomes in two's complement. */
  function Wrap64(x: int): (r: int64)
    ensures -0x8000_0000_0000_0000 <= x < 0x8000_0000_0000_0000 ==> r == x
    ensures (r - x) % 0x1_0000_0000_0000_0000 == 0
  {
    (x + 0x8000_0000_0000_0000) % 0x1_0000_0000_0000_0000 - 0x8000_0000_0000_0000
  }

  lemma WrapIsOneTurn(sum: int)
    requires -0x1_0000_0000 <= sum < 0x1_0000_0000
    ensures Wrap32(sum) == if sum >= 0x8000_0000 then sum - 0x1_0000_0000
                           else if sum < -0x8000_0000 then sum + 0x1_0000_0000 else sum
  {
  }
}
