/** Results that may be absent, and the words the firmware counts in. */
module Wrappers {

  datatype Option<T> = None | Some(value: T)

  const TWO_TO_THE_32: int := 0x1_0000_0000
  const TWO_TO_THE_64: int := 0x1_0000_0000_0000_0000

  newtype uint8 = x: int | 0 <= x < 0x100
  newtype uint32 = x: int | 0 <= x < TWO_TO_THE_32
  newtype uint64 = x: int | 0 <= x < TWO_TO_THE_64

  /** Unsigned 32-bit results, which wrap. */
  function Wrap32(x: int): (w: uint32)
    ensures 0 <= x < TWO_TO_THE_32 ==> w as int == x
    ensures -TWO_TO_THE_32 <= x < 0 ==> w as int == x + TWO_TO_THE_32
    ensures TWO_TO_THE_32 <= x < 2 * TWO_TO_THE_32 ==> w as int == x - TWO_TO_THE_32
  {
    (x % TWO_TO_THE_32) as uint32
  }

  function Min(a: nat, b: nat): nat {
    if a < b then a else b
  }

  /** The last `n` elements, or all when there are fewer. */
  function Last<T>(n: nat, s: seq<T>): seq<T> {
    if |s| <= n then s else s[|s| - n..]
  }
}
