/** Bytes, and powers of two. */
module Bytes {
  newtype Byte = x: int | 0 <= x < 256

  function Power2(e: nat): nat {
    if e == 0 then 1 else 2 * Power2(e - 1)
  }
}
