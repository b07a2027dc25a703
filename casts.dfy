/** Rust's integer `as` casts, which keep the low bits and reinterpret them. */
module Casts {
  const TwoTo31: int := 0x8000_0000
  const TwoTo32: int := 0x1_0000_0000

  /** An unsigned 32-bit count (`u32`). */
  type U32 = n: int | 0 <= n < TwoTo32

  /** `n as i32`: the low 32 bits of `n`, read as a two's-complement number. */
  function AsI32(n: int): (r: int)
    ensures -TwoTo31 <= r < TwoTo31
    ensures (r - n) % TwoTo32 == 0
  {
    var low := n % TwoTo32;
    if low < TwoTo31 then low else low - TwoTo32
  }

  /** A count that fits in 31 bits passes through the cast unchanged. */
  lemma AsI32Small(n: int)
    requires 0 <= n < TwoTo31
    ensures AsI32(n) == n
  {
  }

  /** A `u32` count of 2^31 or more comes out of the cast negative. */
  lemma AsI32LargeU32(n: U32)
    requires n >= TwoTo31
    ensures AsI32(n) == n - TwoTo32 && AsI32(n) < 0
  {
  }
}
