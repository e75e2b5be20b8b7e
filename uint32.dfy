/** Unsigned 32-bit arithmetic as the C compiler performs it on `uint32_t`. */
module Uint32 {

  /** 2^32: the number of distinct values of a `uint32_t`. */
  const MODULUS: int := 0x1_0000_0000

  /** The values a `uint32_t` can hold. */
  type u32 = x: int | 0 <= x < MODULUS

  /** `a - b` on `uint32_t`: the difference taken modulo 2^32.  It is the unique
      32-bit value that, added to `b` with wrap-around, gives back `a`. */
  function Sub(a: u32, b: u32): (r: u32)
    ensures (b + r) % MODULUS == a
    ensures b <= a ==> r == a - b
    ensures a < b ==> r == MODULUS + a - b
  {
    (a - b) % MODULUS
  }

  /** If a free-running 32-bit counter stood at `start` and then advanced by `elapsed`
      ticks (fewer than 2^32), possibly wrapping past zero, the wrapped difference of its
      two readings is exactly `elapsed`. */
  lemma SubRecoversElapsed(start: u32, elapsed: nat)
    requires elapsed < MODULUS
    ensures Sub((start + elapsed) % MODULUS, start) == elapsed
  {
  }
}
