/** Fixed-width integers of the Rust source and its `as` casts, written out on
    unbounded integers. */
module Ints {

  const TwoTo31: int := 0x8000_0000
  const TwoTo32: int := 0x1_0000_0000
  const TwoTo63: int := 0x8000_0000_0000_0000
  const TwoTo64: int := 0x1_0000_0000_0000_0000

  type I32 = x: int | -TwoTo31 <= x < TwoTo31
  type I64 = x: int | -TwoTo63 <= x < TwoTo63
  type U64 = x: int | 0 <= x < TwoTo64

  /** `x as u64` for an `i64`: two's complement reinterpretation. */
  function U64FromI64(x: I64): (r: U64)
    ensures 0 <= x ==> r == x
    ensures x < 0 ==> r == x + TwoTo64 && TwoTo63 <= r
  {
    if x < 0 then x + TwoTo64 else x
  }

  /** `x as i64` for a `u64`: values from 2^63 on wrap to negative. */
  function I64FromU64(x: U64): (r: I64)
    ensures x < TwoTo63 ==> r == x
    ensures TwoTo63 <= x ==> r == x - TwoTo64 && r < 0
  {
    if x < TwoTo63 then x else x - TwoTo64
  }

  /** `n as i32` for a `usize`: keeps the low 32 bits. */
  function I32FromUsize(n: nat): (r: I32)
    ensures n < TwoTo31 ==> r == n
    ensures (r - n) % TwoTo32 == 0
  {
    var low := n % TwoTo32;
    if low < TwoTo31 then low else low - TwoTo32
  }

  /** Casting an `i64` to `u64` and back gives the original value. */
  lemma I64RoundTrip(x: I64)
    ensures I64FromU64(U64FromI64(x)) == x
  {
  }
}
