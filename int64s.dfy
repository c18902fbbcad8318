/** Go's `int64`: 64-bit two's complement integers, with the bit pattern
    each value stands for and the wrap-around of `x++`. */
module Int64s {

  newtype int64 = x: int | -0x8000_0000_0000_0000 <= x < 0x8000_0000_0000_0000

  const Int64Min: int64 := -0x8000_0000_0000_0000
  const Int64Max: int64 := 0x7FFF_FFFF_FFFF_FFFF
  const TwoTo63: nat := 0x8000_0000_0000_0000
  const TwoTo64: nat := 0x1_0000_0000_0000_0000

  /** The 64-bit pattern of `x`, read as an unsigned number (two's complement). */
  function Bits(x: int64): (u: nat)
    ensures u < TwoTo64
    ensures (u - x as int) % TwoTo64 == 0
    ensures x >= 0 <==> u < TwoTo63
    ensures x >= 0 ==> u == x as int
  {
    (x as int) % TwoTo64
  }

  /** The `int64` whose bit pattern is `u`: bit 63 is the sign. */
  function FromBits(u: nat): (x: int64)
    requires u < TwoTo64
    ensures Bits(x) == u
    ensures x >= 0 <==> u < TwoTo63
  {
    if u < TwoTo63 then u as int64 else (u as int - TwoTo64) as int64
  }

  lemma BitsRoundTrip(x: int64)
    ensures FromBits(Bits(x)) == x
  {
  }

  /** Go's `x++` on an `int64`: add one to the bit pattern, drop the carry out of bit 63. */
  function Inc(x: int64): (r: int64)
    ensures x < Int64Max ==> r as int == x as int + 1
    ensures x == Int64Max ==> r == Int64Min
  {
    FromBits((Bits(x) + 1) % TwoTo64)
  }
}
