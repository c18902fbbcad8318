/** Powers of two and bitwise OR on non-negative integers. */
module BitOps {

  function Pow2(k: nat): (r: nat)
    ensures r > 0
  {
    if k == 0 then 1 else 2 * Pow2(k - 1)
  }

  /** The powers of two that the 64-bit layout uses. */
  lemma Pow2Table()
    ensures Pow2(1) == 2 && Pow2(4) == 16 && Pow2(8) == 256
    ensures Pow2(13) == 8192 && Pow2(14) == 16384 && Pow2(22) == 4194304
    ensures Pow2(41) == 0x200_0000_0000
    ensures Pow2(63) == 0x8000_0000_0000_0000 && Pow2(64) == 0x1_0000_0000_0000_0000
  {
    assert Pow2(10) == 1024;
    assert Pow2(20) == 0x10_0000;
    assert Pow2(30) == 0x4000_0000;
    assert Pow2(40) == 0x100_0000_0000;
    assert Pow2(50) == 0x4_0000_0000_0000;
    assert Pow2(60) == 0x1000_0000_0000_0000;
  }

  /** Bit 0 of a number, as 0 or 1, set when bit 0 of `a` or of `b` is. */
  function LowBitOr(a: nat, b: nat): (r: nat)
  {
    if a % 2 == 1 || b % 2 == 1 then 1 else 0
  }

  /** Bitwise OR: bit i of the result is set when bit i of `a` or of `b` is. */
  function Or(a: nat, b: nat): (r: nat)
    decreases a + b
  {
    if a == 0 then b
    else if b == 0 then a
    else LowBitOr(a, b) + 2 * Or(a / 2, b / 2)
  }

  /** The bit-by-bit reading of Or also holds when an operand is zero. */
  lemma OrBitwise(a: nat, b: nat)
    ensures Or(a, b) == LowBitOr(a, b) + 2 * Or(a / 2, b / 2)
  {
  }

  /** OR never sets a bit at or above the width of both operands. */
  lemma {:induction false} OrBound(a: nat, b: nat, n: nat)
    requires a < Pow2(n) && b < Pow2(n)
    ensures Or(a, b) < Pow2(n)
  {
    if a != 0 && b != 0 {
      OrBound(a / 2, b / 2, n - 1);
    }
  }

  /** When `c` fits below bit `k`, OR-ing it into `a * 2^k + b` leaves the part
      above bit `k` alone and only ORs `c` into the low part `b`. */
  lemma {:induction false} OrHigh(a: nat, b: nat, c: nat, k: nat)
    requires b < Pow2(k) && c < Pow2(k)
    ensures Or(a * Pow2(k) + b, c) == a * Pow2(k) + Or(b, c)
  {
    if k > 0 {
      var p := Pow2(k - 1);
      var x := a * Pow2(k) + b;
      var y := a * p + b / 2;
      assert x == 2 * y + b % 2;
      assert x / 2 == y && x % 2 == b % 2;
      OrHigh(a, b / 2, c / 2, k - 1);
      OrBitwise(x, c);
      OrBitwise(b, c);
    }
  }

  /** A value that is zero below bit `k` ORed with one that fits below bit `k`
      is their sum: the bits do not overlap. */
  lemma OrDisjoint(a: nat, c: nat, k: nat)
    requires c < Pow2(k)
    ensures Or(a * Pow2(k), c) == a * Pow2(k) + c
  {
    OrHigh(a, 0, c, k);
  }
}
