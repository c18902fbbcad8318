/** The bit layout of an id: field widths, their maxima, their shifts, and
    the packing `timestamp<<22 | highSequence<<14 | machine<<1 | lowSequence`. */
module Layout {
  import opened Int64s
  import opened BitOps
  import opened Types

  const TimestampSize: nat := 41
  const HighSequenceSize: nat := 8
  const MachineSize: nat := 13
  const LowSequenceSize: nat := 1

  const TimestampMax: int64 := 0x1FF_FFFF_FFFF
  const HighSequenceMax: int64 := 0xFF
  const MachineMax: int64 := 0x1FFF
  /** A decimal-digit cap, not derived from LowSequenceSize like the others. */
  const LowSequenceMax: int64 := 9

  const MachineShift: nat := LowSequenceSize
  const HighSequenceShift: nat := MachineSize + LowSequenceSize
  const TimestampShift: nat := HighSequenceSize + MachineSize + LowSequenceSize

  /** Go's `int64(-1 ^ (-1 << size))`. Go evaluates it as an exact constant;
      on 64-bit patterns it agrees with that for every width below 64 (at 64
      the Go constant does not fit an `int64` and does not compile). */
  function MaxForSize(size: nat): (r: int64)
    requires size < 64
  {
    var allOnes: bv64 := 0xFFFF_FFFF_FFFF_FFFF;
    FromBits((allOnes ^ (allOnes << size)) as int)
  }

  /** The maxima are the values the source's formula gives for each width
      (except LowSequenceMax, a literal 9), and the shifts are the sums of
      the widths below each field. */
  lemma ConstantsFollowWidths()
    ensures TimestampMax == MaxForSize(TimestampSize) && TimestampMax as int == Pow2(41) - 1
    ensures HighSequenceMax == MaxForSize(HighSequenceSize) && HighSequenceMax == 255
    ensures MachineMax == MaxForSize(MachineSize) && MachineMax == 8191
    ensures LowSequenceMax == 9 && MaxForSize(LowSequenceSize) == 1
    ensures MachineShift == 1 && HighSequenceShift == 14 && TimestampShift == 22
    ensures TimestampSize + HighSequenceSize + MachineSize + LowSequenceSize == 63
  {
    Pow2Table();
  }

  /** Go's `x << k` on an `int64`, as a 64-bit pattern: bits shifted past bit 63 are lost. */
  function Shl(x: int64, k: nat): (u: nat)
    ensures u < TwoTo64
  {
    (Bits(x) * Pow2(k)) % TwoTo64
  }

  /** A non-negative value whose shifted pattern stays below bit 64 is simply multiplied. */
  lemma ShlNonNegative(x: int64, k: nat)
    requires x >= 0 && x as int * Pow2(k) < TwoTo64
    ensures Shl(x, k) == x as int * Pow2(k)
  {
  }

  /** The 64-bit pattern of the id of a state: generator/generator.go:109.
      Go's `|` is left-associative and works on the 64-bit patterns. */
  function PackBits(f: Fields): (u: nat)
    ensures u < TwoTo64
  {
    var t := Shl(f.timestamp, TimestampShift);
    var h := Shl(f.highSequence, HighSequenceShift);
    var m := Shl(f.machine, MachineShift);
    var l := Bits(f.lowSequence);
    Pow2Table();
    OrBound(t, h, 64);
    OrBound(Or(t, h), m, 64);
    OrBound(Or(Or(t, h), m), l, 64);
    Or(Or(Or(t, h), m), l)
  }

  /** The id of a state, as the `int64` Go computes. */
  function Pack(f: Fields): (r: int64)
  {
    FromBits(PackBits(f))
  }

  /** A decoder the generator itself does not have: it reverses the layout
      field by field as `id >> shift & mask` would, taking each field's own
      width (1 bit for lowSequence). An arithmetic right shift
      by k is floor division by 2^k, and masking with 2^w - 1 is the
      non-negative remainder modulo 2^w. */
  function Unpack(id: int64): (f: Fields)
    ensures 0 <= f.timestamp <= TimestampMax && 0 <= f.highSequence <= HighSequenceMax
    ensures 0 <= f.machine <= MachineMax && 0 <= f.lowSequence <= 1
  {
    Pow2Table();
    var x := id as int;
    Fields(((x / Pow2(TimestampShift)) % Pow2(TimestampSize)) as int64,
           ((x / Pow2(HighSequenceShift)) % Pow2(HighSequenceSize)) as int64,
           ((x / Pow2(MachineShift)) % Pow2(MachineSize)) as int64,
           (x % Pow2(LowSequenceSize)) as int64)
  }

  /** Every field non-negative and within its maximum. */
  predicate Packable(f: Fields)
  {
    0 <= f.timestamp <= TimestampMax && 0 <= f.highSequence <= HighSequenceMax &&
    0 <= f.machine <= MachineMax && 0 <= f.lowSequence <= LowSequenceMax
  }

  /** The part of the id below bit 14: `machine<<1 | lowSequence`. */
  function LowPart(f: Fields): (r: nat)
    requires Packable(f)
    ensures r < 16384
  {
    Pow2Table();
    OrBound(2 * (f.machine as int), f.lowSequence as int, 14);
    Or(2 * (f.machine as int), f.lowSequence as int)
  }

  lemma PackBitsShifts(f: Fields)
    ensures PackBits(f) == Or(Or(Or(Shl(f.timestamp, 22), Shl(f.highSequence, 14)),
                                 Shl(f.machine, 1)), Bits(f.lowSequence))
  {
  }

  /** On non-negative in-range fields no shift loses a bit. */
  lemma ShiftsOfPackable(f: Fields)
    requires Packable(f)
    ensures Shl(f.timestamp, 22) == f.timestamp as int * 4194304
    ensures Shl(f.highSequence, 14) == f.highSequence as int * 16384
    ensures Shl(f.machine, 1) == 2 * (f.machine as int)
    ensures Bits(f.lowSequence) == f.lowSequence as int
  {
    Pow2Table();
    ShlNonNegative(f.timestamp, 22);
    ShlNonNegative(f.highSequence, 14);
    ShlNonNegative(f.machine, 1);
  }

  /** The three left-associated ORs: the timestamp and highSequence parts are
      disjoint from each other and from everything below bit 14. */
  lemma OrChain(t: nat, h: nat, m: nat, l: nat)
    requires h < 256 && m < 8192 && l < 16
    ensures Or(Or(Or(t * 4194304, h * 16384), 2 * m), l) == (t * 256 + h) * 16384 + Or(2 * m, l)
  {
    Pow2Table();
    var th := t * 256 + h;
    var x1 := Or(t * 4194304, h * 16384);
    assert x1 == th * 16384 by {
      OrDisjoint(t, h * 16384, 22);
    }
    var x2 := Or(x1, 2 * m);
    assert x2 == th * 16384 + 2 * m by {
      OrDisjoint(th, 2 * m, 14);
    }
    OrHigh(th, 2 * m, l, 14);
  }

  /** For in-range fields the timestamp and highSequence land in their own
      bits; only machine and lowSequence share the low 14 bits. */
  lemma PackDecompose(f: Fields)
    requires Packable(f)
    ensures Pack(f) as int == (f.timestamp as int * 256 + f.highSequence as int) * 16384 + LowPart(f)
  {
    PackBitsShifts(f);
    ShiftsOfPackable(f);
    OrChain(f.timestamp as int, f.highSequence as int, f.machine as int, f.lowSequence as int);
  }

  /** The id's sign bit is never set for in-range fields: ids are non-negative. */
  lemma PackNonNegative(f: Fields)
    requires Packable(f)
    ensures 0 <= Pack(f)
  {
    PackDecompose(f);
  }

  /** Unpack on the integer value of an id. */
  lemma UnpackArithmetic(id: int64)
    ensures Unpack(id).timestamp as int == (id as int / 4194304) % 0x200_0000_0000
    ensures Unpack(id).highSequence as int == (id as int / 16384) % 256
    ensures Unpack(id).machine as int == (id as int / 2) % 8192
    ensures Unpack(id).lowSequence as int == id as int % 2
  {
    Pow2Table();
  }

  /** Dividing `th * 2^14 + r` back down, with r below bit 14. */
  lemma SplitAtBit14(x: int, t: nat, h: nat, r: nat)
    requires t < 0x200_0000_0000 && h < 256 && r < 16384
    requires x == (t * 256 + h) * 16384 + r
    ensures (x / 4194304) % 0x200_0000_0000 == t
    ensures (x / 16384) % 256 == h
    ensures (x / 2) % 8192 == r / 2 && x % 2 == r % 2
  {
    assert x == t * 4194304 + (h * 16384 + r);
    assert x == (t * 256 + h) * 8192 * 2 + r / 2 * 2 + r % 2;
  }

  /** A lowSequence of 0 or 1 fits bit 0, below the machine bits. */
  lemma LowPartOneBit(f: Fields)
    requires Packable(f) && f.lowSequence <= 1
    ensures LowPart(f) == 2 * (f.machine as int) + f.lowSequence as int
  {
    Pow2Table();
    OrDisjoint(f.machine as int, f.lowSequence as int, 1);
  }

  /** timestamp and highSequence come back exactly; the low-bit fields come
      back exactly iff lowSequence fits its one allocated bit. */
  lemma UnpackPack(f: Fields)
    requires Packable(f)
    ensures Unpack(Pack(f)).timestamp == f.timestamp
    ensures Unpack(Pack(f)).highSequence == f.highSequence
    ensures Unpack(Pack(f)) == f <==> f.lowSequence <= 1
  {
    var m, l := f.machine as int, f.lowSequence as int;
    PackDecompose(f);
    UnpackArithmetic(Pack(f));
    SplitAtBit14(Pack(f) as int, f.timestamp as int, f.highSequence as int, LowPart(f));
    if l <= 1 {
      LowPartOneBit(f);
    }
  }

  /** When machine is a multiple of 8 its bits start at bit 4, above every
      lowSequence value 0..9: the machine and lowSequence parts are disjoint. */
  lemma LowPartIsSum(f: Fields)
    requires Packable(f) && f.machine % 8 == 0
    ensures LowPart(f) == 2 * (f.machine as int) + f.lowSequence as int
  {
    Pow2Table();
    var m := f.machine as int;
    assert m / 8 * Pow2(4) == 2 * m;
    OrDisjoint(m / 8, f.lowSequence as int, 4);
  }

  /** When machine is a multiple of 8 the OR of the fields is their sum. */
  lemma PackIsSum(f: Fields)
    requires Packable(f) && f.machine % 8 == 0
    ensures Pack(f) as int == f.timestamp as int * 4194304 + f.highSequence as int * 16384
                            + f.machine as int * 2 + f.lowSequence as int
  {
    PackDecompose(f);
    LowPartIsSum(f);
  }

  /** (timestamp, highSequence, lowSequence) of `f` comes strictly before that
      of `g` in lexicographic order. */
  predicate Precedes(f: Fields, g: Fields)
  {
    f.timestamp < g.timestamp ||
    (f.timestamp == g.timestamp && f.highSequence < g.highSequence) ||
    (f.timestamp == g.timestamp && f.highSequence == g.highSequence && f.lowSequence < g.lowSequence)
  }

  /** Packing is strictly monotone in (timestamp, highSequence, lowSequence)
      when machine and lowSequence do not share a bit: either machine is a
      multiple of 8, or lowSequence stays within its one allocated bit. */
  lemma PackMonotone(f: Fields, g: Fields)
    requires Packable(f) && Packable(g) && f.machine == g.machine
    requires f.machine % 8 == 0 || (f.lowSequence <= 1 && g.lowSequence <= 1)
    requires Precedes(f, g)
    ensures Pack(f) < Pack(g)
  {
    PackDecompose(f);
    PackDecompose(g);
    if f.machine % 8 == 0 {
      LowPartIsSum(f);
      LowPartIsSum(g);
    } else {
      LowPartOneBit(f);
      LowPartOneBit(g);
    }
  }

  /** With machine 7 (bits 1 to 3 set), lowSequence 0 and 2 give the same id,
      and lowSequence 2 gives a smaller id than lowSequence 1. */
  lemma OddMachineOverlap(t: int64, h: int64)
    requires 0 <= t <= TimestampMax && 0 <= h <= HighSequenceMax
    ensures Pack(Fields(t, h, 7, 0)) == Pack(Fields(t, h, 7, 2))
    ensures Pack(Fields(t, h, 7, 2)) < Pack(Fields(t, h, 7, 1))
  {
    Pow2Table();
    PackDecompose(Fields(t, h, 7, 0));
    PackDecompose(Fields(t, h, 7, 1));
    PackDecompose(Fields(t, h, 7, 2));
    assert Or(14, 0) == 14 && Or(14, 1) == 15 && Or(14, 2) == 14;
  }

  /** Machines 0 and 1 issue the same id: lowSequence 2 of machine 0 lands on
      the machine bit, where machine 1 with lowSequence 0 puts it. */
  lemma CrossMachineCollision(t: int64, h: int64)
    requires 0 <= t <= TimestampMax && 0 <= h <= HighSequenceMax
    ensures Pack(Fields(t, h, 0, 2)) == Pack(Fields(t, h, 1, 0))
  {
    PackDecompose(Fields(t, h, 0, 2));
    PackDecompose(Fields(t, h, 1, 0));
    assert Or(0, 2) == 2 && Or(2, 0) == 2;
  }

  /** A positive multiple of a positive radix is at least the radix. */
  lemma MultipleAtLeastRadix(k: int, radix: int)
    requires radix > 0
    ensures k >= 1 ==> k * radix >= radix
  {
    if k >= 1 {
      assert k * radix == radix + (k - 1) * radix;
    }
  }

  /** Splitting a number at a radix is unique. */
  lemma SplitUnique(a: int, b: int, c: int, d: int, radix: int)
    requires 0 <= b < radix && 0 <= d < radix
    requires a * radix + b == c * radix + d
    ensures a == c && b == d
  {
    assert (a - c) * radix == d - b;
    assert (c - a) * radix == b - d;
    MultipleAtLeastRadix(a - c, radix);
    MultipleAtLeastRadix(c - a, radix);
  }

  /** The sum of in-range fields, with machine a multiple of 8, determines them. */
  lemma FieldSumUnique(t1: int, h1: int, m1: int, l1: int, t2: int, h2: int, m2: int, l2: int)
    requires 0 <= h1 < 256 && 0 <= h2 < 256
    requires 0 <= m1 < 8192 && 0 <= m2 < 8192 && m1 % 8 == 0 && m2 % 8 == 0
    requires 0 <= l1 < 16 && 0 <= l2 < 16
    requires t1 * 4194304 + h1 * 16384 + m1 * 2 + l1 == t2 * 4194304 + h2 * 16384 + m2 * 2 + l2
    ensures t1 == t2 && h1 == h2 && m1 == m2 && l1 == l2
  {
    var k1, k2 := m1 / 8, m2 / 8;
    assert m1 * 2 == 16 * k1 && m2 * 2 == 16 * k2;
    SplitUnique(t1 * 256 + h1, 16 * k1 + l1, t2 * 256 + h2, 16 * k2 + l2, 16384);
    SplitUnique(k1, l1, k2, l2, 16);
    SplitUnique(t1, h1, t2, h2, 256);
  }

  /** When every machine is a multiple of 8, an id determines all four fields:
      no two different states, on the same machine or not, share an id. */
  lemma PackInjective(f: Fields, g: Fields)
    requires Packable(f) && Packable(g) && f.machine % 8 == 0 && g.machine % 8 == 0
    ensures Pack(f) == Pack(g) <==> f == g
  {
    PackIsSum(f);
    PackIsSum(g);
    if Pack(f) == Pack(g) {
      FieldSumUnique(f.timestamp as int, f.highSequence as int, f.machine as int, f.lowSequence as int,
                     g.timestamp as int, g.highSequence as int, g.machine as int, g.lowSequence as int);
    }
  }

  /** With lowSequence within its one allocated bit, an id determines all four
      fields, whatever the machines. */
  lemma IntendedPackInjective(f: Fields, g: Fields)
    requires Packable(f) && Packable(g) && f.lowSequence <= 1 && g.lowSequence <= 1
    ensures Pack(f) == Pack(g) <==> f == g
  {
    UnpackPack(f);
    UnpackPack(g);
  }

  /** A negative timestamp fills the sign bit: timestamp -1 with lowSequence 1
      packs to a negative id. */
  lemma NegativeTimestampPack()
    ensures Pack(Fields(-1, 0, 0, 1)) < 0
  {
    Pow2Table();
    var f := Fields(-1, 0, 0, 1);
    PackBitsShifts(f);
    var top := 0x3FF_FFFF_FFFF * Pow2(22);
    assert Shl(-1, 22) == top by {
      assert Bits(-1) == TwoTo64 - 1;
      assert (TwoTo64 - 1) * Pow2(22) == (Pow2(22) - 1) * TwoTo64 + top;
    }
    assert Shl(0, 14) == 0 && Shl(0, 1) == 0 && Bits(1) == 1;
    OrDisjoint(0x3FF_FFFF_FFFF, 1, 22);
    assert PackBits(f) == top + 1;
  }
}
