/** The overflow cascade of `Generate` (generator/generator.go:86-107) as a
    function on the four counters: lowSequence rolls into highSequence, which
    rolls into timestamp. The cap of lowSequence is a parameter so that the
    source's cap (9) and a cap that fits its one allocated bit (1) can be
    compared; everything that models the source passes LowSequenceMax. */
module Cascade {
  import opened Int64s
  import opened Types
  import opened Layout

  /** The cap lowSequence would have if it were derived from its width like
      the other maxima: `-1 ^ (-1 << 1)` is 1. */
  const LowSequenceMaxIntended: int64 := 1

  /** The intended cap is what `-1 ^ (-1 << lowSequenceSize)` gives, like the
      other maxima, and differs from the source's cap. */
  lemma IntendedCapFollowsWidth()
    ensures LowSequenceMaxIntended == MaxForSize(LowSequenceSize) && LowSequenceMaxIntended != LowSequenceMax
  {
    ConstantsFollowWidths();
  }

  /** One step of the cascade: the new counters, or the error `Generate` returns. */
  function Advance(f: Fields, lowMax: int64): (r: Result<Fields>)
    ensures r.Ok? ==> r.value.machine == f.machine
    ensures r.Ok? && f.lowSequence == lowMax ==> r.value.lowSequence == 0
  {
    if f.lowSequence == lowMax then
      if f.machine > MachineMax then Err(MachineInvalid(f.machine))
      else if f.highSequence == HighSequenceMax then
        if f.timestamp == TimestampMax then Err(Exhausted)
        else Ok(f.(timestamp := Inc(f.timestamp), highSequence := 0, lowSequence := 0))
      else Ok(f.(highSequence := Inc(f.highSequence), lowSequence := 0))
    else Ok(f.(lowSequence := Inc(f.lowSequence)))
  }

  /** The three counters within their ranges; machine is not constrained. */
  predicate CountersInRange(f: Fields, lowMax: int64)
  {
    0 <= f.lowSequence <= lowMax && 0 <= f.highSequence <= HighSequenceMax && f.timestamp <= TimestampMax
  }

  /** (timestamp, highSequence, lowSequence) read as one mixed-radix number:
      radix lowMax + 1 for lowSequence, 256 for highSequence. */
  function Position(f: Fields, lowMax: int64): (r: int)
  {
    (f.timestamp as int * (HighSequenceMax as int + 1) + f.highSequence as int) * (lowMax as int + 1)
      + f.lowSequence as int
  }

  /** A step fails exactly when lowSequence is at its cap and either machine
      is out of range or the other two counters are at their maxima too; the
      machine check comes first. A failing step changes nothing, so the next
      step from the same counters fails the same way. */
  lemma AdvanceFails(f: Fields, lowMax: int64)
    ensures Advance(f, lowMax).Err? <==>
      f.lowSequence == lowMax &&
      (f.machine > MachineMax || (f.highSequence == HighSequenceMax && f.timestamp == TimestampMax))
    ensures Advance(f, lowMax).Err? && f.machine > MachineMax ==>
      Advance(f, lowMax).error == MachineInvalid(f.machine)
    ensures Advance(f, lowMax).Err? && f.machine <= MachineMax ==> Advance(f, lowMax).error == Exhausted
  {
  }

  /** From in-range counters a successful step keeps them in range, keeps
      machine, and moves the mixed-radix position forward by exactly one,
      so the triple strictly increases lexicographically. */
  lemma AdvanceSteps(f: Fields, lowMax: int64)
    requires 0 <= lowMax && CountersInRange(f, lowMax)
    requires Advance(f, lowMax).Ok?
    ensures var g := Advance(f, lowMax).value;
      CountersInRange(g, lowMax) && g.machine == f.machine &&
      g.timestamp >= f.timestamp &&
      Position(g, lowMax) == Position(f, lowMax) + 1 && Precedes(f, g)
  {
    var g := Advance(f, lowMax).value;
    var th := f.timestamp as int * 256 + f.highSequence as int;
    var radix := lowMax as int + 1;
    if f.lowSequence == lowMax {
      assert (th + 1) * radix == th * radix + radix;
      assert g.timestamp as int * 256 + g.highSequence as int == th + 1;
    }
  }

  /** With the source's cap, ids issued one after another strictly increase
      whenever machine is a multiple of 8. */
  lemma IdIncreases(f: Fields)
    requires Packable(f) && f.machine % 8 == 0
    requires Advance(f, LowSequenceMax).Ok?
    ensures Packable(Advance(f, LowSequenceMax).value)
    ensures Pack(f) < Pack(Advance(f, LowSequenceMax).value)
  {
    AdvanceSteps(f, LowSequenceMax);
    PackMonotone(f, Advance(f, LowSequenceMax).value);
  }

  /** With the cap at 1, lowSequence never leaves its bit: for every in-range
      machine the next id is strictly larger, and every id unpacks to the
      counters that produced it. */
  lemma IntendedIdIncreases(f: Fields)
    requires Packable(f) && f.lowSequence <= LowSequenceMaxIntended
    requires Advance(f, LowSequenceMaxIntended).Ok?
    ensures var g := Advance(f, LowSequenceMaxIntended).value;
      Packable(g) && g.lowSequence <= LowSequenceMaxIntended &&
      Pack(f) < Pack(g) && Unpack(Pack(g)) == g
  {
    var g := Advance(f, LowSequenceMaxIntended).value;
    AdvanceSteps(f, LowSequenceMaxIntended);
    PackMonotone(f, g);
    UnpackPack(g);
  }
}
