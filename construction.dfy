/** The constructors of generator/generator.go:54-80. As written,
    `NewWithTimestamp` delegates to `NewWithTimestampAndMachineNumber`, which
    delegates straight back to `NewWithTimestamp`; neither ever builds a
    struct. The recursion is modelled with a fuel bound: `OutOfFuel` stands
    for a call that has not returned within that many nested calls. */
module Construction {
  import opened Int64s
  import opened Types
  import opened Layout
  import opened Cascade
  import opened Generator

  datatype Outcome = Built(fields: Fields) | Failed(error: Error) | OutOfFuel

  /** Never produces a generator; the exact outcome is NewWithTimestampOutcome. */
  function NewWithTimestamp(timestamp: int64, fuel: nat): (r: Outcome)
    ensures !r.Built?
    decreases fuel
  {
    if timestamp > TimestampMax then Failed(TimestampOutOfRange(timestamp))
    else if fuel == 0 then OutOfFuel
    else match NewWithTimestampAndMachineNumber(timestamp, 0, fuel - 1)
      case Failed(_) => Failed(ConstructionFailed(timestamp, 0))
      case Built(f) => Built(f)
      case OutOfFuel => OutOfFuel
  }

  /** Never produces a generator; the exact outcome is
      NewWithTimestampAndMachineNumberOutcome. */
  function NewWithTimestampAndMachineNumber(timestamp: int64, machine: int64, fuel: nat): (r: Outcome)
    ensures !r.Built?
    decreases fuel
  {
    if machine > MachineMax then Failed(MachineOutOfRange(machine))
    else if fuel == 0 then OutOfFuel
    else match NewWithTimestamp(timestamp, fuel - 1)
      case Failed(e) => Failed(e)
      case Built(f) => Built(f.(machine := machine))
      case OutOfFuel => OutOfFuel
  }

  /** `NewWithTimestamp` only ever fails for a timestamp above its maximum;
      for any other timestamp, negative ones included, it never returns,
      however many nested calls are allowed. */
  lemma {:induction false} NewWithTimestampOutcome(timestamp: int64, fuel: nat)
    ensures NewWithTimestamp(timestamp, fuel) ==
      if timestamp > TimestampMax then Failed(TimestampOutOfRange(timestamp)) else OutOfFuel
  {
    if timestamp <= TimestampMax && fuel >= 2 {
      NewWithTimestampOutcome(timestamp, fuel - 2);
    }
  }

  /** The machine check runs first and wins over a timestamp error; a
      timestamp above its maximum is then reported as it is (the wrapping
      error of generator/generator.go:60 is never produced); for in-range
      input the call never returns. */
  lemma NewWithTimestampAndMachineNumberOutcome(timestamp: int64, machine: int64, fuel: nat)
    ensures NewWithTimestampAndMachineNumber(timestamp, machine, fuel) ==
      if machine > MachineMax then Failed(MachineOutOfRange(machine))
      else if fuel == 0 then OutOfFuel
      else if timestamp > TimestampMax then Failed(TimestampOutOfRange(timestamp))
      else OutOfFuel
  {
    if fuel > 0 {
      NewWithTimestampOutcome(timestamp, fuel - 1);
    }
  }

  /** `NewWithNow` with the wall-clock reading passed in as `now`. */
  function NewWithNow(now: int64, fuel: nat): (r: Outcome)
    ensures r == if now > TimestampMax then Failed(TimestampOutOfRange(now)) else OutOfFuel
  {
    NewWithTimestampOutcome(now, fuel);
    NewWithTimestamp(now, fuel)
  }

  /** The constructor pair with the missing base case supplied: the machine
      check first, then the timestamp check, then a generator with both
      sequence counters at 0. */
  function NewWithTimestampAndMachineNumberIntended(timestamp: int64, machine: int64): (r: Result<Fields>)
  {
    if machine > MachineMax then Err(MachineOutOfRange(machine))
    else if timestamp > TimestampMax then Err(TimestampOutOfRange(timestamp))
    else Ok(Fields(timestamp, 0, machine, 0))
  }

  function NewWithTimestampIntended(timestamp: int64): (r: Result<Fields>)
  {
    if timestamp > TimestampMax then Err(TimestampOutOfRange(timestamp))
    else NewWithTimestampAndMachineNumberIntended(timestamp, 0)
  }

  /** The intended constructors succeed exactly on in-range input, with the
      machine error taking precedence, and start from in-range counters. */
  lemma IntendedConstruction(timestamp: int64, machine: int64)
    ensures NewWithTimestampAndMachineNumberIntended(timestamp, machine).Ok? <==>
      machine <= MachineMax && timestamp <= TimestampMax
    ensures machine > MachineMax ==>
      NewWithTimestampAndMachineNumberIntended(timestamp, machine) == Err(MachineOutOfRange(machine))
    ensures NewWithTimestampAndMachineNumberIntended(timestamp, machine).Ok? ==>
      var f := NewWithTimestampAndMachineNumberIntended(timestamp, machine).value;
      f.timestamp == timestamp && f.machine == machine &&
      CountersInRange(f, LowSequenceMax) && f.lowSequence == 0 && f.highSequence == 0
    ensures NewWithTimestampIntended(timestamp) == NewWithTimestampAndMachineNumberIntended(timestamp, 0)
  {
  }

  /** The source agrees with the intended constructors on every error, but
      where they would build a generator it never returns. */
  lemma AsWrittenVersusIntended(timestamp: int64, machine: int64, fuel: nat)
    requires fuel > 0
    ensures var r := NewWithTimestampAndMachineNumber(timestamp, machine, fuel);
      match NewWithTimestampAndMachineNumberIntended(timestamp, machine)
        case Err(e) => r == Failed(e)
        case Ok(_) => r == OutOfFuel
    ensures var r := NewWithTimestamp(timestamp, fuel);
      match NewWithTimestampIntended(timestamp)
        case Err(e) => r == Failed(e)
        case Ok(_) => r == OutOfFuel
  {
    NewWithTimestampAndMachineNumberOutcome(timestamp, machine, fuel);
    NewWithTimestampOutcome(timestamp, fuel);
  }

  /** A generator built by the intended constructor from a non-negative
      timestamp and machine issues only non-negative ids, in any batch. */
  lemma IntendedIdsNonNegative(timestamp: int64, machine: int64, n: nat)
    requires 0 <= timestamp && 0 <= machine
    requires NewWithTimestampAndMachineNumberIntended(timestamp, machine).Ok?
    ensures var ids := IdsOf(RunFor(NewWithTimestampAndMachineNumberIntended(timestamp, machine).value, n).issued);
      forall k :: 0 <= k < |ids| ==> 0 <= ids[k]
  {
    var f := NewWithTimestampAndMachineNumberIntended(timestamp, machine).value;
    var issued := RunFor(f, n).issued;
    RunForPackable(f, n);
    forall k | 0 <= k < |issued|
      ensures 0 <= Pack(issued[k])
    {
      PackNonNegative(issued[k]);
    }
  }

  /** The constructors check only upper bounds, so a negative timestamp is
      accepted, and the first id it leads to is negative. */
  lemma NegativeTimestampNegativeId()
    ensures NewWithTimestampAndMachineNumberIntended(-1, 0) == Ok(Fields(-1, 0, 0, 0))
    ensures var ids := IdsOf(RunFor(Fields(-1, 0, 0, 0), 1).issued);
      |ids| == 1 && ids[0] < 0
  {
    assert RunFor(Fields(-1, 0, 0, 0), 1).issued == [Fields(-1, 0, 0, 1)];
    NegativeTimestampPack();
  }
}
