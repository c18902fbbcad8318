/** The `Butterfly` generator (generator/generator.go:46-49, 83-127): four
    counters updated in place by `Generate`, and `BatchGenerate` looping over it.
    The mutex is not part of this sequential model (see module Locking). */
module Generator {
  import opened Int64s
  import opened Types
  import opened Layout
  import opened Cascade

  /** The outcome of running `Generate` up to n times: the counters reached,
      the counters each successful call produced, in order, and the error
      that stopped the run, if any. */
  datatype Run = Run(state: Fields, issued: seq<Fields>, err: Option<Error>)

  /** The ids of the given counters, in order. */
  function IdsOf(states: seq<Fields>): (r: seq<int64>)
  {
    seq(|states|, k requires 0 <= k < |states| => Pack(states[k]))
  }

  /** n sequential `Generate` calls from `f`, stopping at the first error.
      The counters end at the last state issued, or where they started. */
  function RunFor(f: Fields, n: nat): (r: Run)
    ensures r.state == if |r.issued| == 0 then f else r.issued[|r.issued| - 1]
  {
    if n == 0 then Run(f, [], None)
    else
      var r := RunFor(f, n - 1);
      if r.err.Some? then r
      else match Advance(r.state, LowSequenceMax)
        case Ok(g) => Run(g, r.issued + [g], None)
        case Err(e) => Run(r.state, r.issued, Some(e))
  }

  class Butterfly {
    var timestamp: int64
    var highSequence: int64
    var machine: int64
    var lowSequence: int64

    function State(): Fields
      reads this
    {
      Fields(timestamp, highSequence, machine, lowSequence)
    }

    /** A generator holding the given counters, as a struct literal would. */
    constructor (f: Fields)
      ensures State() == f
    {
      timestamp, highSequence, machine, lowSequence := f.timestamp, f.highSequence, f.machine, f.lowSequence;
    }

    /** Advances the counters one step and returns the packed id; on either
        error returns 0 and leaves every counter as it was. */
    method Generate() returns (id: int64, err: Option<Error>)
      modifies this
      ensures match Advance(old(State()), LowSequenceMax)
        case Ok(g) => State() == g && id == Pack(g) && err == None
        case Err(e) => State() == old(State()) && id == 0 && err == Some(e)
    {
      if lowSequence == LowSequenceMax {
        if machine > MachineMax {
          return 0, Some(MachineInvalid(machine));
        }
        if highSequence == HighSequenceMax {
          if timestamp == TimestampMax {
            return 0, Some(Exhausted);
          } else {
            timestamp := Inc(timestamp);
            highSequence := 0;
          }
        } else {
          highSequence := Inc(highSequence);
        }
        lowSequence := 0;
      } else {
        lowSequence := Inc(lowSequence);
      }
      id := Pack(State());
      err := None;
    }

    /** Calls `Generate` count times and collects the ids in order; a count
        of zero or less gives no ids and no error; the first error discards
        the ids collected so far and is returned. */
    method BatchGenerate(count: int) returns (ids: seq<int64>, err: Option<Error>)
      modifies this
      ensures var r := RunFor(old(State()), if count > 0 then count else 0);
        State() == r.state && err == r.err && ids == (if r.err.None? then IdsOf(r.issued) else [])
    {
      ghost var start := State();
      ghost var n: nat := if count > 0 then count else 0;
      ghost var done: nat := 0;
      ghost var issued: seq<Fields> := [];
      var left := count;
      var idList: seq<int64> := [];
      while left > 0
        invariant done == n - (if left > 0 then left else 0)
        invariant RunFor(start, done) == Run(State(), issued, None)
        invariant idList == IdsOf(issued)
      {
        ghost var before := State();
        var id, e := Generate();
        RunForNext(start, done, before, issued);
        if e.Some? {
          RunForAfterError(start, done + 1, n);
          return [], e;
        }
        IdsOfAppend(issued, State());
        idList := idList + [id];
        issued := issued + [State()];
        left := left - 1;
        done := done + 1;
      }
      return idList, None;
    }
  }

  /** One more call after a run that has not failed. */
  lemma RunForNext(f: Fields, k: nat, s: Fields, issued: seq<Fields>)
    requires RunFor(f, k) == Run(s, issued, None)
    ensures RunFor(f, k + 1) == match Advance(s, LowSequenceMax)
      case Ok(g) => Run(g, issued + [g], None)
      case Err(e) => Run(s, issued, Some(e))
  {
  }

  lemma IdsOfAppend(states: seq<Fields>, g: Fields)
    ensures IdsOf(states + [g]) == IdsOf(states) + [Pack(g)]
  {
    assert IdsOf(states + [g])[|states|] == Pack(g);
  }

  /** Once a run has stopped at an error, running longer changes nothing. */
  lemma {:induction false} RunForAfterError(f: Fields, k: nat, n: nat)
    requires k <= n && RunFor(f, k).err.Some?
    ensures RunFor(f, n) == RunFor(f, k)
    decreases n - k
  {
    if k < n {
      RunForAfterError(f, k, n - 1);
    }
  }

  /** A run without error issues exactly n ids; one that fails issued fewer. */
  lemma {:induction false} RunForLength(f: Fields, n: nat)
    ensures RunFor(f, n).err.None? ==> |RunFor(f, n).issued| == n
    ensures RunFor(f, n).err.Some? ==> |RunFor(f, n).issued| < n
  {
    if n > 0 {
      RunForLength(f, n - 1);
    }
  }

  /** The k-th id of a batch comes from the counters after k + 1 calls: the
      batch issues, in order, what that many single calls would. */
  lemma {:induction false} RunForIssued(f: Fields, n: nat, k: nat)
    requires k < |RunFor(f, n).issued|
    ensures k + 1 <= n && RunFor(f, k + 1).err.None?
    ensures RunFor(f, n).issued[k] == RunFor(f, k + 1).state
  {
    RunForLength(f, n);
    RunForLength(f, n - 1);
    if k < |RunFor(f, n - 1).issued| {
      RunForIssued(f, n - 1, k);
    }
  }

  /** Along a run from in-range counters, the counters stay in range, machine
      never changes, and the issued counters strictly increase in
      (timestamp, highSequence, lowSequence), each before the final state. */
  lemma {:induction false} RunForInOrder(f: Fields, n: nat)
    requires CountersInRange(f, LowSequenceMax)
    ensures var r := RunFor(f, n);
      CountersInRange(r.state, LowSequenceMax) && r.state.machine == f.machine &&
      r.state.timestamp >= f.timestamp
    ensures var r := RunFor(f, n);
      forall k :: 0 <= k < |r.issued| ==>
        CountersInRange(r.issued[k], LowSequenceMax) && r.issued[k].machine == f.machine &&
        r.issued[k].timestamp >= f.timestamp && (r.issued[k] == r.state || Precedes(r.issued[k], r.state))
    ensures var r := RunFor(f, n);
      forall i, j :: 0 <= i < j < |r.issued| ==> Precedes(r.issued[i], r.issued[j])
  {
    if n > 0 {
      RunForInOrder(f, n - 1);
      var r := RunFor(f, n - 1);
      if r.err.None? && Advance(r.state, LowSequenceMax).Ok? {
        AdvanceSteps(r.state, LowSequenceMax);
      }
    }
  }

  /** From non-negative in-range counters every issued state is packable too. */
  lemma RunForPackable(f: Fields, n: nat)
    requires Packable(f)
    ensures forall k :: 0 <= k < |RunFor(f, n).issued| ==>
      Packable(RunFor(f, n).issued[k]) && RunFor(f, n).issued[k].machine == f.machine
  {
    RunForInOrder(f, n);
  }

  /** Non-negative ids, each strictly larger than the ones before it. */
  predicate IncreasingIds(ids: seq<int64>)
  {
    (forall k :: 0 <= k < |ids| ==> 0 <= ids[k]) &&
    (forall i, j :: 0 <= i < j < |ids| ==> ids[i] < ids[j])
  }

  /** Counters that are packable, share a machine that is a multiple of 8,
      and strictly increase in (timestamp, highSequence, lowSequence) have
      non-negative, strictly increasing ids. */
  lemma IdsIncreasing(states: seq<Fields>, machine: int64)
    requires machine % 8 == 0
    requires forall k :: 0 <= k < |states| ==> Packable(states[k]) && states[k].machine == machine
    requires forall i, j :: 0 <= i < j < |states| ==> Precedes(states[i], states[j])
    ensures IncreasingIds(IdsOf(states))
  {
    var ids := IdsOf(states);
    forall k | 0 <= k < |ids|
      ensures 0 <= ids[k]
    {
      PackNonNegative(states[k]);
    }
    forall i, j | 0 <= i < j < |ids|
      ensures ids[i] < ids[j]
    {
      PackMonotone(states[i], states[j]);
    }
  }

  /** From non-negative in-range counters with machine a multiple of 8, the
      ids of a batch are non-negative and strictly increase. */
  lemma BatchIncreasing(f: Fields, n: nat)
    requires Packable(f) && f.machine % 8 == 0
    ensures IncreasingIds(IdsOf(RunFor(f, n).issued))
  {
    RunForPackable(f, n);
    RunForInOrder(f, n);
    IdsIncreasing(RunFor(f, n).issued, f.machine);
  }

  /** With machine 7, three calls after a highSequence rollover issue the
      same id twice, and the third id is below the second. */
  lemma BatchRepeatsId()
    ensures var ids := IdsOf(RunFor(Fields(0, 0, 7, 9), 3).issued);
      RunFor(Fields(0, 0, 7, 9), 3).err.None? && |ids| == 3 && ids[0] == ids[2] && ids[2] < ids[1]
  {
    var f := Fields(0, 0, 7, 9);
    assert RunFor(f, 1) == Run(Fields(0, 1, 7, 0), [Fields(0, 1, 7, 0)], None);
    assert RunFor(f, 2) == Run(Fields(0, 1, 7, 1), [Fields(0, 1, 7, 0), Fields(0, 1, 7, 1)], None);
    assert RunFor(f, 3).issued == [Fields(0, 1, 7, 0), Fields(0, 1, 7, 1), Fields(0, 1, 7, 2)];
    OddMachineOverlap(0, 1);
  }
}
