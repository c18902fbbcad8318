/** The mutex of `Generate` (generator/generator.go:84, 110). `Lock` on a
    mutex that is already held blocks forever; the two error returns
    (generator/generator.go:89, 95) leave without calling `Unlock`. */
module Locking {
  import opened Int64s
  import opened Types
  import opened Layout
  import opened Cascade

  datatype Mutex = Unlocked | Locked

  /** What a call does: it returns (id, error, new counters, mutex state), or
      it blocks forever in `Lock`. */
  datatype Call = Returned(id: int64, err: Option<Error>, state: Fields, mutex: Mutex) | Blocks

  /** One `Generate` call under the mutex. `releaseOnError` says whether the
      error paths unlock; as written they do not (`false`). The success path
      always unlocks. */
  function GenerateUnderLock(mutex: Mutex, f: Fields, releaseOnError: bool): (r: Call)
  {
    if mutex == Locked then Blocks
    else match Advance(f, LowSequenceMax)
      case Ok(g) => Returned(Pack(g), None, g, Unlocked)
      case Err(e) => Returned(0, Some(e), f, if releaseOnError then Unlocked else Locked)
  }

  /** As written, after any error the next call blocks instead of failing;
      an exhausted generator, for one, hangs its next caller. */
  lemma CallAfterErrorBlocks(f: Fields)
    requires Advance(f, LowSequenceMax).Err?
    ensures var first := GenerateUnderLock(Unlocked, f, false);
      first == Returned(0, Some(Advance(f, LowSequenceMax).error), f, Locked) &&
      GenerateUnderLock(first.mutex, first.state, false) == Blocks
  {
  }

  /** Releasing on every path, every call returns with the mutex free; an
      error leaves the counters as they were, so every later call fails again
      in the same way; and on success nothing differs from the source. */
  lemma CallAfterErrorFailsAgain(f: Fields)
    ensures var first := GenerateUnderLock(Unlocked, f, true);
      first.Returned? && first.mutex == Unlocked
    ensures Advance(f, LowSequenceMax).Err? ==>
      var first := GenerateUnderLock(Unlocked, f, true);
      first.state == f && GenerateUnderLock(first.mutex, first.state, true) == first
    ensures Advance(f, LowSequenceMax).Ok? ==>
      GenerateUnderLock(Unlocked, f, true) == GenerateUnderLock(Unlocked, f, false)
  {
  }

  /** The exhausted state of generator/generator.go:94-95 is one such error. */
  lemma ExhaustedBlocksNextCall(machine: int64)
    requires machine <= MachineMax
    ensures var f := Fields(TimestampMax, HighSequenceMax, machine, LowSequenceMax);
      GenerateUnderLock(Unlocked, f, false) == Returned(0, Some(Exhausted), f, Locked) &&
      GenerateUnderLock(Locked, f, false) == Blocks &&
      GenerateUnderLock(Unlocked, f, true) == Returned(0, Some(Exhausted), f, Unlocked)
  {
  }
}
