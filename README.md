# Butterfly ID generator, modelled in Dafny

The `Butterfly` generator (generator/generator.go) issues 64-bit ids built
from four `int64` counters: a 41-bit millisecond timestamp, an 8-bit
highSequence, a 13-bit machine number and a 1-bit lowSequence. `Generate`
advances the counters as an odometer (lowSequence 0..9 rolls into
highSequence 0..255, which rolls into the timestamp) and packs them as
`timestamp<<22 | highSequence<<14 | machine<<1 | lowSequence`.
`BatchGenerate` calls `Generate` in a loop. Two constructors check upper
bounds and call each other; `NewWithNow` delegates to `NewWithTimestamp`.

Modules:

- `Int64s` (int64s.dfy): Go's `int64` as a newtype, its 64-bit two's
  complement pattern, and the wrap-around of `x++`.
- `BitOps` (bitops.dfy): powers of two and bitwise OR on naturals, with the
  lemma that OR of disjoint bit ranges is addition.
- `Types` (types.dfy): the four counters as a value, and the errors.
- `Layout` (layout.dfy): the width and shift constants, the packing of
  generator/generator.go:109 on 64-bit patterns, a decoder that recovers
  timestamp and highSequence from every in-range id, and all four fields
  only when lowSequence is 0 or 1, and when packing is monotone.
- `Cascade` (cascade.dfy): one step of the odometer as a function, its
  error cases, and the step it takes.
- `Generator` (generator.dfy): the `Butterfly` class. Its fields are updated
  in place by `Generate`. `BatchGenerate` loops over it. Both are proved
  against the pure `Advance` and `RunFor`.
- `Construction` (construction.dfy): the constructors, as written (mutual
  recursion, modelled with a fuel bound) and with the base case supplied.
- `Locking` (locking.dfy): the mutex around `Generate` as a pure model of
  lock state.

## Model

| member | source | states |
|---|---|---|
| Int64s.Bits | generator/generator.go:48 | the 64-bit pattern of an `int64` is below 2^64, congruent to the value, below 2^63 exactly for non-negative values, and equal to them |
| Int64s.FromBits | generator/generator.go:109 | the `int64` whose two's-complement pattern is u: its pattern is u, and it is non-negative iff u is below 2^63; inverse of `Int64s.Bits` (`Int64s.BitsRoundTrip`) |
| Int64s.Inc | generator/generator.go:98-106 | `x++` on an `int64` adds one, except at the maximum, where it wraps to the minimum |
| BitOps.Or | generator/generator.go:109 | Go's bitwise OR operator on 64-bit patterns; its bit-by-bit reading is `BitOps.OrBitwise`, with the bound in `BitOps.OrBound` and disjoint bits giving a sum in `BitOps.OrDisjoint` |
| BitOps.OrBound | generator/generator.go:109 | OR of two values below 2^n stays below 2^n, so the packed pattern fits 64 bits |
| BitOps.OrDisjoint | generator/generator.go:109 | OR of `a * 2^k` with a value below 2^k is their sum |
| Layout.MaxForSize | generator/generator.go:30-34 | Go's `int64(-1 ^ (-1 << size))` computed on 64-bit patterns, which agrees with Go's exact constant arithmetic for widths below 64; its values at the source's widths are stated by `Layout.ConstantsFollowWidths` |
| Layout.ConstantsFollowWidths | generator/generator.go:11-42 | the maxima are 2^41-1, 255 and 8191, as `-1 ^ (-1 << size)` gives for each width; lowSequenceMax is 9, not the value 1 the formula gives for its width; the shifts are 1, 14 and 22; the widths sum to 63 |
| Layout.Shl | generator/generator.go:109 | Go's `x << k` on an `int64` as a 64-bit pattern, below 2^64 (bits shifted past bit 63 are lost); exact multiplication when nothing is lost is `Layout.ShlNonNegative` |
| Layout.PackBits | generator/generator.go:109 | the left-associated OR of the shifted fields fits 64 bits |
| Layout.Pack | generator/generator.go:109 | the id as the `int64` Go computes; its meaning is stated by `Layout.PackDecompose`, `Layout.UnpackPack`, `Layout.PackMonotone` and `Layout.PackInjective` |
| Layout.Unpack | generator/generator.go:38-42 | shifting and masking each field back out gives values within each field's width |
| Layout.PackDecompose | generator/generator.go:109 | for in-range fields, timestamp and highSequence occupy bits 14 to 62 on their own, and only machine and lowSequence share the low 14 bits |
| Layout.PackNonNegative | generator/generator.go:109 | ids of non-negative in-range fields are non-negative |
| Layout.UnpackPack | generator/generator.go:109 | timestamp and highSequence are recovered exactly from an id; all four fields are recovered iff lowSequence is 0 or 1 |
| Layout.PackIsSum | generator/generator.go:109 | when machine is a multiple of 8 the OR of the shifted fields equals their sum |
| Layout.PackMonotone | generator/generator.go:109 | with a fixed machine, ids strictly increase with (timestamp, highSequence, lowSequence) when machine is a multiple of 8 or lowSequence stays within 0..1 |
| Layout.OddMachineOverlap | generator/generator.go:109 | with machine 7, lowSequence 0 and 2 give the same id, and lowSequence 2 gives a smaller id than 1 |
| Layout.CrossMachineCollision | generator/generator.go:109 | machine 0 with lowSequence 2 and machine 1 with lowSequence 0 issue the same id, for every in-range timestamp and highSequence |
| Layout.PackInjective | generator/generator.go:109 | when every machine is a multiple of 8, two in-range states have the same id iff they are the same state, machines included |
| Layout.IntendedPackInjective | generator/generator.go:36 | with lowSequence within 0..1, two in-range states have the same id iff they are the same state, for any machines |
| Layout.NegativeTimestampPack | generator/generator.go:109 | timestamp -1 with lowSequence 1 packs to a negative id |
| Cascade.IntendedCapFollowsWidth | generator/generator.go:36 | the intended lowSequence cap 1 is what `-1 ^ (-1 << lowSequenceSize)` gives, like the other maxima, and differs from the source's 9 |
| Cascade.Advance | generator/generator.go:86-107 | one step of the odometer; a successful step keeps machine and resets lowSequence to 0 on a rollover; its failures are `Cascade.AdvanceFails`, its progress `Cascade.AdvanceSteps` |
| Cascade.AdvanceFails | generator/generator.go:86-96 | a step fails iff lowSequence is at its cap and machine is above its maximum or both other counters are at theirs; the machine error comes first, otherwise the error is exhaustion |
| Cascade.AdvanceSteps | generator/generator.go:86-107 | from in-range counters a successful step keeps them in range, keeps machine, never lowers the timestamp, and moves the mixed-radix position forward by exactly one, so the triple strictly increases |
| Cascade.IdIncreases | generator/generator.go:86-109 | with machine a multiple of 8, each successful step issues a strictly larger id from counters still in range |
| Cascade.IntendedIdIncreases | generator/generator.go:36 | with lowSequence capped at 1, every step from in-range counters issues a strictly larger id, whatever the machine, and the id unpacks to the counters that produced it |
| Generator.Butterfly.constructor | generator/generator.go:46-49 | a generator holding the given counters |
| Generator.Butterfly.Generate | generator/generator.go:83-112 | on success the counters become the next step and the id is its packing; on either error the id is 0 and all four counters are unchanged |
| Generator.Butterfly.BatchGenerate | generator/generator.go:115-127 | the counters end as after `count` sequential calls (none for count <= 0); without error the ids are those calls' ids in order; on the first error the result is no ids and that error |
| Generator.RunFor | generator/generator.go:115-127 | count sequential calls stopping at the first error; the counters end at the last state issued, or where they started |
| Generator.RunForAfterError | generator/generator.go:119-121 | once a call has failed, no further call changes anything |
| Generator.RunForLength | generator/generator.go:117-125 | a batch without error has exactly count ids; a failed one issued fewer |
| Generator.RunForIssued | generator/generator.go:117-125 | the k-th id of a batch is the id of the counters after k + 1 single calls |
| Generator.RunForInOrder | generator/generator.go:117-125 | along a batch the counters stay in range, machine never changes, and the issued counters strictly increase |
| Generator.RunForPackable | generator/generator.go:117-125 | from non-negative in-range counters every issued state is non-negative and in range |
| Generator.IdsIncreasing | generator/generator.go:109 | packable counters on one machine that is a multiple of 8, in strictly increasing order, give non-negative strictly increasing ids |
| Generator.BatchIncreasing | generator/generator.go:115-127 | from non-negative in-range counters with machine a multiple of 8, the ids of any batch are non-negative and strictly increasing |
| Generator.BatchRepeatsId | generator/generator.go:36 | from counters (0, 0, 7, 9), a batch of three issues the same id first and third, and the third is below the second |
| Construction.NewWithTimestamp | generator/generator.go:54-63 | never produces a generator, for any input and any fuel; its exact outcome is `Construction.NewWithTimestampOutcome` |
| Construction.NewWithTimestampAndMachineNumber | generator/generator.go:70-80 | never produces a generator, for any input and any fuel; its exact outcome is `Construction.NewWithTimestampAndMachineNumberOutcome` |
| Construction.NewWithTimestampOutcome | generator/generator.go:54-63 | `NewWithTimestamp` fails only for a timestamp above its maximum (negative ones are accepted); otherwise it never returns, for any depth of nested calls |
| Construction.NewWithTimestampAndMachineNumberOutcome | generator/generator.go:70-80 | the machine check runs first and its error wins; a timestamp above its maximum is then reported unchanged; in-range input never returns |
| Construction.NewWithNow | generator/generator.go:65-67 | with the clock reading passed in, fails exactly when it exceeds the timestamp maximum, and otherwise never returns |
| Construction.NewWithTimestampAndMachineNumberIntended | generator/generator.go:70-80 | the constructor with the base case supplied; stated by `Construction.IntendedConstruction` |
| Construction.NewWithTimestampIntended | generator/generator.go:54-63 | `NewWithTimestamp` with the base case supplied; stated by `Construction.IntendedConstruction` |
| Construction.IntendedConstruction | generator/generator.go:70-80 | the constructors with a base case succeed iff machine and timestamp are within their maxima, with the machine error first, and start from counters (timestamp, 0, machine, 0) in range |
| Construction.AsWrittenVersusIntended | generator/generator.go:54-80 | the source's constructors give the same error as the intended ones on every invalid input, and never return where the intended ones build a generator |
| Construction.IntendedIdsNonNegative | generator/generator.go:70-80 | a generator built by the intended constructor from non-negative values issues only non-negative ids |
| Construction.NegativeTimestampNegativeId | generator/generator.go:54-57 | timestamp -1 passes the upper-bound checks, and the first id issued from it is negative |
| Locking.GenerateUnderLock | generator/generator.go:83-112 | one call under the mutex, releasing on error or not; stated by the three `Locking` lemmas below |
| Locking.CallAfterErrorBlocks | generator/generator.go:84-95 | as written, a failing call returns 0 and the error with the mutex still held, so the next call blocks |
| Locking.CallAfterErrorFailsAgain | generator/generator.go:84-111 | releasing the mutex on every path, every call returns with the mutex free, and a call after an error fails again in the same way with the counters unchanged |
| Locking.ExhaustedBlocksNextCall | generator/generator.go:92-95 | an exhausted generator hangs the caller after the first "no more id" as written, and keeps failing with the mutex free when it is released |

## Left out

- The mutex (generator/generator.go:47, 84, 110) and concurrent callers: `Generator.Butterfly.Generate` is sequential. The lock is modelled only as lock state in module `Locking`.
- `log.Fatalf` in `BatchGenerate` (generator/generator.go:120) terminates the process. Only the `return nil, err` that follows it is modelled.
- The wall-clock read in `NewWithNow` (generator/generator.go:66): `Construction.NewWithNow` takes the reading as a parameter.
- Error message text: errors are the cases of `Types.Error`.
- A nil slice and an empty slice are both the empty sequence.
- The constructors are functions on counter values rather than allocations of a `*Butterfly`. The assignment of the machine number (generator/generator.go:78) is a record update.
- Construction.NewWithTimestamp: the unbounded mutual recursion is modelled with a fuel bound; `OutOfFuel` stands for a call that has not returned within that many nested calls (in Go, a stack overflow).
- `Generator.Butterfly` keeps the source's lowSequence cap of 9. The cap of 1 is stated on the single step and on packing (`Cascade.IntendedIdIncreases`, `Layout.IntendedPackInjective`, and the lowSequence-at-most-1 cases of `Layout.PackMonotone` and `Layout.UnpackPack`), not on `Generator.Butterfly` or on batches.
- Construction.IntendedIdsNonNegative: holds only for non-negative timestamp and machine. The constructors check upper bounds only (generator/generator.go:55, 71), so a negative timestamp is accepted, and `Construction.NegativeTimestampNegativeId` shows its first id is negative.
- `Layout.Unpack` is not in the source. It is the shift-and-mask decoder used to state which fields an id determines.
- `count` in `BatchGenerate` is an unbounded integer. The source only compares it with 0 and decrements it.

## Findings

| source | as written | input that shows it | evidently intended | confidence | as-written member | corrected member |
|---|---|---|---|---|---|---|
| generator/generator.go:36 | lowSequence is capped at 9 but packed into a 1-bit field, so values 2..9 spill into the machine bits: one machine repeats and reorders its own ids, and two machines issue the same id (`Layout.CrossMachineCollision`) | machine 7 from counters (0, 0, 7, 9): three calls issue 16398, 16399, 16398 | a cap of `-1 ^ (-1 << lowSequenceSize)`, i.e. 1, like the other maxima | not executed | Generator.BatchRepeatsId | Cascade.IntendedIdIncreases |
| generator/generator.go:89 | the two error returns (lines 89 and 95) leave `Generate` without `Unlock` | counters (2^41-1, 255, 0, 9): the first call returns "no more id", the second blocks in `Lock` | release on every path (`defer b.Unlock()`) | not executed | Locking.CallAfterErrorBlocks | Locking.CallAfterErrorFailsAgain |
| generator/generator.go:58 | `NewWithTimestamp` and `NewWithTimestampAndMachineNumber` call each other with no base case, so no generator is ever built | `NewWithTimestamp(0)` never returns | build `&Butterfly{timestamp: timestamp, machine: machine}` after the checks | not executed | Construction.NewWithTimestampOutcome | Construction.IntendedConstruction |
