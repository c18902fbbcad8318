/** Values shared by the whole generator: optional values, results, the
    four counters of a `Butterfly`, and the errors it reports. */
module Types {
  import opened Int64s

  datatype Option<+T> = None | Some(value: T)

  datatype Result<+T> = Ok(value: T) | Err(error: Error)

  /** The four `int64` counters of a `Butterfly` (generator/generator.go:48). */
  datatype Fields = Fields(timestamp: int64, highSequence: int64, machine: int64, lowSequence: int64)

  /** The errors the generator returns; the message text is not modelled. */
  datatype Error =
    | TimestampOutOfRange(timestamp: int64)            // generator/generator.go:56
    | ConstructionFailed(timestamp: int64, machine: int64) // generator/generator.go:60
    | MachineOutOfRange(machine: int64)                // generator/generator.go:72
    | MachineInvalid(machine: int64)                   // generator/generator.go:89
    | Exhausted                                        // generator/generator.go:95
}
