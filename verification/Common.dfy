/** Types shared by every component of the engine. */
module Common {

  datatype Option<+T> = None | Some(value: T)

  /** The status codes that the modelled entry points return. */
  datatype Status =
    | Ok
    | NullHandle
    | InvalidHandle
    | StagingBackpressure
    | ViewsOutstanding
    | Timeout
    | BackendFailure
    | InvalidInput

  const MAX_RANK: nat := 7

  const TWO_32: nat := 0x1_0000_0000
  const TWO_64: nat := 0x1_0000_0000_0000_0000
}
