/** Small value types shared by every part of the model. */
module Common {

  /** A value that the source writes as `X | None`. */
  datatype Option<+T> = None | Some(value: T)

  /** UUIDs are only ever compared, so any infinite type with equality serves. */
  type Uuid = nat

  /** Instants and durations in seconds. */
  type Instant = real
}
