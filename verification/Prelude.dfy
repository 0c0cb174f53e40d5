/** Shared value types. */
module Prelude {
  datatype Option<+T> = None | Some(value: T)

  /** What a transaction or an agent operation reports: its value, or the refusal it threw. */
  datatype Result<+T, +E> = Ok(value: T) | Refused(error: E)
}
