/** Tagged results used in place of JavaScript's `null` and HTTP error responses. */
module Outcomes {

  /** A value that may be absent (`null`, `NaN`, a missing key). */
  datatype Option<+T> = None | Some(value: T)

  /** The outcome of an operation: a value, or the error the caller sees. */
  datatype Result<+T, +E> = Ok(value: T) | Err(error: E)
}
