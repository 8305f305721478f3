/** Option and Result, the two failure-carrying shapes the model uses for
    JavaScript's null/undefined and for request outcomes. */
module Wrappers {

  /** A value that may be absent (`null` or `undefined` in the source). */
  datatype Option<+T> = None | Some(value: T)

  /** The outcome of a backend request: the response data, or the error. */
  datatype Result<+T, +E> = Ok(value: T) | Err(error: E)
}
