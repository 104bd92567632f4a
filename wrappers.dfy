/** Option and Result: absent values and backend calls that may fail. */
module Wrappers {

  /** A Go pointer that may be nil, or a value that may be absent. */
  datatype Option<+T> = None | Some(value: T)

  /** The outcome of a backend call: a value, or the error text it reported. */
  datatype Result<+T, +E> = Success(value: T) | Failure(error: E)
}
