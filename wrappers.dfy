/** Option and Result, the two failure-carrying shapes the rotation model needs:
    an optional Jacobian slot, and an operation that can throw. */
module Wrappers {

  /** A value that may be absent: here, a Jacobian output the caller did not ask for. */
  datatype Option<+T> = None | Some(value: T)

  /** The outcome of an operation that either returns a value or raises an error. */
  datatype Result<+R, +E> = Success(value: R) | Failure(error: E)
}
