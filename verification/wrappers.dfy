/** Failure-carrying datatypes shared by every module of the model: Go's
    `(value, error)` pairs and nil-able references become these. */
module Wrappers {

  /** A reference that may be nil. */
  datatype Option<+T> = None | Some(value: T)

  /** A value or an error. */
  datatype Result<+R, +E> = Success(value: R) | Failure(error: E)
}
