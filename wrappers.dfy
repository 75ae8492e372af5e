/** Failure-compatible wrappers shared by the two modules of the exporter. */
module Wrappers {

  /** An optional value: `None` stands for "no value" (for the parser: a parse error). */
  datatype Option<+T> = None | Some(value: T)

  /** A value or an error, in the place of Go's `(value, error)` result pairs. */
  datatype Result<+R, +E> = Success(value: R) | Failure(error: E)
}
