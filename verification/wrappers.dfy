/** Failure-compatible wrappers shared by every module of the workload model. */
module Wrappers {

  /** An optional value; `None` stands for Go's nil error or absent value. */
  datatype Option<+T> = None | Some(value: T)

  /** The outcome of an operation that either yields a value or fails with an error. */
  datatype Result<+T, +E> = Ok(value: T) | Err(error: E)
}
