/** Failure-compatible result types shared by the rest of the model: an optional
    value, a value-or-error, and a pass-or-error outcome (Go's bare `error` return). */
module Wrappers {

  datatype Option<+T> = None | Some(value: T)

  datatype Result<+R, +E> = Success(value: R) | Failure(error: E)

  datatype Outcome<+E> = Pass | Fail(error: E)
}
