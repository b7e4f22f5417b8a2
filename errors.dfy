/** Go's `error` values and the (value, error) returns built on them. */
module Errors {

  /** A non-nil Go `error`; two errors are the same value when their messages agree. */
  datatype Error = Error(message: string)

  /** The result of a call that returns only an `error`: `Pass` is `nil`. */
  datatype Outcome = Pass | Fail(error: Error)

  /** The result of a call that returns a value or a non-nil `error`. */
  datatype Result<+T> = Success(value: T) | Failure(error: Error)

  /** A Go pointer or interface that may be nil. */
  datatype Option<+T> = None | Some(value: T)
}
