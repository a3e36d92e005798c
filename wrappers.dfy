/** Failure-carrying values shared by every module of the model: an optional value
    (Go's nil pointer), a value-or-error result (Go's `(T, error)` pair), and a
    pass/fail outcome (Go's bare `error`). */
module Wrappers {

  datatype Option<+T> = None | Some(value: T) {
    /** The value, or `default` when absent (the AWS SDK's `aws.StringValue` and
        `aws.Int64Value` read a nil pointer as the zero value). */
    function GetOr(default: T): T {
      match this
      case Some(v) => v
      case None => default
    }
  }

  datatype Result<+R, +E> = Success(value: R) | Failure(error: E)

  datatype Outcome<+E> = Pass | Fail(error: E)
}
