/** Failure-compatible wrappers used across the model: `Option` for the
    source's `undefined`/missing values and `Result` for thrown errors. */
module Wrappers {

  datatype Option<+T> = None | Some(value: T) {
    function GetOr(default: T): T {
      match this
      case Some(v) => v
      case None => default
    }
  }

  /** An error thrown by the source: its class (`Error`, `TypeError`, ...) and its message. */
  datatype Error = Error(kind: ErrorKind, message: string)

  datatype ErrorKind = PlainError | TypeError | ReferenceError | ValidationError

  datatype Result<+T> = Ok(value: T) | Err(error: Error) {
    predicate IsFailure() { Err? }
    function PropagateFailure<U>(): Result<U>
      requires Err?
    {
      Err(error)
    }
    function Extract(): T
      requires Ok?
    {
      value
    }
  }
}
