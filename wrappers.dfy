/** Failure-carrying datatypes shared by every module of the model.
    The Python core signals errors by raising built-in exceptions; each
    `Error` constructor names the exception class the source raises. */
module Wrappers {

  datatype Option<+T> = None | Some(value: T)

  /** The exception classes the core raises, with the offending key or a reason. */
  datatype Error =
    | KeyError(key: string)
    | TypeError(reason: string)
    | ValueError(reason: string)
    | SyntaxError(reason: string)
    | RuntimeError(reason: string)
    | IndexError(reason: string)
    | RecursionError

  /** A computation that either returns a value or raises an `Error`. */
  datatype Result<+T> = Ok(value: T) | Err(error: Error) {
    predicate IsFailure() { Err? }

    function PropagateFailure<U>(): Result<U>
      requires Err?
    {
      Err(error)
    }

    function Extract(): T
      requires Ok?
    {
      value
    }
  }

  /** `x is None or not x` for an optional string (Python truthiness). */
  predicate EmptyOrNone(s: Option<string>) {
    s.None? || s.value == ""
  }
}
