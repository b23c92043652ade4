/** Failure-carrying values shared by every module of the model. */
module Wrappers {

  /** An optional value; `None` stands for JavaScript's `undefined`/`null` and for NaN. */
  datatype Option<+T> = None | Some(value: T) {
    /** `x ?? default`, and `x || default` for a field whose only falsy value is the missing one. */
    function GetOr(default: T): T {
      match this
      case Some(v) => v
      case None => default
    }
  }

  /** The outcome of a fallible call: a value, or the error the source would throw. */
  datatype Result<+T, +E> = Ok(value: T) | Err(error: E)

  /** A thrown JavaScript value: an `Error` with its message, or anything else. */
  datatype Thrown = ErrorObject(message: string) | NonError {
    /** `error instanceof Error ? error.message : fallback` */
    function MessageOr(fallback: string): string {
      match this
      case ErrorObject(m) => m
      case NonError => fallback
    }
  }
}
