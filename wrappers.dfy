/** Option, Result and Outcome: the Go SDK's `nil`-or-pointer returns, `(value, error)`
    returns and `error`-only returns. */
module Wrappers {

  /** A value that may be absent (Go's nil pointer, nil map or nil interface). */
  datatype Option<+T> = None | Some(value: T) {
    predicate IsFailure() { None? }

    function PropagateFailure<U>(): Option<U>
      requires None?
    {
      None
    }

    function Extract(): T
      requires Some?
    {
      value
    }
  }

  /** The result of an operation that returns `(value, error)`. */
  datatype Result<+T, +E> = Ok(value: T) | Err(error: E)

  /** The result of an operation that returns only an `error`. */
  datatype Outcome<+E> = Pass | Fail(error: E)
}
