/** Values and exceptions shared by the whole request pipeline.

    The service is written with Python exceptions: a stage either returns a
    value or raises. `Outcome` is that choice as a value, and it is
    failure-compatible, so `var x :- Stage(...); ...` propagates a raised
    exception exactly as an uncaught Python exception would. */
module Outcomes {

  datatype Option<+T> = None | Some(value: T)

  /** The exception classes that matter to the handlers' `except` clauses. */
  datatype Exception =
    | HTTPException(statusCode: int, detail: string)
    | RequestException  // any requests.exceptions.RequestException (transport error, HTTPError)
    | KeyError
    | ValueError
    | TypeError

  /** A Python call either returns a value or raises an exception. */
  datatype Outcome<+T> = Return(value: T) | Raise(exc: Exception) {

    predicate IsFailure() {
      Raise?
    }

    function PropagateFailure<U>(): Outcome<U>
      requires Raise?
    {
      Raise(exc)
    }

    function Extract(): T
      requires Return?
    {
      value
    }
  }
}
