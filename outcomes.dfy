/** Failure-carrying values: the model's replacement for Python's `None`
    and for exceptions that unwind the stack. */
module Outcomes {

  /** An optional value (a Python argument that may be `None`). */
  datatype Option<+T> = None | Some(value: T)

  /** The result of a step that either produces a value or raises. */
  datatype Result<+R, +E> = Success(value: R) | Failure(error: E)

  /** A raised Python exception. `ordinary` holds when its class derives from
      `Exception`, so that `except Exception` catches it; it is false for
      `SystemExit` and `KeyboardInterrupt`, which only a bare `except:`
      catches. */
  datatype Exc = Exc(ordinary: bool, description: string)
}
