/** Failure-compatible result type standing for the Python exceptions the
    modelled code raises (an `assert` that fails, comparing a str with an int,
    `min([])`, a division by zero). */
module Wrappers {

  /** The Python exception classes the modelled code can raise. */
  datatype Error = AssertionError | TypeError | ValueError | ZeroDivisionError

  datatype Option<+T> = None | Some(value: T)

  datatype Result<+T> = Ok(value: T) | Err(error: Error) {

    predicate IsFailure() {
      Err?
    }

    function PropagateFailure<U>(): Result<U>
      requires Err?
    {
      Err(error)
    }

    function Extract(): T
      requires Ok?
    {
      value
    }
  }

  /** Outcome of a step that only changes state: it completes or raises. */
  datatype Outcome = Pass | Fail(error: Error)
}
