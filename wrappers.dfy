/** Failure-compatible result types. The translation layer raises no errors of
    its own: every failure is one of Python's built-in exceptions, which the
    model names by `PyError`. */
module Wrappers {

  datatype Option<+T> = None | Some(value: T)

  /** The built-in exceptions the modelled code can raise. */
  datatype PyError =
    | IndexError         // an index past the end of a list or an array axis
    | ValueError         // `max()` of a zero-size array, `hstack` of unequal row counts
    | TypeError          // `zip` over `None`
    | ZeroDivisionError  // a division by a zero grid dimension

  datatype Result<+T> = Ok(value: T) | Err(error: PyError) {
    predicate IsFailure() {
      Err?
    }

    function PropagateFailure<U>(): Result<U>
      requires Err?
    {
      Err(error)
    }

    function Extract(): T
      requires Ok?
    {
      value
    }
  }
}
