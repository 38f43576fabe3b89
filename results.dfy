/** Failure-compatible wrappers for the exceptions the source raises or returns. */
module Results {

  /** Python's `Optional[...]`: `None` or a value. */
  datatype Option<+T> = None | Some(value: T)

  /** The exceptions that the parser and its codecs can raise. */
  datatype Error =
    | HeadingFormat    // parse_h1: the heading does not unpack into exactly two parts
    | InvalidInteger   // int() rejects the text
    | MissingCell      // IndexError: a table row with fewer than eight cells
    | InvalidEnumValue // a status, priority or type label that is not known
    | InvalidDate      // date() rejects the year, month and day

  /** The outcome of a computation that may raise one of the errors above. */
  datatype Result<+T> = Ok(value: T) | Err(error: Error) {

    predicate IsFailure() {
      Err?
    }

    function PropagateFailure<U>(): Result<U>
      requires Err?
    {
      Err(error)
    }

    function Extract(): T
      requires Ok?
    {
      value
    }
  }
}
