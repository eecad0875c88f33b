/** Failure-carrying values shared by every builder: `Option` stands for a .NET reference that
    may be null, `Result` for a value or the exception that a builder throws instead. */
module Wrappers {

  /** A reference that may be null: `None` is `null`. */
  datatype Option<+T> = None | Some(value: T)

  /** The exceptions the builders throw. `MissingArgument` is `ArgumentNullException` and
      carries its parameter name (the `nameof` of the field that was missing);
      `NotImplemented` is `NotImplementedException`. */
  datatype Error = MissingArgument(paramName: string) | NotImplemented

  /** The outcome of an operation that either returns a value or throws. */
  datatype Result<+T> = Ok(value: T) | Err(error: Error) {

    predicate IsFailure() {
      Err?
    }

    function PropagateFailure<U>(): Result<U>
      requires Err?
    {
      Err(error)
    }

    function Extract(): T
      requires Ok?
    {
      value
    }
  }
}
