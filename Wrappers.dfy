/** Errors raised by the orchestration layer, and a Result type for operations that can raise them. */
module Wrappers {

  /** The two errors App.js can raise itself: an unknown factory tag, and a
      lookup of an operation an object does not have (a JavaScript TypeError). */
  datatype Error =
    | UnknownElementType
    | MissingOperation(name: string)

  datatype Result<+T> = Ok(value: T) | Err(error: Error) {
    predicate IsFailure() {
      Err?
    }

    function PropagateFailure<U>(): Result<U>
      requires Err?
    {
      Err(error)
    }

    function Extract(): T
      requires Ok?
    {
      value
    }
  }
}
