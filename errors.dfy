/** Go's `error` values reduced to their text, and the small wrappers the model uses. */
module Errors {

  /** A Go `error` result: `nil`, or an error whose `Error()` text is `msg`. */
  datatype Status = Nil | Err(msg: string)

  /** A Go `(T, error)` pair where exactly one side is meaningful. */
  datatype Result<T> = Ok(value: T) | Failure(msg: string)

  datatype Option<T> = None | Some(value: T)

  /** The text of `fmt.Errorf("<context>: %w", cause)`. */
  function Wrapf(context: string, cause: string): string
  {
    context + ": " + cause
  }
}
