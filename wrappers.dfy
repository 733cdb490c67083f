/** Success/failure values standing in for JavaScript's `throw new Error(message)`:
    an `Err`/`Fail` carries the thrown error's `message`. */
module Wrappers {

  datatype Option<+T> = None | Some(value: T)

  /** The outcome of an async call that either resolves with a value or rejects. */
  datatype Result<+T> = Ok(value: T) | Err(error: string)

  /** The outcome of an async call that resolves with nothing or rejects. */
  datatype Outcome = Pass | Fail(error: string)
}
