/** Option, Result and Outcome: the model's stand-ins for `null`, a value
    or a thrown error, and a promise that resolves or rejects. */
module Wrappers {

  datatype Option<+T> = None | Some(value: T)

  /** A computation that returns a value or fails with an error message. */
  datatype Result<+T> = Ok(value: T) | Err(error: string)

  /** A computation with no value that succeeds or fails with an error message. */
  datatype Outcome = Pass | Fail(error: string)
}
