/** Option and Result values for JavaScript's `undefined`/`null` and for thrown errors. */
module Wrappers {

  datatype Option<+T> = None | Some(value: T)

  /** `Err` carries the message of the `Error` the TypeScript code throws. */
  datatype Result<+T> = Ok(value: T) | Err(error: string)
}
