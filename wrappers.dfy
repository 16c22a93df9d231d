/** Option and Result, the two failure-carrying shapes the rest of the model uses. */
module Wrappers {

  /** `null`/`undefined` versus a value. */
  datatype Option<+T> = None | Some(value: T)

  /** A computation that either yields a value or stops with an error message. */
  datatype Result<+T> = Ok(value: T) | Err(message: string)
}
