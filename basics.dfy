/** Optional values and results with an error message, used by every layer of the model. */
module Basics {

  datatype Option<+T> = None | Some(value: T)

  /** A computation that either yields a value or fails with the message Go would return. */
  datatype Result<+T> = Ok(value: T) | Err(message: string)
}
