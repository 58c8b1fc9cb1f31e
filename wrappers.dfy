/** Option and Result, the failure-carrying shapes the rest of the model returns. */
module Wrappers {

  datatype Option<+T> = None | Some(value: T)

  /** A computation that either produced a value or failed with a message. */
  datatype Result<+R> = Ok(value: R) | Err(error: string)
}
