/** Optional values and results with an error message, used wherever the
    JavaScript code either has a value or has none (undefined, a missing
    file, a rejected promise). */
module Outcomes {

  datatype Option<+T> = None | Some(value: T)

  /** The outcome of an operation that may throw: `Err` carries the
      message of the error that was raised. */
  datatype Result<+T> = Ok(value: T) | Err(message: string)
}
