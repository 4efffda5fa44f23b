/** Option and Result: the absent value, and the outcome of a call that may throw. */
module Outcomes {

  datatype Option<+T> = None | Some(value: T)

  /** The outcome of an awaited call: its value, or the message of the error it threw. */
  datatype Result<+T> = Ok(value: T) | Err(message: string)

  /** The value of a call that returns nothing useful (a delete, an update). */
  datatype Unit = Unit
}
