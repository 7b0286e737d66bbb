/** Failure-carrying values shared by every handler model. */
module Wrappers {

  /** An optional value; `None` also stands for JavaScript's `NaN` where a number is wanted. */
  datatype Option<+T> = None | Some(value: T)

  /** The outcome of a route handler: its value, or the message of the 500 response
      that the handler's `catch` block sends after an exception. */
  datatype Result<+T> = Success(value: T) | Failure(error: string)
}
