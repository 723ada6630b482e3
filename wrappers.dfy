/** Failure-compatible values shared by the modules of the model. */
module Wrappers {

  datatype Option<+T> = None | Some(value: T)

  datatype Result<+R, +E> = Success(value: R) | Failure(error: E)

  /** A value thrown by JavaScript code; only the text of its `stack`
      property is observable by the request handler. */
  datatype Exception = Exception(stack: string)
}
