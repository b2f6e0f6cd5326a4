/** Option and Result values shared by the router model. */
module Wrappers {

  /** An optional value: the result of a path match, an absent `req.params`. */
  datatype Option<+T> = None | Some(value: T)

  /** A value or the fault that the JavaScript runtime would throw instead. */
  datatype Result<+T, +E> = Ok(value: T) | Err(error: E)
}
