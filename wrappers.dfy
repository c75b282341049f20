/** An optional value (a JavaScript value that may be `undefined`) and the
    outcome of a call that may throw. */
module Wrappers {

  datatype Option<+T> = None | Some(value: T)

  datatype Result<+R, +E> = Success(value: R) | Failure(error: E)
}
