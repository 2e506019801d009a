/** The optional value and the success-or-error value the model uses for
    Rust's `Option` and for operations that can panic. */
module Wrappers {

  datatype Option<+T> = None | Some(value: T)

  datatype Result<+R, +E> = Success(value: R) | Failure(error: E)
}
