/** Tagged results shared by every module of the model. */
module Wrappers {

  /** An optional value; `None` plays the part of Go's `nil`. */
  datatype Option<+T> = None | Some(value: T)

  /** A value or an error, standing for Go's `(T, error)` return pairs. */
  datatype Result<+T, +E> = Ok(value: T) | Err(error: E)

  /** A Go call that either returns normally or panics at run time
      (an explicit `panic`, a nil dereference, an index out of range). */
  datatype Crashable<+T> = Returned(value: T) | Panicked(reason: string)
}
