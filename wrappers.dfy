/** Option and Result, the two shapes in which Go's `nil` and `(value, error)`
    returns are written in this model. */
module Wrappers {

  /** A value that may be absent; `None` stands for Go's `nil`. */
  datatype Option<+T> = None | Some(value: T)

  /** The outcome of a step that either yields a value or an error. */
  datatype Result<+T, +E> = Success(value: T) | Failure(error: E)
}
