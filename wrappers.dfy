/** Failure-compatible values shared by every module of the model. A Go `error`
    is represented by its message, since the program only ever prints it or
    compares its text. */
module Wrappers {

  /** A value that may be absent; `None` stands for Go's `nil`. */
  datatype Option<+T> = None | Some(value: T)

  /** The `(value, error)` pair of a Go function: exactly one side is meaningful. */
  datatype Result<+T> = Ok(value: T) | Err(error: string)
}
