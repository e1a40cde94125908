/** Option and Result values standing in for Python's `None` returns and for the
    `SystemExit` errors the program raises. */
module Wrappers {

  /** `None` is Python's `None`; `Some(v)` is a present value. */
  datatype Option<+T> = None | Some(value: T)

  /** `Failure(e)` stands for a raised `SystemExit` carrying the error `e`. */
  datatype Result<+R, +E> = Success(value: R) | Failure(error: E)
}
