/** Option and a result type for Python code that may raise. */
module Wrappers {

  datatype Option<+T> = None | Some(value: T)

  /** The outcome of Python code that either yields a value or raises an
      exception that is not caught at that point. */
  datatype Result<+T> = Ok(value: T) | Raised
}
