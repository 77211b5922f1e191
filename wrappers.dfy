/** The two failure-carrying shapes the model uses: Python's `None` and its raised errors. */
module Wrappers {

  /** A value that may be Python's `None`. */
  datatype Option<+T> = None | Some(value: T) {

    /** The carried value, or `default` for `None`. */
    function GetOr(default: T): T {
      if Some? then value else default
    }
  }

  /** The outcome of a step that either returns a value or raises an error. */
  datatype Result<+T, +E> = Ok(value: T) | Err(error: E)
}
