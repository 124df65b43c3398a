/** Option and Result: Python's `None`-or-value returns and raised exceptions. */
module Wrappers {

  datatype Option<+T> = None | Some(value: T) {
    /** `value if value is not None else default` */
    function GetOr(default: T): T {
      match this
      case Some(v) => v
      case None => default
    }
  }

  datatype Result<+T, +E> = Ok(value: T) | Err(error: E)
}
