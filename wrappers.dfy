/** Small value wrappers shared by the whole model. */
module Wrappers {

  /** Python's `None` or a value. */
  datatype Option<+T> = None | Some(value: T) {
    /** `x if x is not None else default` */
    function GetOr(default: T): T {
      match this
      case Some(v) => v
      case None => default
    }
  }

  /** The Python exceptions the pipeline can raise on malformed records. */
  datatype PyError =
    | TypeError       // an ordering comparison such as `None > 0`
    | AttributeError  // `None.upper()`

  /** A computation that either returns a value or raises. */
  datatype Outcome<+T> = Ok(value: T) | Raised(error: PyError)
}
