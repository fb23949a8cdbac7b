/** Failure-carrying results shared by every module.  A Python exception
    that the source raises with a message becomes `Err(message)`. */
module Common {

  datatype Option<+T> = None | Some(value: T) {
    function GetOr(default: T): T {
      match this
      case Some(v) => v
      case None => default
    }
  }

  datatype Result<+T> = Ok(value: T) | Err(message: string)

  /** A result that carries no value: an operation that returns None in
      Python or raises. */
  datatype Outcome = Pass | Fail(message: string)
}
