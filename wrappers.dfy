/** Optional values, results and the exceptions the formatters raise. */
module Wrappers {

  /** Python's `None` or a value. */
  datatype Option<+T> = None | Some(value: T) {
    function GetOr(default: T): T {
      match this
      case Some(v) => v
      case None => default
    }
  }

  /** The exceptions the formatters let escape to their callers. */
  datatype Error =
    | InvalidLiteral(text: string, base: int)   // ValueError from int(text, base)
    | ValueError(message: string)               // ValueError raised by the formatters themselves
    | BadParameter(cause: Error)                // click.BadParameter wrapping a ValueError
    | TypeError(message: string)                // unsupported operand types

  /** A value, or the exception that interrupted its computation. */
  datatype Result<+T> = Ok(value: T) | Err(error: Error)
}
