/** Option and Result values for the "missing" and "throws" paths of the bot's JavaScript. */
module Wrappers {

  /** A value that may be absent (`null` / `undefined` in the source). */
  datatype Option<+T> = None | Some(value: T) {
    function GetOr(default: T): T {
      match this
      case Some(v) => v
      case None => default
    }
  }

  /** The outcome of an operation that throws an `Error` in the source. */
  datatype Result<+R> = Ok(value: R) | Err(message: string)
}
