/** Option and Result values used for the JavaScript `null`/`undefined`
    and for thrown errors. */
module Wrappers {

  datatype Option<+T> = None | Some(value: T) {
    /** The value, or `default` when there is none (JavaScript's `x || d` on a number). */
    function GetOr(default: T): T {
      match this
      case Some(v) => v
      case None => default
    }
  }

  /** `Err` stands for an exception the source throws. */
  datatype Result<+T> = Ok(value: T) | Err(message: string)
}
