/** Option and Result, the two wrappers every other module uses for absent
    values and for the exceptions the system raises. */
module Wrappers {

  datatype Option<+T> = None | Some(value: T) {
    function GetOr(default: T): T {
      match this
      case Some(v) => v
      case None => default
    }
  }

  /** `Failure(msg)` stands for a raised exception; `msg` is what `str(e)` gives. */
  datatype Result<+T> = Success(value: T) | Failure(error: string)
}
