/** Option and Result, used for Python's `None` and for raised exceptions. */
module Wrappers {

  datatype Option<+T> = None | Some(value: T) {
    function GetOr(default: T): T {
      match this
      case Some(v) => v
      case None => default
    }
  }

  /** A Python exception, by class name. */
  datatype Error = TypeError(why: string) | AttributeError(why: string)
                 | KeyError(key: string) | IndexError(why: string)
                 | ValueError(why: string) | NotImplementedError(why: string)

  datatype Result<+T> = Success(value: T) | Failure(error: Error)
}
