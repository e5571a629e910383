/** Option, Result and Outcome values, plus the outcome of a call into code the
    model cannot see (a broker object, a library): it either returns or raises. */
module Wrappers {

  datatype Option<+T> = None | Some(value: T) {
    function GetOr(default: T): T {
      match this
      case Some(v) => v
      case None => default
    }
  }

  datatype Result<+R, +E> = Success(value: R) | Failure(error: E)

  datatype Outcome<+E> = Pass | Fail(error: E)

  /** A foreign call: it returned a value, or it raised an exception whose text
      (Python's `str(e)`) is `message`. */
  datatype Call<+T> = Returned(value: T) | Raised(message: string)
}
