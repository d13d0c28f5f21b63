/** Optional values and Python-style outcomes (a value, or a raised exception
    carrying its message). */
module Wrappers {

  datatype Option<+T> = None | Some(value: T) {
    /** `dict.get(key, default)` style access. */
    function GetOr(default: T): T {
      match this
      case Some(v) => v
      case None => default
    }
  }

  /** The outcome of a Python call: it returned `value`, or it raised an
      exception whose `str()` is `message`. */
  datatype Result<+T> = Ok(value: T) | Raised(message: string)
}
