/** Optional values and results with an error text, standing for Python's `None`
    defaults and raised exceptions. */
module Wrappers {

  datatype Option<+T> = None | Some(value: T) {
    /** The value, or `default` when absent (Python's `d.get(k, default)`). */
    function GetOr(default: T): T {
      match this
      case Some(v) => v
      case None => default
    }
  }

  /** `Err` carries the text of the exception the source raises. */
  datatype Result<+T> = Ok(value: T) | Err(error: string)
}
