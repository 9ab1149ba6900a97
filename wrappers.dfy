/** Optional values and results, used for Python's `dict.get(key, default)`
    and for exceptions that a workflow node lets escape. */
module Wrappers {

  datatype Option<T> = None | Some(value: T) {

    /** `d.get(key, default)`: the stored value, or `default` when the key is absent. */
    function GetOr(default: T): T {
      match this
      case Some(v) => v
      case None => default
    }
  }

  datatype Result<T, E> = Ok(value: T) | Err(error: E)
}
