/** Optional values and results with an error, as the Rust code's `Option` and `Result`. */
module Wrappers {

  datatype Option<T> = None | Some(value: T)
  {
    /** `unwrap_or`: the held value, or `default` when there is none. */
    function GetOr(default: T): T
    {
      match this
      case None => default
      case Some(v) => v
    }
  }

  datatype Result<T, E> = Success(value: T) | Failure(error: E)
  {
    predicate IsFailure()
    {
      Failure?
    }

    /** `unwrap_or` / `unwrap_or_default`: the value, or `default` on an error. */
    function GetOr(default: T): T
    {
      match this
      case Success(v) => v
      case Failure(_) => default
    }
  }
}
