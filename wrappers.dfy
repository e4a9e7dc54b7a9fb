/** Option and Result, the two Rust sum types the URL splitter uses. */
module Wrappers {

  /** Rust's `Option<T>`, as returned by `str::find`. */
  datatype Option<+T> = None | Some(value: T) {

    /** The carried value, or `default` when there is none. */
    function GetOr(default: T): T {
      match this
      case Some(v) => v
      case None => default
    }
  }

  /** Rust's `Result<T, E>`, as returned by `Url::parse`. */
  datatype Result<+T, +E> = Ok(value: T) | Err(error: E)
}
