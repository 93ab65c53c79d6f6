/** Optional values and error-or-value results, used where the source has an
    optional field (`x?: T`), a `find` that may come back `undefined`, or an
    early `return` after an alert. */
module Wrappers {

  datatype Option<+T> = None | Some(value: T) {
    /** The carried value, or `default` when there is none (JS `x ?? default`). */
    function GetOr(default: T): T {
      match this
      case Some(v) => v
      case None => default
    }
  }

  datatype Result<+T, +E> = Ok(value: T) | Err(error: E)
}
