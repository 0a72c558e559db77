/** Optional values: the model's rendering of TypeScript's `T | null` and `T | undefined`. */
module Wrappers {

  datatype Option<+T> = None | Some(value: T) {

    /** The value, or `default` when absent (TypeScript's `x || default` on an optional). */
    function GetOr(default: T): T {
      match this
      case Some(v) => v
      case None => default
    }
  }
}
