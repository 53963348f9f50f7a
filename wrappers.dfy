/** Nullable values, as the TypeScript and Python sources use `null` / `None`. */
module Wrappers {

  datatype Option<+T> = None | Some(value: T) {

    /** The nullish-coalescing operator `x ?? d`. */
    function GetOr(default: T): T
    {
      match this
      case Some(v) => v
      case None => default
    }
  }
}
