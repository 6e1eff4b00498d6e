/** Optional values, used for the "first match or nothing" lookups and for
    stream reductions that may find no element. */
module Wrappers {

  datatype Option<+T> = None | Some(value: T) {

    /** The wrapped value, or `default` when there is none
        (Java's `OptionalDouble.orElse`). */
    function GetOr(default: T): T
    {
      match this
      case Some(v) => v
      case None => default
    }
  }
}
