/** The Option datatype used for lookups and for operations that can fail. */
module Wrappers {

  datatype Option<+T> = None | Some(value: T) {

    /** `d.get(k, fallback)` once the lookup is done: the found value, or
        `fallback` when there was none. */
    function GetOr(fallback: T): T {
      if Some? then value else fallback
    }
  }
}
