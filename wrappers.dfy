/** Optional values and success/failure results shared by the other modules. */
module Wrappers {

  /** A value that may be absent: JavaScript's `undefined` or `null`. */
  datatype Option<+T> = None | Some(value: T) {
    /** `value ?? default` */
    function GetOr(default: T): T {
      if Some? then value else default
    }
  }

  /** A resolved (`Ok`) or rejected (`Err`) outcome, as a promise settles. */
  datatype Result<+T, +E> = Ok(value: T) | Err(error: E)
}
