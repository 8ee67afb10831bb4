/** Optional values and the success-or-message outcome that stands for a
    Python call that either returns or raises. */
module Outcomes {

  datatype Option<+T> = None | Some(value: T) {
    function GetOr(default: T): T {
      match this
      case Some(v) => v
      case None => default
    }
  }

  /** `Ok(v)`: the call returned `v`; `Err(msg)`: it raised, and `str(e)` is `msg`. */
  datatype Outcome<+T> = Ok(value: T) | Err(msg: string)
}
