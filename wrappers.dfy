/** Optional values: JavaScript's `undefined` for the optional fields of a record. */
module Wrappers {

  datatype Option<+T> = None | Some(value: T)

  /** `o ?? d`: the value when present, the default otherwise. */
  function GetOr<T>(o: Option<T>, d: T): T
  {
    match o
    case Some(v) => v
    case None => d
  }
}
