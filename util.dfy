/** Small value wrappers shared by the other modules. */
module Util {

  /** A value that may be missing, as a Python `dict.get` without a default returns `None`. */
  datatype Option<+T> = None | Some(value: T)

  /** The outcome of a step that either yields a value or raises an exception whose
      message is `error` (the text `str(e)` of the exception). */
  datatype Result<+T> = Ok(value: T) | Err(error: string)

  /** `dict.get(key, default)` once the lookup has produced an Option. */
  function GetOr<T>(o: Option<T>, default: T): (r: T)
    ensures o.Some? ==> r == o.value
    ensures o.None? ==> r == default
  {
    match o
    case Some(v) => v
    case None => default
  }
}
