/** The optional-value datatype used wherever the source has a value that may be
    null, undefined or missing. */
module Wrappers {

  datatype Option<+T> = None | Some(value: T) {

    /** The wrapped value, or `default` when there is none (JavaScript's `??`). */
    function GetOr(default: T): (r: T)
      ensures Some? ==> r == value
      ensures None? ==> r == default
    {
      match this
      case Some(v) => v
      case None => default
    }
  }

  /** What a client-side `fetch` gave: an OK response with its JSON body, a
      response that is not OK, or a thrown error. */
  datatype Fetch<T> = Ok(value: T) | NotOk | Threw

  /** A value held by a settings form: a string or a boolean. */
  datatype SettingValue = SText(s: string) | SFlag(b: bool)
}
