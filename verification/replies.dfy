/** Values that stand for what JavaScript expresses with `undefined`/`null`
    and with thrown errors: an optional value, and the reply of a gateway call
    (`invoke`, `requestJira`), which either returns or throws. */
module Replies {

  /** A value that may be absent (`undefined` or `null` in the source). */
  datatype Option<+T> = None | Some(value: T) {

    /** `x ?? default`: the value when present, the default otherwise. */
    function GetOr(default: T): T {
      match this
      case Some(v) => v
      case None => default
    }
  }

  /** The reply of a call into the gateway: the value it resolved with, or the
      message of the error it threw (`""` when the error had no message). */
  datatype Reply<+T> = Returned(value: T) | Threw(message: string)

  /** JavaScript's `s || fallback` on a string: the empty string is falsy. */
  function Or(s: string, fallback: string): (r: string)
    ensures s != "" ==> r == s
    ensures s == "" ==> r == fallback
  {
    if s != "" then s else fallback
  }

  /** JavaScript's `s || fallback` on a string that may be missing. */
  function OrElse(s: Option<string>, fallback: string): (r: string)
    ensures s.Some? && s.value != "" ==> r == s.value
    ensures (s.None? || s.value == "") ==> r == fallback
  {
    if s.Some? then Or(s.value, fallback) else fallback
  }
}
