/** Small building blocks shared by every module of the gateway model. */
module Prelude {

  /** A value that may be absent: JavaScript's `undefined`, a missing map key or an env var left unset. */
  datatype Option<+T> = None | Some(value: T) {
    function GetOr(default: T): T {
      match this
      case Some(v) => v
      case None => default
    }
  }

  /** One octet of a request or response body. */
  type byte = b: int | 0 <= b < 256

  /** JavaScript's `s || fallback` for a string that may be undefined: the empty string is falsy too. */
  function StringOr(s: Option<string>, fallback: string): (r: string)
    ensures s.Some? && s.value != "" ==> r == s.value
    ensures (s.None? || s.value == "") ==> r == fallback
  {
    if s.Some? && s.value != "" then s.value else fallback
  }
}
