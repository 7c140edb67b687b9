/** The few JavaScript value notions the front end's logic depends on. */
module Js {

  /** A value that may be `undefined` or `null`. */
  datatype Option<+T> = None | Some(value: T)

  /** JavaScript truthiness of a `string | undefined`: present and not the empty string. */
  predicate Truthy(s: Option<string>) {
    s.Some? && s.value != ""
  }

  /** What a template literal `${x}` produces for a `string | undefined`. */
  function Interpolate(s: Option<string>): string {
    match s
    case Some(v) => v
    case None => "undefined"
  }

  /** The `Authorization` header value built as `Bearer ${token}`. */
  function Bearer(token: Option<string>): (h: string)
    ensures |h| >= 7 && h[..7] == "Bearer "
    ensures token.Some? ==> h[7..] == token.value
    ensures token.None? ==> h[7..] == "undefined"
  {
    "Bearer " + Interpolate(token)
  }
}
