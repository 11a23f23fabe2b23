/** Values shared by both backends: optional and failable values, the
    outcome a handler reports, JavaScript error values and the few
    JavaScript coercions the handlers rely on. */
module Common {

  datatype Option<+T> = None | Some(value: T)

  /** A promise that settles: fulfilled with a value or rejected with an error. */
  datatype Result<+T, +E> = Success(value: T) | Failure(error: E)

  /** What a handler hands back to the router: a value, or an error whose
      message is what the caller sees. */
  datatype Outcome<+T> = Ok(value: T) | Err(message: string)

  /** Timestamps are opaque: assigned by the database or by the clock. */
  type Timestamp = string

  /** A JavaScript `Error` (or subclass) as far as the handlers look at it. */
  datatype JsError = JsError(name: string, message: string)

  const PLAIN_ERROR_NAME := "Error"

  /** `Error.prototype.toString`: the name, then ": " and the message, either
      part dropped when empty. */
  function ErrorToString(e: JsError): (s: string)
    ensures e.name == "" ==> s == e.message
    ensures e.name != "" ==> e.name <= s
  {
    if e.name == "" then e.message
    else if e.message == "" then e.name
    else e.name + ": " + e.message
  }

  /** A request field that may be absent (`undefined`). */
  predicate Truthy(field: Option<string>) {
    field.Some? && field.value != ""
  }

  /** `'...' + field` for a field that may be `undefined`. */
  function Concatenable(field: Option<string>): string {
    match field
    case None => "undefined"
    case Some(s) => s
  }

  /** `validUrl.isWebUri(field)`: the validator is opaque; an absent field
      yields `undefined`, which is falsy. */
  predicate IsWebUri(isWebUri: string -> bool, field: Option<string>) {
    field.Some? && isWebUri(field.value)
  }

  /** Two strings whose first characters differ are never both prefixes of one string. */
  lemma DistinctHeads(p: string, q: string, s: string)
    requires p != [] && q != [] && p[0] != q[0]
    ensures !(p <= s && q <= s)
  {
  }

  function Min(a: nat, b: nat): nat {
    if a <= b then a else b
  }
}
