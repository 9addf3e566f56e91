/** Optional values, the backend's error taxonomy, and results. */
module Outcomes {

  /** An optional value: `None` stands for JavaScript's `undefined`/`null`. */
  datatype Option<+T> = None | Some(value: T)

  /** The kinds of failure the authentication flow distinguishes. */
  datatype ErrorKind = Validation | Conflict | NotFound | Unauthorized | Upload | Internal

  /** A failure: its kind, the HTTP status it is reported with, and its message. */
  datatype Error = Error(kind: ErrorKind, status: nat, message: string)

  datatype Result<+T> = Ok(value: T) | Err(error: Error)

  /** JavaScript truthiness of an optional string: `undefined` and `""` are falsy. */
  predicate Truthy(v: Option<string>) {
    v.Some? && v.value != ""
  }

  /** `a || b` on two optional strings. */
  function Or(a: Option<string>, b: Option<string>): (r: Option<string>)
    ensures Truthy(r) <==> Truthy(a) || Truthy(b)
    ensures Truthy(a) ==> r == a
  {
    if Truthy(a) then a else b
  }

  /** `error?.message || fallback`: a rethrown error keeps its message unless that message is empty. */
  function MessageOr(message: string, fallback: string): string {
    if message != "" then message else fallback
  }
}
