/** Option and server-reply datatypes shared by every page of the model. */
module Wrappers {

  /** A value that may be absent (`null` / `undefined` in the source). */
  datatype Option<+T> = None | Some(value: T) {
    function GetOr(default: T): T {
      match this
      case Some(v) => v
      case None => default
    }
  }

  /** What the backend answered to one request: a 2xx body, or an error with the
      HTTP status when a response arrived (`None` when none did) and the error
      text the handler reads from it (empty when there is none). */
  datatype Reply<+T> = Ok(data: T) | Err(status: Option<int>, message: string)

  /** A JavaScript string is truthy iff it is non-empty. */
  predicate Truthy(s: string) {
    s != ""
  }

  /** `a || b` on strings: `a` when it is truthy, otherwise `b`. */
  function OrElse(a: string, b: string): (r: string)
    ensures r == a || r == b
    ensures Truthy(a) ==> r == a
  {
    if Truthy(a) then a else b
  }
}
