/** Values shared by every component: optional values (JavaScript's `undefined`/`null`),
    the outcome of a request to the server, and the logged-in user of the auth context. */
module Common {

  /** A value that may be absent (`undefined` or `null` in the source). */
  datatype Option<+T> = None | Some(value: T) {
    function GetOr(default: T): T {
      match this
      case Some(v) => v
      case None => default
    }
  }

  /** How a request to the server ended: the response body, or an error with its HTTP status. */
  datatype Outcome<+T> = Succeeded(body: T) | Failed(status: Option<int>)

  /** The user object of the auth context; only its `_id` is read by the core. */
  datatype User = User(id: string)

  /** JavaScript truthiness of an optional string: absent and "" are falsy. */
  predicate Truthy(s: Option<string>) {
    s.Some? && s.value != ""
  }

  /** `a || b` on optional strings. */
  function OrElse(a: Option<string>, b: string): (r: string)
    ensures Truthy(a) ==> r == a.value
    ensures !Truthy(a) ==> r == b
  {
    if Truthy(a) then a.value else b
  }
}
