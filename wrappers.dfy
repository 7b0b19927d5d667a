/** Optional values and Python-style truthiness of the optional strings that the
    system passes around (a JSON value that is absent, null or a string). */
module Wrappers {

  datatype Option<+T> = None | Some(value: T) {

    /** The encapsulated value, or `default` when there is none. */
    function GetOr(default: T): T {
      match this
      case Some(v) => v
      case None => default
    }
  }

  /** The outcome of a call that either returns a value or raises an exception
      whose message is `error`. */
  datatype Result<+T> = Success(value: T) | Failure(error: string)

  /** Python truthiness of an optional string: present and not empty. */
  predicate Truthy(s: Option<string>) {
    s.Some? && s.value != ""
  }

  /** Python's `a or b` on two optional strings. */
  function OrElse(a: Option<string>, b: Option<string>): (r: Option<string>)
    ensures Truthy(a) ==> r == a
    ensures !Truthy(a) ==> r == b
  {
    if Truthy(a) then a else b
  }

  /** `str(x)` of an optional string: Python renders a null value as `None`. */
  function ShowText(s: Option<string>): string {
    match s
    case Some(t) => t
    case None => "None"
  }
}
