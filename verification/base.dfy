/** Optional values and the JavaScript truthiness rules the client code relies on.
    A `string | null | undefined` field of the source is an `Option<string>`;
    JavaScript treats the empty string like a missing value in `if (x)` and `x || d`. */
module Base {

  datatype Option<+T> = None | Some(value: T) {

    /** The wrapped value, or `default` when absent. */
    function GetOr(default: T): T {
      match this
      case Some(v) => v
      case None => default
    }
  }

  /** `!!x` for a possibly missing string: present and non-empty. */
  predicate Truthy(x: Option<string>) {
    x.Some? && x.value != ""
  }

  /** `x || fallback` for a possibly missing string. */
  function OrElse(x: Option<string>, fallback: string): (r: string)
    ensures Truthy(x) ==> r == x.value
    ensures !Truthy(x) ==> r == fallback
  {
    if x.Some? && x.value != "" then x.value else fallback
  }
}
