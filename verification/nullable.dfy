/** Values that may be `null`/`undefined` in the application, and the
    JavaScript truthiness rules the screens apply to optional strings. */
module Nullable {

  /** `None` stands for both `null` and `undefined`. */
  datatype Option<+T> = None | Some(value: T)

  /** A string is truthy in JavaScript exactly when it is non-empty. */
  predicate Truthy(s: Option<string>)
  {
    s.Some? && s.value != ""
  }

  /** `s || ""`: the string itself when truthy, the empty string otherwise. */
  function OrEmpty(s: Option<string>): (r: string)
    ensures Truthy(s) ==> r == s.value
    ensures !Truthy(s) ==> r == ""
  {
    match s
    case None => ""
    case Some(v) => v
  }

  /** `s || null`: the string itself when truthy, `null` otherwise. */
  function OrNull(s: Option<string>): (r: Option<string>)
    ensures Truthy(s) ==> r == s
    ensures !Truthy(s) ==> r == None
    ensures r.Some? ==> Truthy(r)
  {
    if Truthy(s) then s else None
  }
}
