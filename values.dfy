/** Values shared by every module: optional values, API outcomes and
    JavaScript truthiness of optional strings. */
module Values {

  datatype Option<+T> = None | Some(value: T) {
    function GetOr(default: T): T {
      match this
      case Some(v) => v
      case None => default
    }
  }

  /** The result of one awaited API call: the resolved payload, or the
      rejection together with the `message` it carried (absent when the
      thrown value had none). */
  datatype Outcome<+T> = Ok(value: T) | Failed(message: Option<string>)

  /** A string-or-undefined value is truthy in JavaScript when it is
      present and non-empty. */
  predicate Truthy(s: Option<string>) {
    s.Some? && s.value != ""
  }

  /** `a || b` on two string-or-undefined values. */
  function OrElse(a: Option<string>, b: Option<string>): (r: Option<string>)
    ensures Truthy(a) ==> r == a
    ensures !Truthy(a) ==> r == b
  {
    if Truthy(a) then a else b
  }

  /** `s || fallback` where the fallback is a non-empty literal: the result
      is never empty. */
  function TextOr(s: Option<string>, fallback: string): (r: string)
    requires fallback != ""
    ensures r != ""
    ensures Truthy(s) ==> r == s.value
    ensures !Truthy(s) ==> r == fallback
  {
    if Truthy(s) then s.value else fallback
  }
}
