/** A value that may be absent: the model of `T | null` and of optional fields. */
module Wrappers {

  datatype Option<+T> = None | Some(value: T)

  /** A string field read with JavaScript's `s || null`: an absent or empty string becomes null. */
  function NonEmpty(s: Option<string>): (r: Option<string>)
    ensures r.Some? <==> s.Some? && s.value != ""
    ensures r.Some? ==> r == s
  {
    match s
    case Some(v) => if v == "" then None else Some(v)
    case None => None
  }
}
