/** Optional values and the JavaScript `||` fallback on strings, used throughout the model. */
module Wrappers {

  datatype Option<+T> = None | Some(value: T)

  /** A JavaScript string is truthy exactly when it is not empty. */
  predicate Truthy(s: string) {
    s != ""
  }

  /** `s || fallback` where `s` may be missing (null or undefined):
      the fallback is taken for a missing and for an empty string. */
  function OrElse(s: Option<string>, fallback: string): (r: string)
    ensures s.Some? && Truthy(s.value) ==> r == s.value
    ensures (s.None? || s.value == "") ==> r == fallback
  {
    if s.Some? && s.value != "" then s.value else fallback
  }
}
