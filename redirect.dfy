/** The guard that sends a visitor without a live session to the login page. */
module Redirect {
  import opened Wrappers

  /** What `jwtDecode` produced: a failure (it throws), or a payload whose `exp`
      claim (seconds since the epoch) may be missing. */
  datatype DecodedToken = DecodeFailed | Decoded(exp: Option<int>)

  /** `isTokenExpired`, for a decoded token and the clock's current time in milliseconds.
      A missing or zero `exp` counts as expired (`!decoded.exp`). */
  function IsTokenExpired(decoded: DecodedToken, nowMs: int): (r: bool)
    ensures decoded.DecodeFailed? ==> r
    ensures decoded.Decoded? && (decoded.exp.None? || decoded.exp == Some(0)) ==> r
    ensures decoded.Decoded? && decoded.exp.Some? && decoded.exp.value != 0 ==>
              (r <==> decoded.exp.value * 1000 + 1000 <= nowMs)
  {
    match decoded
    case DecodeFailed => true
    case Decoded(exp) =>
      if exp.None? || exp.value == 0 then true
      else
        var currentTime := nowMs / 1000;  // Math.floor: Dafny's division by a positive divisor floors
        exp.value < currentTime
  }

  /** A token whose `exp` equals the current second is still live. */
  lemma ExpiryBoundaryIsLive(exp: int, nowMs: int)
    requires exp != 0 && exp == nowMs / 1000
    ensures !IsTokenExpired(Decoded(Some(exp)), nowMs)
  {
  }

  /** `useRedirect`: go to /login when the stored token is absent (null or empty) or expired.
      `decode` stands for `jwtDecode`. */
  function ShouldRedirect(stored: Option<string>, decode: string -> DecodedToken, nowMs: int): (r: bool)
    ensures stored.None? || stored.value == "" ==> r
    ensures stored.Some? && stored.value != "" ==> (r <==> IsTokenExpired(decode(stored.value), nowMs))
  {
    stored.None? || stored.value == "" || IsTokenExpired(decode(stored.value), nowMs)
  }
}
