/** The provider sends times in seconds; the database stores them in milliseconds. */
module Timestamps {
  import opened Wrappers

  const MillisPerSecond: int := 1000

  /** Lifetime of an e-mail verification token: 24 hours in milliseconds. */
  const VerificationTokenLifetime: int := 24 * 60 * 60 * 1000

  /** `seconds * 1000`, the argument of `new Date(...)`. */
  function ToMillis(seconds: int): (ms: int)
    ensures ms % MillisPerSecond == 0
    ensures ms / MillisPerSecond == seconds
  {
    seconds * MillisPerSecond
  }

  /** `x ? new Date(x * 1000) : null`: absent or zero becomes null. */
  function MillisOrNull(seconds: Option<int>): (r: Option<int>)
    ensures r.None? <==> !TruthyNum(seconds)
    ensures r.Some? ==> r.value / MillisPerSecond == seconds.value && r.value % MillisPerSecond == 0
  {
    if TruthyNum(seconds) then Some(ToMillis(seconds.value)) else None
  }

  /**
   * `x ? new Date(x * 1000) : undefined` written into a stored field: undefined leaves the
   * stored value as it was.
   */
  function MillisOrKeep(seconds: Option<int>, stored: Option<int>): (r: Option<int>)
    ensures !TruthyNum(seconds) ==> r == stored
    ensures TruthyNum(seconds) ==> r.Some? && r.value / MillisPerSecond == seconds.value && r.value % MillisPerSecond == 0
  {
    if TruthyNum(seconds) then Some(ToMillis(seconds.value)) else stored
  }
}
