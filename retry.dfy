/**
 * The retry budget handed to the retry driver: how many attempts, the first
 * delay, and how the delay grows. Durations are in milliseconds.
 */
module Retry {
  datatype BackoffStrategy = Stable | LinearIncrease

  datatype Params = Params(retryCount: nat, firstRetryDuration: nat, backoffStrategy: BackoffStrategy)

  /** The wait after the failed attempt numbered `retryTime` (from 0) and before the next one. */
  function Backoff(p: Params, retryTime: nat): nat
  {
    match p.backoffStrategy
    case Stable => p.firstRetryDuration
    case LinearIncrease => (retryTime + 1) * p.firstRetryDuration
  }

  /** A linearly increasing backoff waits the first delay times the retry number, so never less than before. */
  lemma LinearBackoffIsMonotone(p: Params, j: nat, k: nat)
    requires p.backoffStrategy == LinearIncrease && j <= k
    ensures Backoff(p, j) == (j + 1) * p.firstRetryDuration
    ensures Backoff(p, j) <= Backoff(p, k)
  {
    assert (k + 1) * p.firstRetryDuration == (j + 1) * p.firstRetryDuration + (k - j) * p.firstRetryDuration;
  }
}
