/**
 * Reconnect backoff shared by the IMAP and Graph supervisors, with the
 * timing constants of the worker's configuration.
 */
module Backoff {

  const ReconnectBaseMs: nat := 5000
  const ReconnectMaxMs: nat := 60000
  const PollIntervalMs: nat := 30000

  function Pow2(n: nat): (r: nat)
    ensures r >= 1
  {
    if n == 0 then 1 else 2 * Pow2(n - 1)
  }

  /** min(base * 2^attempt, cap): the delay slept before the next reconnect. */
  function ReconnectDelay(attempt: nat): (d: nat)
    ensures ReconnectBaseMs <= d <= ReconnectMaxMs
  {
    var raw := ReconnectBaseMs * Pow2(attempt);
    if raw < ReconnectMaxMs then raw else ReconnectMaxMs
  }

  lemma {:induction false} Pow2Monotone(a: nat, b: nat)
    requires a <= b
    ensures Pow2(a) <= Pow2(b)
  {
    if a < b {
      Pow2Monotone(a, b - 1);
    }
  }

  /** The delay never shrinks as the attempt counter grows. */
  lemma DelayMonotone(a: nat, b: nat)
    requires a <= b
    ensures ReconnectDelay(a) <= ReconnectDelay(b)
  {
    Pow2Monotone(a, b);
  }

  /** From the fifth attempt on (attempt >= 4) the delay is the 60 s cap. */
  lemma DelayCapped(attempt: nat)
    requires attempt >= 4
    ensures ReconnectDelay(attempt) == ReconnectMaxMs
  {
    Pow2Monotone(4, attempt);
  }

  /** Below the cap, each further attempt doubles the delay. */
  lemma DelayDoublesBelowCap(attempt: nat)
    requires 2 * ReconnectDelay(attempt) < ReconnectMaxMs
    ensures ReconnectDelay(attempt + 1) == 2 * ReconnectDelay(attempt)
  {
  }

  /** Five consecutive failures from attempt 0 sleep 5, 10, 20, 40 and 60 seconds. */
  lemma FirstFiveDelays()
    ensures [ReconnectDelay(0), ReconnectDelay(1), ReconnectDelay(2), ReconnectDelay(3), ReconnectDelay(4)]
         == [5000, 10000, 20000, 40000, 60000]
  {
  }
}
