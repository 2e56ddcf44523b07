/** The reconnect delay of the network sources, in seconds. */
module Backoff {
  const INITIAL_BACKOFF := 1
  const MAX_BACKOFF := 300

  function Pow2(k: nat): nat {
    if k == 0 then 1 else 2 * Pow2(k - 1)
  }

  function Capped(n: nat): nat {
    if n <= MAX_BACKOFF then n else MAX_BACKOFF
  }

  /** The delay after `k` completed waits since the last reset. */
  function Delay(k: nat): (delay: nat)
    ensures delay <= 300 && (delay < 300 ==> delay == Pow2(k)) && (delay == 300 ==> Pow2(k) >= 300)
  {
    Capped(Pow2(k))
  }

  /** Doubling and capping the variable after each wait keeps it at that delay. */
  lemma DoubledDelay(k: nat)
    ensures Capped(2 * Delay(k)) == Delay(k + 1)
  {
  }
}
