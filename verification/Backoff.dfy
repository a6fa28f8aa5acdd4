/** The capped exponential delay shared by the saga's retries and both outbox relays. */
module Backoff {

  const BASE_MS := 1000
  const MAX_MS := 60_000

  function Pow2(n: int): nat {
    if n <= 0 then 1 else 2 * Pow2(n - 1)
  }

  /** `min(base * 2 ** (attempt - 1), 60_000)` for attempts counted from one. */
  function RetryDelay(attempt: nat): nat {
    var delay := BASE_MS * Pow2(attempt - 1);
    if delay < MAX_MS then delay else MAX_MS
  }

  /** Each delay is the double of the one before, up to the cap, which the seventh attempt reaches. */
  lemma {:induction false} DelayDoublesToCap(attempt: nat)
    requires attempt >= 1
    ensures RetryDelay(1) == BASE_MS
    ensures RetryDelay(attempt + 1) == if 2 * RetryDelay(attempt) < MAX_MS then 2 * RetryDelay(attempt) else MAX_MS
    ensures BASE_MS <= RetryDelay(attempt) <= RetryDelay(attempt + 1)
    ensures RetryDelay(attempt) == MAX_MS <==> attempt >= 7
  {
    if attempt > 1 {
      DelayDoublesToCap(attempt - 1);
    }
    if attempt <= 7 {
      assert Pow2(attempt - 1) == [1, 2, 4, 8, 16, 32, 64][attempt - 1];
    }
  }
}
