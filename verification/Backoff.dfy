/** Bounded exponential backoff, with the shift and the sum saturating at 64 bits. */
module Backoff {
  const U64_MAX: nat := 0xFFFF_FFFF_FFFF_FFFF
  const MAX_BACKOFF: nat := 64
  const MAX_RETRY_ATTEMPTS: nat := 6

  function Pow2(n: nat): nat {
    if n == 0 then 1 else 2 * Pow2(n - 1)
  }

  function Min(a: nat, b: nat): nat {
    if a < b then a else b
  }

  function BackoffDelay(attempt: nat, jitter: nat): nat {
    var base := if attempt < 64 then Pow2(attempt) else U64_MAX;
    Min(Min(base + jitter, U64_MAX), MAX_BACKOFF)
  }

  lemma {:induction false} Pow2Grows(a: nat, b: nat)
    requires a <= b
    ensures Pow2(a) <= Pow2(b)
  {
    if a < b { Pow2Grows(a, b - 1); }
  }

  /** The saturating form is the documented one: two to the attempt plus jitter, at most 64 seconds. */
  lemma DelayIsDocumentedFormula(attempt: nat, jitter: nat)
    ensures BackoffDelay(attempt, jitter) == Min(Pow2(attempt) + jitter, 64)
  {
    if attempt >= 6 {
      Pow2Grows(6, attempt);
      assert Pow2(6) == 64;
    } else {
      Pow2Grows(attempt, 6);
      assert Pow2(6) == 64;
    }
  }

  /** All the sleeping that `n` failed attempts can cost when the jitter is at most one second. */
  function WorstSleep(n: nat): nat {
    if n == 0 then 0 else WorstSleep(n - 1) + BackoffDelay(n - 1, 1)
  }

  const SLEEP_UP_TO: seq<nat> := [0, 2, 5, 10, 19, 36, 69]

  /** What they cost at least, without any jitter. */
  const SLEEP_AT_LEAST: seq<nat> := [0, 1, 3, 7, 15, 31, 63]

  lemma FirstPowers()
    ensures Pow2(0) == 1 && Pow2(1) == 2 && Pow2(2) == 4 && Pow2(3) == 8 && Pow2(4) == 16 && Pow2(5) == 32
  {
  }

  /** The table is the sum of the delays: a whole bounded retry sleeps 69 seconds at most. */
  lemma SleepTable(n: nat)
    requires n < MAX_RETRY_ATTEMPTS
    ensures SLEEP_UP_TO[n] == WorstSleep(n) && SLEEP_UP_TO[n + 1] == WorstSleep(n + 1)
    ensures WorstSleep(n + 1) <= WorstSleep(MAX_RETRY_ATTEMPTS) == 69
  {
    FirstPowers();
    assert WorstSleep(1) == 2;
    assert WorstSleep(2) == 5;
    assert WorstSleep(3) == 10;
    assert WorstSleep(4) == 19;
    assert WorstSleep(5) == 36;
    assert WorstSleep(6) == 69;
  }

  lemma JitterAddsAtMostOne(attempt: nat, jitter: nat)
    requires jitter <= 1
    ensures BackoffDelay(attempt, 0) <= BackoffDelay(attempt, jitter) <= BackoffDelay(attempt, 1)
  {
  }

  /** Each delay without jitter is the step from one entry of the lower table to the next. */
  lemma LeastSleepTable(n: nat)
    requires n < MAX_RETRY_ATTEMPTS
    ensures SLEEP_AT_LEAST[n + 1] == SLEEP_AT_LEAST[n] + BackoffDelay(n, 0)
  {
    FirstPowers();
  }
}
