/** The provider's retry loop with doubling backoff and jitter. */
module ProviderRetry {

  /** What the transport does with one post. */
  datatype Reply = Status(code: int, body: string) | Exception(message: string)

  datatype Outcome = Returned(code: int, body: string) | FailedAfterAttempts(message: string) | NeverAttempted

  const RETRYABLE: set<int> := {408, 429, 500, 502, 503}
  const NON_RETRYABLE: set<int> := {400, 401, 403, 409}

  predicate Retryable(r: Reply) {
    r.Exception? || r.code in RETRYABLE
  }

  function Pow2(k: nat): real {
    if k == 0 then 1.0 else 2.0 * Pow2(k - 1)
  }

  function Total(sleeps: seq<real>): real {
    if sleeps == [] then 0.0 else Total(sleeps[..|sleeps| - 1]) + sleeps[|sleeps| - 1]
  }

  /** The doubled backoff plus up to half of it again. */
  function SleepAt(backoff: real, k: nat, jitter: real): real {
    backoff * Pow2(k) * (1.0 + 0.5 * jitter)
  }

  /** `reply(k)` and `jitter(k)` are what the transport and the random generator give at attempt `k`. */
  method RequestWithRetry(reply: nat -> Reply, jitter: nat -> real, maxRetries: int, retryBackoff: real)
    returns (outcome: Outcome, posts: nat, sleeps: seq<real>)
    requires forall k :: 0.0 <= jitter(k) <= 1.0
    ensures maxRetries < 0 <==> outcome == NeverAttempted
    ensures maxRetries < 0 ==> posts == 0 && sleeps == []
    ensures maxRetries >= 0 ==>
              && 1 <= posts <= maxRetries + 1
              && (forall k | 0 <= k < posts - 1 :: reply(k).Exception? || reply(k).code in {408, 429, 500, 502, 503})
              && (posts <= maxRetries ==> reply(posts - 1).Status? && reply(posts - 1).code !in {408, 429, 500, 502, 503})
              && (match reply(posts - 1)
                  case Status(code, body) => outcome == Returned(code, body)
                  case Exception(message) => outcome == FailedAfterAttempts(message))
              && |sleeps| == posts - 1
              && (forall k | 0 <= k < |sleeps| :: sleeps[k] == SleepAt(retryBackoff, k, jitter(k)))
  {
    var backoff := retryBackoff;
    posts, sleeps := 0, [];
    var attempt: nat := 0;
    assert backoff == retryBackoff * Pow2(0);
    while attempt < maxRetries + 1
      invariant 0 <= attempt && (maxRetries >= 0 ==> attempt <= maxRetries)
      invariant posts == attempt == |sleeps|
      invariant maxRetries < 0 ==> attempt == 0
      invariant backoff == retryBackoff * Pow2(attempt)
      invariant forall k | 0 <= k < attempt :: Retryable(reply(k))
      invariant forall k | 0 <= k < |sleeps| :: sleeps[k] == SleepAt(retryBackoff, k, jitter(k))
      decreases maxRetries + 1 - attempt
    {
      var r := reply(attempt);
      posts := posts + 1;
      if r.Status? {
        if r.code in NON_RETRYABLE {
          return Returned(r.code, r.body), posts, sleeps;
        }
        if !(r.code in RETRYABLE && attempt < maxRetries) {
          return Returned(r.code, r.body), posts, sleeps;
        }
      } else if attempt >= maxRetries {
        return FailedAfterAttempts(r.message), posts, sleeps;
      }
      var slept := backoff + 0.5 * backoff * jitter(attempt);
      sleeps := sleeps + [slept];
      SleepIsJittered(retryBackoff * Pow2(attempt), jitter(attempt));
      DoublingIsPow2(retryBackoff, attempt);
      backoff := backoff * 2.0;
      attempt := attempt + 1;
    }
    outcome := NeverAttempted;
  }

  /** A sleep is the doubled backoff, and at full jitter half as much again. */
  lemma SleepIsExact(backoff: real, k: nat, jitter: real)
    ensures SleepAt(backoff, 0, 0.0) == backoff
    ensures SleepAt(backoff, k + 1, jitter) == 2.0 * SleepAt(backoff, k, jitter)
    ensures SleepAt(backoff, k, jitter) == SleepAt(backoff, k, 0.0) + jitter * (SleepAt(backoff, k, 0.0) / 2.0)
  {
    DoublingIsPow2(backoff, k);
    SleepIsJittered(backoff * Pow2(k), jitter);
    assert backoff * Pow2(0) == backoff;
  }

  lemma SleepIsJittered(b: real, j: real)
    ensures b + 0.5 * b * j == b * (1.0 + 0.5 * j)
  {
  }

  lemma DoublingIsPow2(b: real, k: nat)
    ensures b * Pow2(k) * 2.0 == b * Pow2(k + 1)
  {
  }

  // ---------------------------------------------------------------- the total sleep

  lemma {:induction false} PowIsPositive(k: nat)
    ensures Pow2(k) >= 1.0
  {
    if k > 0 {
      PowIsPositive(k - 1);
    }
  }

  lemma JitterBounds(base: real, jitter: real)
    requires base >= 0.0 && 0.0 <= jitter <= 1.0
    ensures base <= base * (1.0 + 0.5 * jitter) <= 1.5 * base
  {
    assert base * jitter >= 0.0;
    assert base * (1.0 - jitter) >= 0.0;
  }

  lemma OneMoreDoubling(b: real, p: real)
    requires b >= 0.0 && p >= 1.0
    ensures b * p >= 0.0
    ensures b * (2.0 * p - 1.0) == b * (p - 1.0) + b * p
  {
  }

  lemma SleepBounds(backoff: real, k: nat, jitter: real)
    requires backoff >= 0.0 && 0.0 <= jitter <= 1.0
    ensures backoff * Pow2(k) <= SleepAt(backoff, k, jitter) <= 1.5 * (backoff * Pow2(k))
  {
    PowIsPositive(k);
    OneMoreDoubling(backoff, Pow2(k));
    JitterBounds(backoff * Pow2(k), jitter);
  }

  lemma BoundsAdd(total: real, low: real, last: real, base: real)
    requires low <= total <= 1.5 * low && base <= last <= 1.5 * base
    ensures low + base <= total + last <= 1.5 * (low + base)
  {
  }

  /** After k retries the loop has slept between b(2^k - 1) and one and a half times that. */
  lemma {:induction false} TotalSleepIsBounded(sleeps: seq<real>, backoff: real, jitter: nat -> real)
    requires backoff >= 0.0 && forall k :: 0.0 <= jitter(k) <= 1.0
    requires forall k | 0 <= k < |sleeps| :: sleeps[k] == SleepAt(backoff, k, jitter(k))
    ensures backoff * (Pow2(|sleeps|) - 1.0) <= Total(sleeps) <= 1.5 * (backoff * (Pow2(|sleeps|) - 1.0))
  {
    if sleeps != [] {
      var n := |sleeps| - 1;
      TotalSleepIsBounded(sleeps[..n], backoff, jitter);
      PowIsPositive(n);
      OneMoreDoubling(backoff, Pow2(n));
      SleepBounds(backoff, n, jitter(n));
      assert sleeps[n] == SleepAt(backoff, n, jitter(n));
      hide SleepAt;
      BoundsAdd(Total(sleeps[..n]), backoff * (Pow2(n) - 1.0), sleeps[n], backoff * Pow2(n));
    }
  }
}
