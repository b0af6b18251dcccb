// Retry with exponential backoff, in the variant that calls a coroutine
// factory afresh on every attempt (services/exponential_backoff.py).
// The operation is an oracle: `factory(n)` is what the n-th call of the
// factory (0-indexed) produces once awaited. The sleeps are recorded as the
// attempt numbers handed to the backoff, in order.

module ServicesBackoff {
  import opened Documents

  const DefaultMaxRetries := 5

  function Pow2(n: nat): (r: nat)
    ensures r >= 1
  {
    if n == 0 then 1 else 2 * Pow2(n - 1)
  }

  /** The wait before retrying after a rate limit at `attempt`:
      2^attempt seconds plus a jitter drawn from [0, 1]. */
  function BackoffWait(attempt: nat, jitter: real): (w: real)
    requires 0.0 <= jitter <= 1.0
    ensures Pow2(attempt) as real <= w <= Pow2(attempt) as real + 1.0
  {
    Pow2(attempt) as real + jitter
  }

  /** Waits never shrink from one attempt to a later one, whatever the jitter,
      and from attempt 1 on they strictly grow. */
  lemma {:induction false} BackoffWaitGrows(a: nat, b: nat, ja: real, jb: real)
    requires a < b
    requires 0.0 <= ja <= 1.0 && 0.0 <= jb <= 1.0
    ensures BackoffWait(a, ja) <= BackoffWait(b, jb)
    ensures a >= 1 ==> BackoffWait(a, ja) < BackoffWait(b, jb)
  {
    Pow2Grows(a, b);
  }

  lemma {:induction false} Pow2Grows(a: nat, b: nat)
    requires a < b
    ensures Pow2(a) + 1 <= Pow2(b)
    ensures a >= 1 ==> Pow2(a) + 1 < Pow2(b)
  {
    if b > a + 1 {
      Pow2Grows(a, b - 1);
    }
  }

  /** [0, 1, ..., n - 1]: the attempt numbers of the backoffs taken. */
  function Countup(n: nat): seq<nat> {
    seq(n, j => j)
  }

  /** Sum of the integral parts 2^a of the waits for the given attempts. */
  function BaseWait(attempts: seq<nat>): nat {
    if attempts == [] then 0 else BaseWait(attempts[..|attempts| - 1]) + Pow2(attempts[|attempts| - 1])
  }

  /** After backoffs 0 .. n-1 the caller has slept at least 2^n - 1 seconds
      (and at most n seconds more, one per jitter). */
  lemma {:induction false} BaseWaitOfCountup(n: nat)
    ensures BaseWait(Countup(n)) == Pow2(n) - 1
  {
    if n > 0 {
      assert Countup(n)[..n - 1] == Countup(n - 1);
      BaseWaitOfCountup(n - 1);
    }
  }

  /** What one run of the retry loop did: the raised or returned result,
      the number of attempts (factory calls, or awaits of the one coroutine),
      and the backoff trace. */
  datatype Run<T> = Run(result: Result<T>, calls: nat, backoffs: seq<nat>)

  /** The behaviour the retry loop promises, stated without its loop:
      - with `maxRetries <= 0` nothing is attempted and "Max retries reached" is raised;
      - otherwise every attempt but the last hit the rate limit, the last
        attempt's outcome is what the caller sees, the loop stopped early only
        on an outcome other than a rate limit, and a backoff was taken after
        every attempt except the last, with the attempt numbers 0, 1, ... */
  ghost predicate RetryOutcome<T>(factory: nat -> Result<T>, maxRetries: int, run: Run<T>) {
    if maxRetries <= 0 then
      run == Run(Err(MaxRetriesReached), 0, [])
    else
      && 1 <= run.calls <= maxRetries
      && (forall j :: 0 <= j < run.calls - 1 ==> factory(j) == Err(RateLimitError))
      && (run.calls < maxRetries ==> factory(run.calls - 1) != Err(RateLimitError))
      && run.result == factory(run.calls - 1)
      && run.backoffs == Countup(run.calls - 1)
  }

  /** The retry loop: catch only the rate-limit error, re-raise it on the last
      attempt, otherwise back off with the attempt number and call the factory again. */
  method RetryWithExponentialBackoff<T>(factory: nat -> Result<T>, maxRetries: int)
    returns (run: Run<T>)
    ensures RetryOutcome(factory, maxRetries, run)
  {
    var backoffs: seq<nat> := [];
    var attempt: nat := 0;
    while attempt < maxRetries
      invariant attempt == 0 || attempt < maxRetries
      invariant backoffs == Countup(attempt)
      invariant forall j :: 0 <= j < attempt ==> factory(j) == Err(RateLimitError)
    {
      var outcome := factory(attempt);
      if outcome != Err(RateLimitError) {
        return Run(outcome, attempt + 1, backoffs);
      }
      if attempt == maxRetries - 1 {
        return Run(outcome, attempt + 1, backoffs);
      }
      backoffs := backoffs + [attempt];  // exponential_backoff(attempt)
      attempt := attempt + 1;
    }
    run := Run(Err(MaxRetriesReached), 0, backoffs);
  }

  /** The outcome is determined by the factory and the bound: the relational
      specification admits exactly one run. */
  lemma RetryOutcomeUnique<T>(factory: nat -> Result<T>, maxRetries: int, r1: Run<T>, r2: Run<T>)
    requires RetryOutcome(factory, maxRetries, r1)
    requires RetryOutcome(factory, maxRetries, r2)
    ensures r1 == r2
  {
  }

  /** If attempts 0 .. i-1 hit the rate limit and attempt i (within the bound)
      does not, the caller gets attempt i's outcome: its value if it returned,
      its exception (propagated unretried) otherwise; the factory was called
      i + 1 times and the backoffs were 0, 1, ..., i - 1. */
  lemma FirstOtherOutcomeIsFinal<T>(factory: nat -> Result<T>, maxRetries: int, i: nat, run: Run<T>)
    requires RetryOutcome(factory, maxRetries, run)
    requires i < maxRetries
    requires forall j :: 0 <= j < i ==> factory(j) == Err(RateLimitError)
    requires factory(i) != Err(RateLimitError)
    ensures run == Run(factory(i), i + 1, Countup(i))
  {
  }

  /** If every attempt hits the rate limit, the last one is re-raised after
      exactly `maxRetries` calls and `maxRetries - 1` backoffs. */
  lemma AllRateLimitedReraises<T>(factory: nat -> Result<T>, maxRetries: int, run: Run<T>)
    requires RetryOutcome(factory, maxRetries, run)
    requires maxRetries > 0
    requires forall j :: 0 <= j < maxRetries ==> factory(j) == Err(RateLimitError)
    ensures run == Run(Err(RateLimitError), maxRetries, Countup(maxRetries - 1))
  {
  }

  /** There is never a backoff after the final attempt: the number of sleeps
      is one less than the number of calls, and the total base wait is
      2^(calls-1) - 1 seconds. */
  lemma {:induction false} BackoffsPerCall<T>(factory: nat -> Result<T>, maxRetries: int, run: Run<T>)
    requires RetryOutcome(factory, maxRetries, run)
    requires maxRetries > 0
    ensures |run.backoffs| == run.calls - 1
    ensures BaseWait(run.backoffs) == Pow2(run.calls - 1) - 1
  {
    BaseWaitOfCountup(run.calls - 1);
  }
}
