// Retry with exponential backoff, in the variant that is handed one
// coroutine object and awaits that same object on every attempt
// (utils/exponential_backoff.py). A coroutine runs its body at most once:
// awaiting it again after it finished raises instead of re-running it.

module UtilsBackoff {
  import opened Documents
  import opened ServicesBackoff

  /** A coroutine object: the outcome its body produces when first awaited,
      and whether it has been awaited already. */
  class Coroutine<T> {
    const outcome: Result<T>
    var awaited: bool

    constructor (outcome: Result<T>)
      ensures this.outcome == outcome && !awaited
    {
      this.outcome := outcome;
      awaited := false;
    }

    /** `await coroutine`: runs the body the first time, fails afterwards. */
    method Await() returns (r: Result<T>)
      modifies this
      ensures awaited
      ensures r == AwaitOutcome(outcome, old(awaited))
    {
      r := AwaitOutcome(outcome, awaited);
      awaited := true;
    }
  }

  function AwaitOutcome<T>(outcome: Result<T>, awaitedBefore: bool): Result<T> {
    if awaitedBefore then Err(ReusedCoroutine) else outcome
  }

  /** The outcome of the n-th await of one coroutine object, seen as the
      factory that the other variant calls afresh each time. */
  function ReuseScript<T>(outcome: Result<T>, awaitedBefore: bool): nat -> Result<T> {
    (n: nat) => AwaitOutcome(outcome, awaitedBefore || n > 0)
  }

  /** The n-th await: the body's outcome only on the first await of a fresh coroutine. */
  lemma ReuseScriptAt<T>(outcome: Result<T>, awaitedBefore: bool, n: nat)
    ensures ReuseScript(outcome, awaitedBefore)(n) == AwaitOutcome(outcome, awaitedBefore || n > 0)
  {
  }

  /** The retry loop over a single coroutine object: it behaves as the
      factory-based loop would with a factory whose every call after the
      first fails because the coroutine was already awaited. */
  method RetryWithExponentialBackoff<T>(coroutine: Coroutine<T>, maxRetries: int)
    returns (run: Run<T>)
    modifies coroutine
    ensures RetryOutcome(ReuseScript(coroutine.outcome, old(coroutine.awaited)), maxRetries, run)
    ensures coroutine.awaited == (old(coroutine.awaited) || maxRetries > 0)
  {
    ghost var script := ReuseScript(coroutine.outcome, coroutine.awaited);
    ghost var awaitedBefore := coroutine.awaited;
    var backoffs: seq<nat> := [];
    var attempt: nat := 0;
    while attempt < maxRetries
      invariant attempt == 0 || attempt < maxRetries
      invariant backoffs == Countup(attempt)
      invariant forall j :: 0 <= j < attempt ==> script(j) == Err(RateLimitError)
      invariant coroutine.awaited == (awaitedBefore || attempt > 0)
    {
      var outcome := coroutine.Await();
      assert outcome == script(attempt);
      if outcome != Err(RateLimitError) {
        return Run(outcome, attempt + 1, backoffs);
      }
      if attempt == maxRetries - 1 {
        return Run(outcome, attempt + 1, backoffs);
      }
      backoffs := backoffs + [attempt];  // exponential_backoff(attempt)
      attempt := attempt + 1;
    }
    run := Run(Err(MaxRetriesReached), 0, backoffs);
  }

  /** With a fresh coroutine the operation runs at most once: an outcome other
      than a rate limit is final; a rate limit on the only allowed attempt is
      re-raised; otherwise one backoff (attempt 0) is taken and the second
      await fails because the coroutine is spent, and that error propagates. */
  lemma SingleCoroutineRetry<T>(outcome: Result<T>, maxRetries: int, run: Run<T>)
    requires RetryOutcome(ReuseScript(outcome, false), maxRetries, run)
    requires maxRetries > 0
    ensures outcome != Err(RateLimitError) ==> run == Run(outcome, 1, [])
    ensures outcome == Err(RateLimitError) && maxRetries == 1 ==> run == Run(Err(RateLimitError), 1, [])
    ensures outcome == Err(RateLimitError) && maxRetries >= 2 ==> run == Run(Err(ReusedCoroutine), 2, [0])
  {
    var script := ReuseScript(outcome, false);
    ReuseScriptAt(outcome, false, 0);
    if outcome != Err(RateLimitError) {
      FirstOtherOutcomeIsFinal(script, maxRetries, 0, run);
    } else if maxRetries == 1 {
      AllRateLimitedReraises(script, maxRetries, run);
    } else {
      ReuseScriptAt(outcome, false, 1);
      FirstOtherOutcomeIsFinal(script, maxRetries, 1, run);
      assert Countup(1) == [0];
    }
  }

  /** The discrepancy with the factory variant: an operation whose first run
      hits the rate limit and whose second run would succeed. Retried through
      a factory it returns the value; retried through one coroutine object it
      raises the reused-coroutine error after one backoff. */
  lemma RateLimitThenSuccess<T>(v: T, viaCoroutine: Run<T>, viaFactory: Run<T>)
    requires RetryOutcome(ReuseScript(Err(RateLimitError), false), DefaultMaxRetries, viaCoroutine)
    requires RetryOutcome((n: nat) => if n == 0 then Err(RateLimitError) else Ok(v), DefaultMaxRetries, viaFactory)
    ensures viaCoroutine == Run(Err(ReusedCoroutine), 2, [0])
    ensures viaFactory == Run(Ok(v), 2, [0])
  {
    SingleCoroutineRetry(Err(RateLimitError), DefaultMaxRetries, viaCoroutine);
    var factory := (n: nat) => if n == 0 then Err(RateLimitError) else Ok(v);
    assert factory(0) == Err(RateLimitError) && factory(1) == Ok(v);
    FirstOtherOutcomeIsFinal(factory, DefaultMaxRetries, 1, viaFactory);
    assert Countup(1) == [0];
  }
}
