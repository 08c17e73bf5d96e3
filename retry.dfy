/**
 * The retry wrapper GetMarketStatsWithRetryAsync, shared by both exchange
 * services: attempts 1..maxRetries run one after another; the first success
 * is returned; a failure of attempt k < maxRetries is followed by a 2^k-second
 * delay, and a failure of the last attempt is rethrown. When maxRetries <= 0
 * no attempt is made and the service's own fallback is returned.
 *
 * The wrapped operation is an oracle: `outcomes[k - 1]` is what attempt k
 * yields. The delays it waits are returned as a ghost log of seconds.
 */
module Retry {
  import opened Base

  function Pow2(k: nat): (p: nat)
    ensures p >= 1
  {
    if k == 0 then 1 else 2 * Pow2(k - 1)
  }

  /** The delays waited after failed attempts 1..n: 2, 4, ..., 2^n seconds. */
  function Backoff(n: nat): (d: seq<nat>)
    ensures |d| == n
    ensures forall i :: 0 <= i < n ==> d[i] == Pow2(i + 1)
  {
    if n == 0 then [] else Backoff(n - 1) + [Pow2(n)]
  }

  /** The attempt on which the loop stops, starting from `attempt`: a success, or the last permitted one. */
  function StopFrom<T, E>(attempt: nat, maxRetries: int, outcomes: seq<Result<T, E>>): (n: nat)
    requires 1 <= attempt <= maxRetries <= |outcomes|
    ensures attempt <= n <= maxRetries
    decreases maxRetries - attempt
  {
    if outcomes[attempt - 1].Ok? || attempt == maxRetries then attempt
    else StopFrom(attempt + 1, maxRetries, outcomes)
  }

  /** How many times the operation is invoked. */
  function Attempts<T, E>(maxRetries: int, outcomes: seq<Result<T, E>>): (n: nat)
    requires maxRetries <= |outcomes|
    ensures n <= |outcomes|
  {
    if maxRetries <= 0 then 0 else StopFrom(1, maxRetries, outcomes)
  }

  lemma {:induction false} StopFromIsFirstSuccess<T, E>(attempt: nat, maxRetries: int, outcomes: seq<Result<T, E>>)
    requires 1 <= attempt <= maxRetries <= |outcomes|
    ensures var n := StopFrom(attempt, maxRetries, outcomes);
      && attempt <= n <= maxRetries
      && (outcomes[n - 1].Ok? || n == maxRetries)
      && forall i :: attempt - 1 <= i < n - 1 ==> outcomes[i].Err?
    decreases maxRetries - attempt
  {
    if !(outcomes[attempt - 1].Ok? || attempt == maxRetries) {
      StopFromIsFirstSuccess(attempt + 1, maxRetries, outcomes);
    }
  }

  /**
   * The operation is invoked at most maxRetries times (never when maxRetries <= 0),
   * every attempt before the last failed, and the loop only gives up after
   * attempt maxRetries.
   */
  lemma AttemptsCharacterised<T, E>(maxRetries: int, outcomes: seq<Result<T, E>>)
    requires maxRetries <= |outcomes|
    ensures maxRetries <= 0 ==> Attempts(maxRetries, outcomes) == 0
    ensures maxRetries > 0 ==>
      var n := Attempts(maxRetries, outcomes);
      && 1 <= n <= maxRetries
      && (outcomes[n - 1].Ok? || n == maxRetries)
      && forall i :: 0 <= i < n - 1 ==> outcomes[i].Err?
  {
    if maxRetries > 0 {
      StopFromIsFirstSuccess(1, maxRetries, outcomes);
    }
  }

  /** An operation that fails N - 1 times and then succeeds (N <= maxRetries) is invoked exactly N times. */
  lemma SucceedsOnAttempt<T, E>(maxRetries: int, outcomes: seq<Result<T, E>>, n: nat)
    requires maxRetries <= |outcomes|
    requires 1 <= n <= maxRetries
    requires forall i :: 0 <= i < n - 1 ==> outcomes[i].Err?
    requires outcomes[n - 1].Ok?
    ensures Attempts(maxRetries, outcomes) == n
  {
    AttemptsCharacterised(maxRetries, outcomes);
  }

  /** An operation that always fails is invoked exactly maxRetries times. */
  lemma AlwaysFails<T, E>(maxRetries: int, outcomes: seq<Result<T, E>>)
    requires 1 <= maxRetries <= |outcomes|
    requires forall i :: 0 <= i < maxRetries ==> outcomes[i].Err?
    ensures Attempts(maxRetries, outcomes) == maxRetries
  {
    AttemptsCharacterised(maxRetries, outcomes);
  }

  /**
   * The loop. It returns what the last attempt made yielded, the success or
   * the exception rethrown, or `exhausted` when no attempt is made, and waits
   * 2^k seconds after each failed attempt k except the last.
   */
  method WithRetry<T, E>(maxRetries: int, outcomes: seq<Result<T, E>>, exhausted: Result<T, E>)
    returns (r: Result<T, E>, invoked: nat, ghost delays: seq<nat>)
    requires maxRetries <= |outcomes|
    ensures invoked == Attempts(maxRetries, outcomes)
    ensures r == if invoked == 0 then exhausted else outcomes[invoked - 1]
    ensures delays == Backoff(if invoked == 0 then 0 else invoked - 1)
  {
    invoked, delays := 0, [];
    var attempt := 1;
    while attempt <= maxRetries
      invariant 1 <= attempt <= if maxRetries >= 1 then maxRetries else 1
      invariant invoked == attempt - 1
      invariant delays == Backoff(attempt - 1)
      invariant attempt <= maxRetries ==> Attempts(maxRetries, outcomes) == StopFrom(attempt, maxRetries, outcomes)
      decreases maxRetries - attempt
    {
      var outcome := outcomes[attempt - 1];
      invoked := invoked + 1;
      assert StopFrom(attempt, maxRetries, outcomes) == if outcome.Ok? || attempt == maxRetries then attempt
        else StopFrom(attempt + 1, maxRetries, outcomes);
      if outcome.Ok? {
        r := outcome;
        return;
      }
      if attempt == maxRetries {
        r := outcome;
        return;
      }
      delays := delays + [Pow2(attempt)];
      attempt := attempt + 1;
    }
    r := exhausted;
  }

  /** The waits grow strictly: each is twice the one before, starting at 2 seconds. */
  lemma {:induction false} BackoffDoubles(n: nat)
    ensures forall i :: 0 <= i < n ==> Backoff(n)[i] >= 2
    ensures forall i :: 0 < i < n ==> Backoff(n)[i] == 2 * Backoff(n)[i - 1]
  {
  }
}
