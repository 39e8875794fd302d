/**
  The retry executor `withRetry`: call an operation; when it rejects and
  retries are left, sleep, grow the delay by a jittered factor of two capped
  at 30 seconds, and call it again; when none are left, rethrow the error.

  The operation is an oracle: `operation(request, k)` is the outcome of the
  k-th invocation (counting from 0) of the same request. `Math.random` is the
  oracle `jitter`, where `jitter(k)` is the factor drawn after the k-th
  failure, and each `setTimeout` sleep is recorded as a wait in milliseconds.
*/
module Retry {
  import opened Wrappers

  /** A thrown error; its identity is all the executor has to preserve. */
  datatype Failure = Failure(message: string)

  /** What one invocation of the operation does. */
  datatype Outcome<+T> = Resolved(value: T) | Rejected(error: Failure)

  /** Defaults of `withRetry`'s options object. */
  const DefaultMaxRetries: int := 5
  const DefaultInitialDelayMs: real := 1000.0

  /** The cap applied to every grown delay. */
  const MaxDelayMs: real := 30000.0

  /** The factor `Math.random() * 0.3 + 0.85`. */
  type Jitter = j: real | 0.85 <= j < 1.15 witness 1.0

  /** Result of a retried operation and how many times the operation was invoked. */
  datatype RetryRun<+T> = RetryRun(result: Result<T, Failure>, attempts: nat)

  /** Number of invocations when every one of them rejects. */
  function AttemptBudget(maxRetries: int): (n: nat)
    ensures n >= 1
    ensures maxRetries >= 0 ==> n == maxRetries + 1
    ensures maxRetries <= 0 ==> n == 1
  {
    if maxRetries <= 0 then 1 else maxRetries + 1
  }

  function Min(x: real, y: real): real {
    if x <= y then x else y
  }

  /** The delay before the next retry, given the delay just slept and the jitter drawn. */
  function NextDelay(current: real, jitter: Jitter): (next: real)
    ensures next <= MaxDelayMs
    ensures current * 2.0 * jitter <= MaxDelayMs ==> next == current * 2.0 * jitter
    ensures current * 2.0 * jitter > MaxDelayMs ==> next == MaxDelayMs
  {
    Min(current * 2.0 * jitter, MaxDelayMs)
  }

  /**
    The k-th wait (counting from 0): the initial delay first, then each wait
    grown from the one before by the jitter drawn after it.
  */
  function Delay(initialDelayMs: real, jitter: nat -> Jitter, k: nat): (d: real)
    ensures k > 0 ==> d <= MaxDelayMs
    ensures initialDelayMs >= 0.0 ==> d >= 0.0
    ensures initialDelayMs > 0.0 ==> d > 0.0
  {
    if k == 0 then initialDelayMs
    else NextDelay(Delay(initialDelayMs, jitter, k - 1), jitter(k - 1))
  }

  /** The first `n` waits. */
  function Waits(initialDelayMs: real, jitter: nat -> Jitter, n: nat): (ws: seq<real>)
    ensures |ws| == n
    ensures forall k :: 0 <= k < n ==> ws[k] == Delay(initialDelayMs, jitter, k)
  {
    seq(n, k requires 0 <= k < n => Delay(initialDelayMs, jitter, k))
  }

  /**
    The TypeScript's recursive `attempt`: invocation number `k`, with
    `retriesLeft` retries still allowed.
  */
  function Attempt<Q, T>(operation: (Q, nat) -> Outcome<T>, request: Q, k: nat, retriesLeft: int): (run: RetryRun<T>)
    ensures k < run.attempts <= k + AttemptBudget(retriesLeft)
    ensures forall i :: k <= i < run.attempts - 1 ==> operation(request, i).Rejected?
    ensures run.result.Ok? <==> operation(request, run.attempts - 1).Resolved?
    ensures run.result.Ok? ==> operation(request, run.attempts - 1) == Resolved(run.result.value)
    ensures run.result.Err? ==> operation(request, run.attempts - 1) == Rejected(run.result.error)
    ensures run.result.Err? ==> run.attempts == k + AttemptBudget(retriesLeft)
    decreases if retriesLeft <= 0 then 0 else retriesLeft
  {
    match operation(request, k)
    case Resolved(v) => RetryRun(Ok(v), k + 1)
    case Rejected(e) =>
      if retriesLeft <= 0 then RetryRun(Err(e), k + 1)
      else Attempt(operation, request, k + 1, retriesLeft - 1)
  }

  /**
    `withRetry(() => operation(request), {maxRetries})`: at most
    `AttemptBudget(maxRetries)` invocations, stopping at the first that
    resolves; when all reject, exactly that many, and the last error is
    rethrown as it is.
  */
  function Retried<Q, T>(operation: (Q, nat) -> Outcome<T>, request: Q, maxRetries: int): (run: RetryRun<T>)
    ensures 1 <= run.attempts <= AttemptBudget(maxRetries)
    ensures forall i :: 0 <= i < run.attempts - 1 ==> operation(request, i).Rejected?
    ensures run.result.Ok? ==> operation(request, run.attempts - 1) == Resolved(run.result.value)
    ensures run.result.Err? ==> run.attempts == AttemptBudget(maxRetries)
    ensures run.result.Err? ==> operation(request, run.attempts - 1) == Rejected(run.result.error)
  {
    Attempt(operation, request, 0, maxRetries)
  }

  /** The retry executor as the countdown loop the recursion amounts to; `waits` are the sleeps, in order. */
  method WithRetry<Q, T>(operation: (Q, nat) -> Outcome<T>, request: Q, jitter: nat -> Jitter,
                         maxRetries: int, initialDelayMs: real)
    returns (r: Result<T, Failure>, attempts: nat, waits: seq<real>)
    ensures RetryRun(r, attempts) == Retried(operation, request, maxRetries)
    ensures waits == Waits(initialDelayMs, jitter, attempts - 1)
  {
    var retriesLeft := maxRetries;
    var currentDelay := initialDelayMs;
    var outcome := operation(request, 0);
    attempts := 1;
    waits := [];
    while outcome.Rejected? && retriesLeft > 0
      invariant attempts >= 1
      invariant retriesLeft == maxRetries - (attempts - 1)
      invariant outcome == operation(request, attempts - 1)
      invariant Attempt(operation, request, attempts - 1, retriesLeft) == Retried(operation, request, maxRetries)
      invariant currentDelay == Delay(initialDelayMs, jitter, attempts - 1)
      invariant |waits| == attempts - 1
      invariant forall i :: 0 <= i < |waits| ==> waits[i] == Delay(initialDelayMs, jitter, i)
      decreases retriesLeft
    {
      waits := waits + [currentDelay];
      currentDelay := NextDelay(currentDelay, jitter(attempts - 1));
      retriesLeft := retriesLeft - 1;
      outcome := operation(request, attempts);
      attempts := attempts + 1;
    }
    r := match outcome
      case Resolved(v) => Ok(v)
      case Rejected(e) => Err(e);
  }

  /** With the defaults, a run makes at most six invocations, and exactly six when all reject. */
  lemma DefaultBudget<Q, T>(operation: (Q, nat) -> Outcome<T>, request: Q)
    ensures Retried(operation, request, DefaultMaxRetries).attempts <= 6
    ensures (forall i :: 0 <= i < 6 ==> operation(request, i).Rejected?) <==>
            Retried(operation, request, DefaultMaxRetries).result.Err?
    ensures Retried(operation, request, DefaultMaxRetries).result.Err? ==>
            Retried(operation, request, DefaultMaxRetries).attempts == 6
  {
    var run := Retried(operation, request, DefaultMaxRetries);
    if forall i :: 0 <= i < 6 ==> operation(request, i).Rejected? {
      assert operation(request, run.attempts - 1).Rejected?;
    }
  }

  /**
    Each wait after the first lies between 1.7 and 2.3 times the previous one,
    unless the 30-second cap applies.
  */
  lemma DelayGrowth(initialDelayMs: real, jitter: nat -> Jitter, k: nat)
    requires initialDelayMs >= 0.0
    ensures Min(Delay(initialDelayMs, jitter, k) * 1.7, MaxDelayMs) <= Delay(initialDelayMs, jitter, k + 1)
    ensures Delay(initialDelayMs, jitter, k + 1) <= Min(Delay(initialDelayMs, jitter, k) * 2.3, MaxDelayMs)
  {
    var d := Delay(initialDelayMs, jitter, k);
    ScaleBounds(d, jitter(k));
    MinMonotone(d * 1.7, d * 2.0 * jitter(k), MaxDelayMs);
    MinMonotone(d * 2.0 * jitter(k), d * 2.3, MaxDelayMs);
  }

  lemma MinMonotone(x: real, y: real, cap: real)
    requires x <= y
    ensures Min(x, cap) <= Min(y, cap)
  {
  }

  lemma ScaleBounds(d: real, j: Jitter)
    requires d >= 0.0
    ensures d * 1.7 <= d * 2.0 * j <= d * 2.3
  {
    var e: real := j;
    assert d * 2.0 * e == (2.0 * d) * e;
    assert (2.0 * d) * (e - 0.85) >= 0.0;
    assert (2.0 * d) * (1.15 - e) >= 0.0;
  }

  /** When the initial delay is within the cap, the waits never shrink. */
  lemma DelayNonDecreasing(initialDelayMs: real, jitter: nat -> Jitter, k: nat)
    requires 0.0 <= initialDelayMs <= MaxDelayMs
    ensures Delay(initialDelayMs, jitter, k) <= Delay(initialDelayMs, jitter, k + 1)
  {
    DelayGrowth(initialDelayMs, jitter, k);
    var d := Delay(initialDelayMs, jitter, k);
    assert d <= MaxDelayMs;
    assert d <= d * 1.7;
  }

  /** With the default initial delay the first wait is 1000 ms and the second between 1700 and 2300 ms. */
  lemma DefaultScheduleStart(jitter: nat -> Jitter)
    ensures Delay(DefaultInitialDelayMs, jitter, 0) == 1000.0
    ensures 1700.0 <= Delay(DefaultInitialDelayMs, jitter, 1) < 2300.0
  {
    var j: real := jitter(0);
    assert Delay(DefaultInitialDelayMs, jitter, 1) == Min(1000.0 * 2.0 * j, MaxDelayMs);
  }
}
