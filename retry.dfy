/**
 * `withRetry`, `withLinearRetry` and `withRetryAndTimeout`: a bounded loop of
 * attempts at an operation. The operation is given as its outcome on each
 * attempt (`fn(i)` is what the `i`-th call, counted from 0, settles to);
 * the random jitter of each wait is a parameter in [0, 1); waiting itself is
 * recorded as the list of delays waited, and the `onRetry` callback as the
 * list of calls it receives.
 */
module Retry {
  import opened Wrappers
  import opened Js

  /** `Required<RetryOptions>` without the callback. */
  datatype Options = Options(maxRetries: int, baseDelay: real, maxDelay: real, backoffMultiplier: real)

  /** The caller's options; `None` is an option left out. */
  datatype RetryOptions = RetryOptions(
    maxRetries: Option<int>,
    baseDelay: Option<real>,
    maxDelay: Option<real>,
    backoffMultiplier: Option<real>)

  /** One call of `onRetry(attempt, error)`. */
  datatype RetryCall = RetryCall(attempt: int, error: Fault)

  /** The outcome of one attempt run under `withTimeout`: it settled first, or the timer fired first. */
  datatype Timed<T> = Settled(outcome: Result<T, Fault>) | TimedOut

  const NoOptions := RetryOptions(None, None, None, None)

  /** `DEFAULT_OPTIONS`. */
  const DefaultOptions := Options(3, 1000.0, 30000.0, 2.0)

  /** `{ ...DEFAULT_OPTIONS, ...options }`: each supplied option overrides its default. */
  function Resolve(o: RetryOptions): (c: Options)
    ensures c.maxRetries == if o.maxRetries.Some? then o.maxRetries.value else 3
    ensures c.baseDelay == if o.baseDelay.Some? then o.baseDelay.value else 1000.0
    ensures c.maxDelay == if o.maxDelay.Some? then o.maxDelay.value else 30000.0
    ensures c.backoffMultiplier == if o.backoffMultiplier.Some? then o.backoffMultiplier.value else 2.0
  {
    Options(
      if o.maxRetries.Some? then o.maxRetries.value else DefaultOptions.maxRetries,
      if o.baseDelay.Some? then o.baseDelay.value else DefaultOptions.baseDelay,
      if o.maxDelay.Some? then o.maxDelay.value else DefaultOptions.maxDelay,
      if o.backoffMultiplier.Some? then o.backoffMultiplier.value else DefaultOptions.backoffMultiplier)
  }

  function Pow(b: real, e: nat): real
  {
    if e == 0 then 1.0 else b * Pow(b, e - 1)
  }

  function Min(a: real, b: real): real
  {
    if a <= b then a else b
  }

  /** The wait before the attempt after attempt `i`: `min(baseDelay * multiplier^i, maxDelay)`. */
  function Backoff(c: Options, i: nat): (d: real)
    ensures d <= c.maxDelay && d <= c.baseDelay * Pow(c.backoffMultiplier, i)
    ensures d == c.maxDelay || d == c.baseDelay * Pow(c.backoffMultiplier, i)
  {
    Min(c.baseDelay * Pow(c.backoffMultiplier, i), c.maxDelay)
  }

  /** `delay + Math.random() * 0.1 * delay`, with `u` standing for `Math.random()`. */
  function Jittered(delay: real, u: real): (w: real)
    ensures delay >= 0.0 && 0.0 <= u < 1.0 ==> delay <= w <= delay + 0.1 * delay
    ensures delay > 0.0 && 0.0 <= u < 1.0 ==> w < delay + 0.1 * delay
  {
    assert delay >= 0.0 && 0.0 <= u < 1.0 ==> u * 0.1 * delay <= 0.1 * delay;
    delay + u * 0.1 * delay
  }

  /** How many times the loop can call `fn`: `maxRetries`, or none when it is not positive. */
  function Budget(maxRetries: int): nat
  {
    if maxRetries > 0 then maxRetries else 0
  }

  /** The first of the attempts `0 .. n-1` that succeeds, if any does. */
  function FirstSuccess<T>(fn: nat -> Result<T, Fault>, n: nat): (k: Option<nat>)
    ensures k.Some? ==> k.value < n && fn(k.value).Success?
    ensures k.Some? ==> forall j :: 0 <= j < k.value ==> fn(j).Failure?
    ensures k.None? ==> forall j :: 0 <= j < n ==> fn(j).Failure?
  {
    if n == 0 then None
    else
      match FirstSuccess(fn, n - 1)
      case Some(k) => Some(k)
      case None => if fn(n - 1).Success? then Some(n - 1) else None
  }

  /** The error `withRetry` throws once every attempt has failed. */
  function Exhausted(maxRetries: int, last: Option<Fault>): Fault
  {
    ErrorObject("Failed after " + IntToString(maxRetries) + " attempts. Last error: "
                + (if last.Some? then FaultText(last.value) else "undefined"))
  }

  /** What `withRetry` settles to. */
  function RetryResult<T>(fn: nat -> Result<T, Fault>, maxRetries: int): Result<T, Fault>
  {
    var n := Budget(maxRetries);
    match FirstSuccess(fn, n)
    case Some(k) => fn(k)
    case None => Failure(Exhausted(maxRetries, if n == 0 then None else Some(fn(n - 1).error)))
  }

  /** How many times `fn` is called. */
  function CallCount<T>(fn: nat -> Result<T, Fault>, maxRetries: int): nat
  {
    match FirstSuccess(fn, Budget(maxRetries))
    case Some(k) => k + 1
    case None => Budget(maxRetries)
  }

  /** How many failed attempts are followed by another: the failures before the last call. */
  function RetriedCount<T>(fn: nat -> Result<T, Fault>, maxRetries: int): (m: nat)
    ensures forall j :: 0 <= j < m ==> fn(j).Failure?
  {
    match FirstSuccess(fn, Budget(maxRetries))
    case Some(k) => k
    case None => if Budget(maxRetries) == 0 then 0 else Budget(maxRetries) - 1
  }

  /** The `onRetry` calls after the first `m` attempts, all of them failures. */
  function CallsBefore<T>(fn: nat -> Result<T, Fault>, m: nat): seq<RetryCall>
    requires forall j :: 0 <= j < m ==> fn(j).Failure?
  {
    seq(m, i requires 0 <= i < m => RetryCall(i + 1, AsError(fn(i).error)))
  }

  /** The waits after the first `m` attempts, jitter included. */
  function WaitsBefore(c: Options, jitter: nat -> real, m: nat): seq<real>
  {
    seq(m, i requires 0 <= i => Jittered(Backoff(c, i), jitter(i)))
  }

  /** The calls `onRetry` receives: one per failed attempt that is not the last. */
  function RetryCalls<T>(fn: nat -> Result<T, Fault>, maxRetries: int): seq<RetryCall>
  {
    CallsBefore(fn, RetriedCount(fn, maxRetries))
  }

  /** The waits between attempts, jitter included. */
  function RetryWaits<T>(fn: nat -> Result<T, Fault>, c: Options, jitter: nat -> real): seq<real>
  {
    WaitsBefore(c, jitter, RetriedCount(fn, c.maxRetries))
  }

  /** One more failed attempt that is not the last adds one callback and one wait. */
  lemma TraceStep<T>(fn: nat -> Result<T, Fault>, c: Options, jitter: nat -> real, m: nat)
    requires forall j :: 0 <= j <= m ==> fn(j).Failure?
    ensures CallsBefore(fn, m + 1) == CallsBefore(fn, m) + [RetryCall(m + 1, AsError(fn(m).error))]
    ensures WaitsBefore(c, jitter, m + 1) == WaitsBefore(c, jitter, m) + [Jittered(Backoff(c, m), jitter(m))]
  {
    assert CallsBefore(fn, m + 1)[..m] == CallsBefore(fn, m);
    assert WaitsBefore(c, jitter, m + 1)[..m] == WaitsBefore(c, jitter, m);
  }

  /** When attempt `k` is the first success within the budget, it settles the loop after `k + 1` calls. */
  lemma SucceedsAt<T>(fn: nat -> Result<T, Fault>, maxRetries: int, k: nat)
    requires k < Budget(maxRetries) && FirstSuccess(fn, k).None? && fn(k).Success?
    ensures RetryResult(fn, maxRetries) == fn(k)
    ensures CallCount(fn, maxRetries) == k + 1 && RetriedCount(fn, maxRetries) == k
  {
    assert FirstSuccess(fn, k + 1) == Some(k);
    FirstSuccessStable(fn, k + 1, Budget(maxRetries));
  }

  /** When no attempt within the budget succeeds, every attempt is made and the last error is reported. */
  lemma FailsThroughout<T>(fn: nat -> Result<T, Fault>, maxRetries: int)
    requires FirstSuccess(fn, Budget(maxRetries)).None?
    ensures CallCount(fn, maxRetries) == Budget(maxRetries)
    ensures RetriedCount(fn, maxRetries) == if Budget(maxRetries) == 0 then 0 else Budget(maxRetries) - 1
    ensures RetryResult(fn, maxRetries)
            == Failure(Exhausted(maxRetries, if Budget(maxRetries) == 0 then None
                                             else Some(fn(Budget(maxRetries) - 1).error)))
  {
  }

  /** `withRetry(fn, options)`. */
  method WithRetry<T>(fn: nat -> Result<T, Fault>, options: RetryOptions, jitter: nat -> real)
      returns (r: Result<T, Fault>, calls: nat, retries: seq<RetryCall>, waits: seq<real>)
    ensures r == RetryResult(fn, Resolve(options).maxRetries)
    ensures calls == CallCount(fn, Resolve(options).maxRetries)
    ensures retries == RetryCalls(fn, Resolve(options).maxRetries)
    ensures waits == RetryWaits(fn, Resolve(options), jitter)
  {
    var config := Resolve(options);
    var lastError: Option<Fault> := None;
    var attempt: nat := 0;
    calls, retries, waits := 0, [], [];
    while attempt < config.maxRetries
      invariant attempt == 0 || attempt < config.maxRetries
      invariant FirstSuccess(fn, attempt).None?
      invariant calls == attempt
      invariant lastError == if attempt == 0 then None else Some(AsError(fn(attempt - 1).error))
      invariant retries == CallsBefore(fn, attempt)
      invariant waits == WaitsBefore(config, jitter, attempt)
    {
      calls := calls + 1;
      var outcome := fn(attempt);
      if outcome.Success? {
        SucceedsAt(fn, config.maxRetries, attempt);
        return outcome, calls, retries, waits;
      }
      lastError := Some(AsError(outcome.error));
      if attempt == config.maxRetries - 1 {
        assert FirstSuccess(fn, attempt + 1).None?;
        break;
      }
      TraceStep(fn, config, jitter, attempt);
      var delay := Backoff(config, attempt);
      var totalDelay := Jittered(delay, jitter(attempt));
      retries := retries + [RetryCall(attempt + 1, lastError.value)];
      waits := waits + [totalDelay];
      attempt := attempt + 1;
    }
    FailsThroughout(fn, config.maxRetries);
    var lastMessage := if lastError.Some? then lastError.value.message else "undefined";
    r := Failure(ErrorObject("Failed after " + IntToString(config.maxRetries) + " attempts. Last error: " + lastMessage));
  }

  /** What `withLinearRetry` settles to: the last error itself, or 'Operation failed' when `fn` never ran. */
  function LinearResult<T>(fn: nat -> Result<T, Fault>, maxRetries: int): Result<T, Fault>
  {
    var n := Budget(maxRetries);
    match FirstSuccess(fn, n)
    case Some(k) => fn(k)
    case None => Failure(if n == 0 then ErrorObject("Operation failed") else AsError(fn(n - 1).error))
  }

  /** `withLinearRetry(fn, maxRetries = 3, delayMs = 1000)`. */
  method WithLinearRetry<T>(fn: nat -> Result<T, Fault>, maxRetries: Option<int>, delayMs: Option<real>)
      returns (r: Result<T, Fault>, calls: nat, waits: seq<real>)
    ensures var max := if maxRetries.Some? then maxRetries.value else 3;
            && r == LinearResult(fn, max)
            && calls == CallCount(fn, max)
            && waits == seq(RetriedCount(fn, max), _ => if delayMs.Some? then delayMs.value else 1000.0)
  {
    var max := if maxRetries.Some? then maxRetries.value else 3;
    var delay := if delayMs.Some? then delayMs.value else 1000.0;
    var lastError: Option<Fault> := None;
    var attempt: nat := 0;
    calls, waits := 0, [];
    while attempt < max
      invariant attempt <= Budget(max)
      invariant FirstSuccess(fn, attempt).None?
      invariant calls == attempt
      invariant lastError == if attempt == 0 then None else Some(AsError(fn(attempt - 1).error))
      invariant waits == seq(if attempt == Budget(max) && attempt > 0 then attempt - 1 else attempt, _ => delay)
    {
      calls := calls + 1;
      var outcome := fn(attempt);
      if outcome.Success? {
        assert FirstSuccess(fn, attempt + 1) == Some(attempt);
        FirstSuccessStable(fn, attempt + 1, Budget(max));
        return outcome, calls, waits;
      }
      lastError := Some(AsError(outcome.error));
      if attempt < max - 1 {
        waits := waits + [delay];
      }
      attempt := attempt + 1;
    }
    r := Failure(if lastError.Some? then lastError.value else ErrorObject("Operation failed"));
  }

  /** `withTimeout(fn, timeoutMs)` on one attempt: a timer that fires first rejects with this error. */
  function Guard<T>(t: Timed<T>, timeoutMs: int): (r: Result<T, Fault>)
    ensures t.Settled? ==> r == t.outcome
    ensures t.TimedOut? ==> r.Failure? && FaultText(r.error) == "Operation timed out after " + IntToString(timeoutMs) + "ms"
  {
    match t
    case Settled(outcome) => outcome
    case TimedOut => Failure(ErrorObject("Operation timed out after " + IntToString(timeoutMs) + "ms"))
  }

  /** The attempts of `fn` as `withRetryAndTimeout` runs them: each under a timer of `ms`. */
  function Guarded<T>(timed: nat -> Timed<T>, ms: int): nat -> Result<T, Fault>
  {
    (i: nat) => Guard(timed(i), ms)
  }

  /** `withRetryAndTimeout(fn, retryOptions, timeoutMs = 10000)`: every attempt gets its own timer. */
  method WithRetryAndTimeout<T>(timed: nat -> Timed<T>, options: RetryOptions, timeoutMs: Option<int>, jitter: nat -> real)
      returns (r: Result<T, Fault>, calls: nat, retries: seq<RetryCall>, waits: seq<real>)
    ensures var g := Guarded(timed, if timeoutMs.Some? then timeoutMs.value else 10000);
            && r == RetryResult(g, Resolve(options).maxRetries)
            && calls == CallCount(g, Resolve(options).maxRetries)
            && retries == RetryCalls(g, Resolve(options).maxRetries)
            && waits == RetryWaits(g, Resolve(options), jitter)
  {
    var ms := if timeoutMs.Some? then timeoutMs.value else 10000;
    r, calls, retries, waits := WithRetry(Guarded(timed, ms), options, jitter);
  }

  // ------------------------------------------------------------ properties

  /** `withRetry` succeeds iff one of its attempts does, and then with the first success. */
  lemma RetrySucceedsIff<T>(fn: nat -> Result<T, Fault>, maxRetries: int)
    ensures RetryResult(fn, maxRetries).Success?
            <==> exists k :: 0 <= k < Budget(maxRetries) && fn(k).Success?
    ensures forall k ::
              (0 <= k < Budget(maxRetries) && fn(k).Success? && forall j :: 0 <= j < k ==> fn(j).Failure?)
              ==> RetryResult(fn, maxRetries) == fn(k)
  {
    var n := Budget(maxRetries);
    forall k | 0 <= k < n && fn(k).Success? && (forall j :: 0 <= j < k ==> fn(j).Failure?)
      ensures RetryResult(fn, maxRetries) == fn(k)
    {
      assert FirstSuccess(fn, n).Some?;
    }
  }

  /**
   * `fn` runs at most `maxRetries` times and not at all when that is not
   * positive; no call follows a success; `onRetry` is told attempts 1, 2, …
   * and is never called after the final attempt.
   */
  lemma CallsBounded<T>(fn: nat -> Result<T, Fault>, maxRetries: int)
    ensures CallCount(fn, maxRetries) <= Budget(maxRetries)
    ensures maxRetries <= 0 ==> CallCount(fn, maxRetries) == 0
    ensures CallCount(fn, maxRetries) > 0 && fn(CallCount(fn, maxRetries) - 1).Success?
            ==> RetryResult(fn, maxRetries) == fn(CallCount(fn, maxRetries) - 1)
    ensures |RetryCalls(fn, maxRetries)| == if CallCount(fn, maxRetries) == 0 then 0 else CallCount(fn, maxRetries) - 1
    ensures forall i :: 0 <= i < |RetryCalls(fn, maxRetries)| ==>
              RetryCalls(fn, maxRetries)[i].attempt == i + 1 < maxRetries
  {
  }

  /** With every attempt failed, the error names `maxRetries` and the last attempt's message. */
  lemma ExhaustedMessage<T>(fn: nat -> Result<T, Fault>, maxRetries: int)
    requires maxRetries > 0
    requires forall j :: 0 <= j < maxRetries ==> fn(j).Failure?
    ensures RetryResult(fn, maxRetries)
            == Failure(ErrorObject("Failed after " + IntToString(maxRetries) + " attempts. Last error: "
                                   + FaultText(fn(maxRetries - 1).error)))
  {
    assert FirstSuccess(fn, maxRetries).None?;
  }

  /** The capped backoff never exceeds `maxDelay`, and never goes below 0 for non-negative options. */
  lemma BackoffBounds(c: Options, i: nat)
    requires c.baseDelay >= 0.0 && c.backoffMultiplier >= 0.0 && c.maxDelay >= 0.0
    ensures 0.0 <= Backoff(c, i) <= c.maxDelay
  {
    PowNonNegative(c.backoffMultiplier, i);
  }

  lemma {:induction false} PowNonNegative(b: real, e: nat)
    requires b >= 0.0
    ensures Pow(b, e) >= 0.0
  {
    if e > 0 {
      PowNonNegative(b, e - 1);
    }
  }

  lemma {:induction false} PowMonotone(b: real, e: nat)
    requires b >= 1.0
    ensures 1.0 <= Pow(b, e) <= Pow(b, e + 1)
  {
    if e > 0 {
      PowMonotone(b, e - 1);
    }
  }

  /** With a multiplier of at least 1 the waits never shrink from one retry to the next. */
  lemma BackoffMonotone(c: Options, i: nat)
    requires c.baseDelay >= 0.0 && c.backoffMultiplier >= 1.0
    ensures Backoff(c, i) <= Backoff(c, i + 1)
  {
    PowMonotone(c.backoffMultiplier, i);
    assert c.baseDelay * Pow(c.backoffMultiplier, i) <= c.baseDelay * Pow(c.backoffMultiplier, i + 1);
  }

  /** The defaults wait about 1 s, then 2 s, then 4 s, doubling up to the 30 s cap. */
  lemma DefaultBackoff()
    ensures Resolve(NoOptions) == DefaultOptions
    ensures Backoff(DefaultOptions, 0) == 1000.0
    ensures Backoff(DefaultOptions, 1) == 2000.0
    ensures Backoff(DefaultOptions, 2) == 4000.0
    ensures Backoff(DefaultOptions, 4) == 16000.0
    ensures Backoff(DefaultOptions, 5) == 30000.0
  {
    assert Pow(2.0, 5) == 32.0;
  }

  /**
   * The timeout applies to each attempt: an attempt that timed out is one
   * failed attempt, and a later attempt that settles in time still succeeds.
   */
  lemma TimeoutPerAttempt<T>(timed: nat -> Timed<T>, ms: int, maxRetries: int, v: T)
    requires maxRetries >= 2
    requires timed(0) == TimedOut && timed(1) == Settled(Success(v))
    ensures RetryResult(Guarded(timed, ms), maxRetries) == Success(v)
    ensures CallCount(Guarded(timed, ms), maxRetries) == 2
  {
    var g := Guarded(timed, ms);
    assert g(0).Failure? && g(1).Success?;
    assert FirstSuccess(g, 1).None?;
    assert FirstSuccess(g, 2) == Some(1);
    FirstSuccessStable(g, 2, maxRetries);
  }

  /** Once an attempt below `n` succeeds, looking further does not change the first success. */
  lemma {:induction false} FirstSuccessStable<T>(fn: nat -> Result<T, Fault>, n: nat, m: nat)
    requires n <= m && FirstSuccess(fn, n).Some?
    ensures FirstSuccess(fn, m) == FirstSuccess(fn, n)
    decreases m - n
  {
    if n < m {
      FirstSuccessStable(fn, n, m - 1);
    }
  }

  /** `withLinearRetry` rethrows the last error object itself, not a wrapper around it. */
  lemma LinearRethrowsLast<T>(fn: nat -> Result<T, Fault>, maxRetries: int)
    requires maxRetries > 0
    requires forall j :: 0 <= j < maxRetries ==> fn(j).Failure?
    ensures LinearResult(fn, maxRetries) == Failure(AsError(fn(maxRetries - 1).error))
    ensures LinearResult(fn, maxRetries).Failure?
    ensures LinearResult(fn, 0) == Failure(ErrorObject("Operation failed"))
  {
    assert FirstSuccess(fn, maxRetries).None?;
  }
}
