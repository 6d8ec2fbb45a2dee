/** The retry policy wrapped around an outbound model call: rate-limited or
    unavailable responses (HTTP 429 and 503) are retried with exponential
    backoff while retries remain; a quota failure becomes a fixed billing
    error; anything else is rethrown unchanged. The operation is an oracle:
    `op(k)` is what its `k`-th invocation does, counting from zero. */
module Retry {
  import opened Basics

  datatype RetryConfig = RetryConfig(maxRetries: int, delayMs: real, backoffFactor: real)

  /** The service's `retryConfig`. */
  const Configured: RetryConfig := RetryConfig(3, 1000.0, 2.0)

  const QuotaMessage: string := "OpenAI API quota exceeded. Please check your billing details."

  /** The error raised in place of a quota failure. */
  const QuotaError: Thrown := NewError(QuotaMessage)

  /** What one invocation of the operation does. */
  datatype Attempt<T> = Returned(value: T) | Raised(error: Thrown)

  function Pow(b: real, n: nat): real {
    if n == 0 then 1.0 else b * Pow(b, n - 1)
  }

  /** The sleep before the retry that follows invocation `n`. */
  function Delay(cfg: RetryConfig, n: nat): real {
    cfg.delayMs * Pow(cfg.backoffFactor, n)
  }

  /** The error carries status 429 or 503. */
  predicate Transient(e: Thrown) {
    e.status == Some(429) || e.status == Some(503)
  }

  /** The error carries code `insufficient_quota`. */
  predicate QuotaExhausted(e: Thrown) {
    e.code == Some("insufficient_quota")
  }

  datatype Decision = RetryAfter(delay: real) | Fail(error: Thrown)

  /** The catch block: the status test comes first, so a transient error
      with retries left is retried even when it also carries the quota code. */
  function Classify(cfg: RetryConfig, e: Thrown, retryCount: nat): (d: Decision)
    ensures d.RetryAfter? <==> Transient(e) && retryCount < cfg.maxRetries
    ensures d.RetryAfter? ==> d.delay == Delay(cfg, retryCount)
    ensures d.Fail? ==> d.error == (if QuotaExhausted(e) then QuotaError else e)
  {
    if Transient(e) && retryCount < cfg.maxRetries then
      RetryAfter(Delay(cfg, retryCount))
    else if QuotaExhausted(e) then
      Fail(QuotaError)
    else
      Fail(e)
  }

  /** The outcome of the call and the delays slept before the retries. */
  datatype RunResult<T> = RunResult(outcome: Attempt<T>, delays: seq<real>)

  /** What the policy makes of the final invocation's behaviour. */
  function Settle<T>(a: Attempt<T>): Attempt<T> {
    match a
    case Returned(v) => Returned(v)
    case Raised(e) => Raised(if QuotaExhausted(e) then QuotaError else e)
  }

  /** `retryWithBackoff(operation, retryCount)`. One delay precedes each
      retry, so the operation runs `|delays| + 1` times; every invocation but
      the last raised a transient error, and the last one decides the result. */
  function RetryWithBackoff<T>(cfg: RetryConfig, op: nat -> Attempt<T>, retryCount: nat): (r: RunResult<T>)
    ensures op(retryCount).Returned? ==> r == RunResult(op(retryCount), [])
    ensures retryCount + |r.delays| <= (if cfg.maxRetries < retryCount then retryCount else cfg.maxRetries)
    ensures forall k :: 0 <= k < |r.delays| ==> r.delays[k] == Delay(cfg, retryCount + k)
    ensures forall k :: retryCount <= k < retryCount + |r.delays| ==> op(k).Raised? && Transient(op(k).error)
    ensures r.outcome == Settle(op(retryCount + |r.delays|))
    ensures var last := op(retryCount + |r.delays|);
      last.Raised? ==> !(Transient(last.error) && retryCount + |r.delays| < cfg.maxRetries)
    decreases if retryCount <= cfg.maxRetries then cfg.maxRetries - retryCount else 0
  {
    match op(retryCount)
    case Returned(v) => RunResult(Returned(v), [])
    case Raised(e) =>
      match Classify(cfg, e, retryCount)
      case RetryAfter(delay) =>
        var rest := RetryWithBackoff(cfg, op, retryCount + 1);
        RunResult(rest.outcome, [delay] + rest.delays)
      case Fail(err) => RunResult(Raised(err), [])
  }

  lemma {:induction false} PowMonotone(b: real, m: nat, n: nat)
    requires b >= 1.0 && m <= n
    ensures 1.0 <= Pow(b, m) <= Pow(b, n)
    decreases n
  {
    if n > 0 {
      if m < n {
        PowMonotone(b, m, n - 1);
      } else {
        PowMonotone(b, 0, n - 1);
      }
    }
  }

  /** With a factor of at least one the backoff never shrinks. */
  lemma DelayMonotone(cfg: RetryConfig, m: nat, n: nat)
    requires cfg.backoffFactor >= 1.0 && cfg.delayMs >= 0.0 && m <= n
    ensures Delay(cfg, m) <= Delay(cfg, n)
  {
    PowMonotone(cfg.backoffFactor, m, n);
    assert cfg.delayMs * (Pow(cfg.backoffFactor, n) - Pow(cfg.backoffFactor, m)) >= 0.0;
  }

  /** The delays of one call never shrink from one retry to the next. */
  lemma DelaysNondecreasing<T>(cfg: RetryConfig, op: nat -> Attempt<T>, retryCount: nat, i: nat, j: nat)
    requires cfg.backoffFactor >= 1.0 && cfg.delayMs >= 0.0
    requires i <= j < |RetryWithBackoff(cfg, op, retryCount).delays|
    ensures RetryWithBackoff(cfg, op, retryCount).delays[i] <= RetryWithBackoff(cfg, op, retryCount).delays[j]
  {
    DelayMonotone(cfg, retryCount + i, retryCount + j);
  }

  /** With the configured policy, a call from a fresh counter runs at most
      four times and sleeps 1000, 2000 and 4000 ms, in that order. */
  lemma ConfiguredSchedule<T>(op: nat -> Attempt<T>)
    ensures |RetryWithBackoff(Configured, op, 0).delays| <= 3
    ensures RetryWithBackoff(Configured, op, 0).delays <= [1000.0, 2000.0, 4000.0]
  {
    var d := RetryWithBackoff(Configured, op, 0).delays;
    assert Pow(2.0, 0) == 1.0 && Pow(2.0, 1) == 2.0 && Pow(2.0, 2) == 4.0;
    assert forall k :: 0 <= k < |d| ==> d[k] == [1000.0, 2000.0, 4000.0][k];
  }

  /** A call that meets `n <= maxRetries` transient failures and then
      succeeds returns the success after exactly `n` delays. */
  lemma {:induction false} TransientThenSuccess<T>(cfg: RetryConfig, op: nat -> Attempt<T>, retryCount: nat, n: nat)
    requires retryCount + n <= cfg.maxRetries
    requires forall k :: retryCount <= k < retryCount + n ==> op(k).Raised? && Transient(op(k).error)
    requires op(retryCount + n).Returned?
    ensures RetryWithBackoff(cfg, op, retryCount).outcome == op(retryCount + n)
    ensures |RetryWithBackoff(cfg, op, retryCount).delays| == n
    decreases n
  {
    if n > 0 {
      TransientThenSuccess(cfg, op, retryCount + 1, n - 1);
    }
  }

  /** When every invocation fails transiently without the quota code, the
      last error comes back unchanged after `maxRetries` delays. */
  lemma {:induction false} ExhaustedRethrowsLast<T>(cfg: RetryConfig, op: nat -> Attempt<T>, retryCount: nat)
    requires retryCount <= cfg.maxRetries
    requires forall k :: retryCount <= k ==> op(k).Raised? && Transient(op(k).error) && !QuotaExhausted(op(k).error)
    ensures RetryWithBackoff(cfg, op, retryCount).outcome == op(cfg.maxRetries)
    ensures |RetryWithBackoff(cfg, op, retryCount).delays| == cfg.maxRetries - retryCount
    decreases cfg.maxRetries - retryCount
  {
    if retryCount < cfg.maxRetries {
      ExhaustedRethrowsLast(cfg, op, retryCount + 1);
    }
  }

  /** A quota failure that is not retried surfaces as the billing error
      without a single delay. */
  lemma QuotaIsFatal<T>(cfg: RetryConfig, op: nat -> Attempt<T>, retryCount: nat)
    requires op(retryCount).Raised? && QuotaExhausted(op(retryCount).error)
    requires !(Transient(op(retryCount).error) && retryCount < cfg.maxRetries)
    ensures RetryWithBackoff(cfg, op, retryCount) == RunResult(Raised(QuotaError), [])
  {
  }

  /** Any other failure is rethrown as it is, without a delay. */
  lemma OtherErrorsRethrown<T>(cfg: RetryConfig, op: nat -> Attempt<T>, retryCount: nat)
    requires op(retryCount).Raised? && !Transient(op(retryCount).error) && !QuotaExhausted(op(retryCount).error)
    ensures RetryWithBackoff(cfg, op, retryCount) == RunResult(op(retryCount), [])
  {
  }

  /** A 429 that also carries the quota code is retried first: if the retry
      succeeds, the caller never sees the quota error. */
  lemma RateLimitCheckedBeforeQuota<T>(op: nat -> Attempt<T>, v: T)
    requires op(0) == Raised(Thrown(false, "Too Many Requests", Some(429), Some("insufficient_quota")))
    requires op(1) == Returned(v)
    ensures RetryWithBackoff(Configured, op, 0) == RunResult(Returned(v), [1000.0])
  {
    assert Pow(2.0, 0) == 1.0;
  }
}
