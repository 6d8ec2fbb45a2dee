/** The admission gate: a token bucket refilled continuously at
    `tokensPerMinute` tokens per minute (capped at `tokensPerMinute`), plus a
    cap on the number of requests in flight. The wall clock is a parameter:
    every operation that reads `Date.now()` takes the reading as `now`. */
module RateLimiter {
  import opened Basics

  datatype Config = Config(tokensPerMinute: real, maxParallelRequests: int)

  datatype Limiter = Limiter(
    tokens: real,
    lastRefill: int,
    activeRequests: int,
    tokensPerMinute: real,
    maxParallelRequests: int)

  /** The constructor: a full bucket and nothing in flight. */
  function New(config: Config, now: int): (l: Limiter)
    ensures l.tokens == config.tokensPerMinute
    ensures l.activeRequests == 0 && l.lastRefill == now
    ensures l.tokensPerMinute == config.tokensPerMinute
    ensures l.maxParallelRequests == config.maxParallelRequests
  {
    Limiter(config.tokensPerMinute, now, 0, config.tokensPerMinute, config.maxParallelRequests)
  }

  /** `refillTokens`: credits the tokens earned since the last refill, capped
      at the bucket size. */
  function Refill(l: Limiter, now: int): (r: Limiter)
    ensures r.tokens <= l.tokensPerMinute
    ensures r.lastRefill == now
    ensures r.activeRequests == l.activeRequests
    ensures r.tokensPerMinute == l.tokensPerMinute && r.maxParallelRequests == l.maxParallelRequests
    ensures now >= l.lastRefill && l.tokensPerMinute >= 0.0 && l.tokens <= l.tokensPerMinute ==> r.tokens >= l.tokens
  {
    var timePassed := (now - l.lastRefill) as real;
    var refillAmount := (timePassed / 60000.0) * l.tokensPerMinute;
    var sum := l.tokens + refillAmount;
    l.(tokens := if l.tokensPerMinute <= sum then l.tokensPerMinute else sum, lastRefill := now)
  }

  /** The condition the wait loop of `waitForToken` polls for. */
  predicate Enabled(l: Limiter) {
    l.tokens >= 1.0 && l.activeRequests < l.maxParallelRequests
  }

  /** The step `waitForToken` takes once the gate is open. */
  function Acquire(l: Limiter): (r: Limiter)
    requires Enabled(l)
    ensures r.tokens == l.tokens - 1.0 && r.tokens >= 0.0
    ensures r.activeRequests == l.activeRequests + 1 && r.activeRequests <= l.maxParallelRequests
    ensures r.lastRefill == l.lastRefill
    ensures r.tokensPerMinute == l.tokensPerMinute && r.maxParallelRequests == l.maxParallelRequests
  {
    l.(tokens := l.tokens - 1.0, activeRequests := l.activeRequests + 1)
  }

  /** `releaseToken`: there is no floor, so an unmatched release makes the
      in-flight count negative. */
  function Release(l: Limiter): (r: Limiter)
    ensures r.activeRequests == l.activeRequests - 1
    ensures r.tokens == l.tokens && r.lastRefill == l.lastRefill
    ensures r.tokensPerMinute == l.tokensPerMinute && r.maxParallelRequests == l.maxParallelRequests
  {
    l.(activeRequests := l.activeRequests - 1)
  }

  /** `waitForToken`: while the gate is closed, sleep and refill. `polls`
      holds the clock readings at which successive 100 ms sleeps end; the
      result is `None` when the loop is still waiting after all of them. */
  function WaitForToken(l: Limiter, polls: seq<int>): (r: Option<Limiter>)
    ensures Enabled(l) ==> r == Some(Acquire(l))
    ensures r.Some? ==> r.value.activeRequests == l.activeRequests + 1
    ensures r.Some? ==> r.value.tokensPerMinute == l.tokensPerMinute && r.value.maxParallelRequests == l.maxParallelRequests
    decreases |polls|
  {
    if Enabled(l) then Some(Acquire(l))
    else if |polls| == 0 then None
    else WaitForToken(Refill(l, polls[0]), polls[1..])
  }

  /** Refilling never frees a slot, so a gate whose in-flight count has
      reached the cap waits forever, however long the clock runs. */
  lemma {:induction false} SaturatedGateNeverAdmits(l: Limiter, polls: seq<int>)
    requires l.activeRequests >= l.maxParallelRequests
    ensures WaitForToken(l, polls) == None
    decreases |polls|
  {
    if |polls| > 0 {
      SaturatedGateNeverAdmits(Refill(l, polls[0]), polls[1..]);
    }
  }

  /** A successful wait consumed exactly one token from a bucket that held
      at least one. */
  lemma {:induction false} WaitConsumesOneToken(l: Limiter, polls: seq<int>)
    requires WaitForToken(l, polls).Some?
    ensures exists k :: 0 <= k <= |polls| && WaitStep(l, polls, k)
    decreases |polls|
  {
    if Enabled(l) {
      assert WaitStep(l, polls, 0);
    } else {
      var l1 := Refill(l, polls[0]);
      WaitConsumesOneToken(l1, polls[1..]);
      var k :| 0 <= k <= |polls[1..]| && WaitStep(l1, polls[1..], k);
      assert polls[..k + 1][1..] == polls[1..][..k];
      assert RefillAll(l, polls[..k + 1]) == RefillAll(l1, polls[1..][..k]);
      assert WaitStep(l, polls, k + 1);
    }
  }

  /** After `k` polls the gate opens, and the wait ends by taking one token. */
  ghost predicate WaitStep(l: Limiter, polls: seq<int>, k: nat)
    requires k <= |polls|
  {
    var ready := RefillAll(l, polls[..k]);
    Enabled(ready) && WaitForToken(l, polls) == Some(Acquire(ready))
  }

  /** The limiter after refilling at every reading of `polls` in turn. */
  function RefillAll(l: Limiter, polls: seq<int>): Limiter
    decreases |polls|
  {
    if |polls| == 0 then l else RefillAll(Refill(l, polls[0]), polls[1..])
  }

  /** One event at the gate. */
  datatype GateOp = Poll(now: int) | Take | Give

  /** The well-behaved use of the gate: a take only when the gate is open, a
      give only for an outstanding take, and a clock that does not run
      backwards. */
  predicate Legal(l: Limiter, op: GateOp) {
    match op
    case Poll(now) => now >= l.lastRefill
    case Take => Enabled(l)
    case Give => l.activeRequests > 0
  }

  function Apply(l: Limiter, op: GateOp): Limiter
    requires Legal(l, op)
  {
    match op
    case Poll(now) => Refill(l, now)
    case Take => Acquire(l)
    case Give => Release(l)
  }

  /** The gate's invariant: the in-flight count stays within the cap and the
      bucket holds between zero and `tokensPerMinute` tokens. */
  predicate Inv(l: Limiter) {
    0 <= l.activeRequests <= l.maxParallelRequests && 0.0 <= l.tokens <= l.tokensPerMinute
  }

  lemma NewSatisfiesInv(config: Config, now: int)
    requires config.tokensPerMinute >= 0.0 && config.maxParallelRequests >= 0
    ensures Inv(New(config, now))
  {
  }

  lemma StepPreservesInv(l: Limiter, op: GateOp)
    requires Inv(l) && Legal(l, op)
    ensures Inv(Apply(l, op))
    ensures Apply(l, op).tokensPerMinute == l.tokensPerMinute
    ensures Apply(l, op).maxParallelRequests == l.maxParallelRequests
  {
  }

  /** Runs a trace of gate events; `None` as soon as one is not legal. */
  function Run(l: Limiter, ops: seq<GateOp>): Option<Limiter>
    decreases |ops|
  {
    if |ops| == 0 then Some(l)
    else if !Legal(l, ops[0]) then None
    else Run(Apply(l, ops[0]), ops[1..])
  }

  /** With balanced acquire and release and a monotone clock, the invariant
      holds after every event, and the configuration never changes. */
  lemma {:induction false} RunPreservesInv(l: Limiter, ops: seq<GateOp>)
    requires Inv(l) && Run(l, ops).Some?
    ensures Inv(Run(l, ops).value)
    ensures Run(l, ops).value.tokensPerMinute == l.tokensPerMinute
    ensures Run(l, ops).value.maxParallelRequests == l.maxParallelRequests
    decreases |ops|
  {
    if |ops| > 0 {
      StepPreservesInv(l, ops[0]);
      RunPreservesInv(Apply(l, ops[0]), ops[1..]);
    }
  }

  /** An unmatched release drives the in-flight count below zero. */
  lemma UnmatchedReleaseGoesNegative(config: Config, now: int)
    ensures Release(New(config, now)).activeRequests == -1
  {
  }
}
