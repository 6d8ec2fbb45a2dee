/** The model-calling service: one admission gate per service instance, and
    one method per executive plus the final synthesis. Each method waits at
    the gate, calls the chat-completion endpoint (through the retry policy,
    except for the marketing call), records the reported usage in the
    ledger, and parses the reply as JSON.

    The endpoint and `JSON.parse` are oracles: `completions(k)` is what the
    `k`-th request of one call returns, and `parses(text)` says whether the
    text is valid JSON. The parsed value itself is represented by the text
    that parsed. */
module Service {
  import opened Basics
  import opened Retry
  import RateLimiter
  import CostEstimator
  import CostLedger

  /** The gate settings of the service constructor. */
  const GateConfig: RateLimiter.Config := RateLimiter.Config(60000.0, 3)

  /** Every model every method asks for. */
  const Model: string := "gpt-4"

  /** The service's model-calling methods. */
  datatype Call = CEO | CMO | CTO | CSO | CDO | CXO | CCO | Synthesis

  /** The `agent` label the method writes into the ledger. */
  function Agent(c: Call): string {
    match c
    case CEO => "CEO"
    case CMO => "CMO"
    case CTO => "CTO"
    case CSO => "CSO"
    case CDO => "CDO"
    case CXO => "CXO"
    case CCO => "CCO"
    case Synthesis => "CEO-Synthesis"
  }

  /** Every method but the marketing one goes through `retryWithBackoff`. */
  predicate Retried(c: Call) {
    c != CMO
  }

  /** Only these methods give their admission back, on success and on
      failure alike; the marketing, technology and synthesis methods never do. */
  predicate Releases(c: Call) {
    c == CEO || c == CSO || c == CDO || c == CXO || c == CCO
  }

  /** The methods that attach the usage object to their result. */
  predicate AttachesUsage(c: Call) {
    c != CMO && c != Synthesis
  }

  /** The message thrown when the reply has no content. */
  function EmptyMessage(c: Call): string {
    if c == Synthesis then "No response from OpenAI for synthesis" else "No response from OpenAI"
  }

  /** The message thrown when the reply is not valid JSON. */
  function ParseFailureMessage(c: Call): string {
    match c
    case Synthesis => "Failed to parse synthesis response"
    case _ => "Failed to parse " + Agent(c) + " response"
  }

  /** The usage block of a completion. */
  datatype Usage = Usage(promptTokens: nat, completionTokens: nat, totalTokens: nat)

  /** What one request to the endpoint does: it throws, or it completes
      with an optional usage block and optional message content. */
  datatype Completion = ApiThrew(error: Thrown) | Completed(usage: Option<Usage>, content: Option<string>)

  /** The `usage` object attached to a result; its token fields are
      undefined when the completion had no usage block. */
  datatype UsageReport = UsageReport(usage: Option<Usage>, estimatedCost: real)

  /** A parsed reply, with the usage object for the methods that attach one. */
  datatype Reply = Reply(json: string, usage: Option<UsageReport>)

  /** The estimated cost, zero without a usage block. */
  function Cost(u: Option<Usage>): (cost: real)
    ensures cost >= 0.0
    ensures u.None? ==> cost == 0.0
  {
    match u
    case None => 0.0
    case Some(x) => CostEstimator.EstimateCost(Model, x.promptTokens, x.completionTokens)
  }

  /** `responseText.slice(indexOf('{'), lastIndexOf('}') + 1)` when both
      braces occur; the text unchanged otherwise. A closing brace that only
      occurs before the first opening one leaves nothing. */
  function BraceSlice(text: string): string {
    var start := IndexOfChar(text, '{');
    var end := LastIndexOfChar(text, '}');
    if start != -1 && end != -1 then
      if start <= end then text[start..end + 1] else []
    else text
  }

  /** The text handed to `JSON.parse`: the technology parser cleans the
      reply first, the others parse it as it is. */
  function ParsedText(c: Call, content: string): string {
    if c == CTO then BraceSlice(content) else content
  }

  /** The ledger entries one request writes: one event when the completion
      carried a usage block, none otherwise. */
  function Recorded(c: Call, comp: Completion): (events: seq<CostLedger.UsageEvent>)
    ensures |events| <= 1
    ensures |events| == 1 <==> comp.Completed? && comp.usage.Some?
    ensures |events| == 1 ==>
      (events[0].agent == Agent(c) && events[0].model == Model
       && events[0].totalTokens == comp.usage.value.totalTokens
       && events[0].cost == Cost(comp.usage))
  {
    match comp
    case Completed(Some(u), _) =>
      [CostLedger.UsageEvent(u.promptTokens, u.completionTokens, u.totalTokens, Cost(Some(u)), Model, Agent(c))]
    case _ => []
  }

  /** What one invocation of the method's request closure does with one
      completion: the endpoint's error propagates; an empty reply and a
      reply that does not parse raise errors of their own, with neither a
      status nor a code. */
  function Invoke(c: Call, comp: Completion, parses: string -> bool): (a: Attempt<Reply>)
    ensures comp.ApiThrew? ==> a == Raised(comp.error)
    ensures a.Returned? ==>
      (comp.Completed? && comp.content.Some? && parses(a.value.json)
       && a.value.json == ParsedText(c, comp.content.value))
    ensures comp.Completed? && a.Raised? ==> a.error.status.None? && a.error.code.None?
  {
    match comp
    case ApiThrew(e) => Raised(e)
    case Completed(u, content) =>
      if content.None? || content.value == [] then Raised(NewError(EmptyMessage(c)))
      else
        var text := ParsedText(c, content.value);
        if parses(text) then
          Returned(Reply(text, if AttachesUsage(c) then Some(UsageReport(u, Cost(u))) else None))
        else Raised(NewError(ParseFailureMessage(c)))
  }

  /** The oracles of one call: the clock readings at which the gate's
      100 ms sleeps end, and the endpoint's behaviour per request. */
  datatype CallEnv = CallEnv(polls: seq<int>, completions: nat -> Completion)

  /** A call that never gets past the gate within the given clock readings
      is `Stalled`. Otherwise it finishes with the new gate, the ledger
      events it wrote (in order), its outcome and the retry delays slept. */
  datatype CallOutcome =
    | Stalled
    | Finished(gate: RateLimiter.Limiter, events: seq<CostLedger.UsageEvent>, result: Attempt<Reply>, delays: seq<real>)

  /** The ledger events of requests `0 .. n - 1`, in order. */
  function RecordedUpTo(c: Call, completions: nat -> Completion, n: nat): seq<CostLedger.UsageEvent> {
    if n == 0 then [] else RecordedUpTo(c, completions, n - 1) + Recorded(c, completions(n - 1))
  }

  /** The requests of one admitted call: through the retry policy, or a
      single attempt for the marketing method. Every request before the
      last failed transiently, and the last one decides the outcome. */
  function Run(c: Call, env: CallEnv, parses: string -> bool): (run: RunResult<Reply>)
    ensures !Retried(c) ==> run == RunResult(Invoke(c, env.completions(0), parses), [])
    ensures Retried(c) ==> |run.delays| <= 3
    ensures Retried(c) ==> forall k :: 0 <= k < |run.delays| ==> run.delays[k] == Delay(Configured, k)
    ensures forall k :: 0 <= k < |run.delays| ==>
      Invoke(c, env.completions(k), parses).Raised? && Transient(Invoke(c, env.completions(k), parses).error)
    ensures Retried(c) ==> run.outcome == Settle(Invoke(c, env.completions(|run.delays|), parses))
  {
    if Retried(c) then
      RetriedRun(c, env, parses);
      RetryWithBackoff(Configured, Attempts(c, env, parses), 0)
    else RunResult(Invoke(c, env.completions(0), parses), [])
  }

  /** The requests of one call, numbered from zero. */
  function Attempts(c: Call, env: CallEnv, parses: string -> bool): nat -> Attempt<Reply> {
    (k: nat) => Invoke(c, env.completions(k), parses)
  }

  /** The configured policy applied to a call's requests. */
  lemma RetriedRun(c: Call, env: CallEnv, parses: string -> bool)
    ensures var run := RetryWithBackoff(Configured, Attempts(c, env, parses), 0);
      |run.delays| <= 3
      && (forall k :: 0 <= k < |run.delays| ==> run.delays[k] == Delay(Configured, k))
      && (forall k :: 0 <= k < |run.delays| ==>
            Invoke(c, env.completions(k), parses).Raised? && Transient(Invoke(c, env.completions(k), parses).error))
      && run.outcome == Settle(Invoke(c, env.completions(|run.delays|), parses))
  {
    var op := Attempts(c, env, parses);
    var run := RetryWithBackoff(Configured, op, 0);
    forall k: nat | k <= |run.delays|
      ensures op(k) == Invoke(c, env.completions(k), parses)
    {
    }
  }

  /** One call of a get-response method, or of the final synthesis: it
      stalls exactly when the gate never admits it; once admitted it runs
      its requests and ends with their outcome and delays, having written
      at most one ledger event: the one of its final request, which is
      written before the content is checked, so a reply that is empty or
      does not parse is still charged. */
  function Perform(c: Call, gate: RateLimiter.Limiter, env: CallEnv, parses: string -> bool): (out: CallOutcome)
    ensures out.Stalled? <==> RateLimiter.WaitForToken(gate, env.polls).None?
    ensures out.Finished? ==> out.result == Run(c, env, parses).outcome && out.delays == Run(c, env, parses).delays
    ensures out.Finished? ==> out.events == Recorded(c, env.completions(|out.delays|)) && |out.events| <= 1
  {
    match RateLimiter.WaitForToken(gate, env.polls)
    case None => Stalled
    case Some(admitted) =>
      var run := Run(c, env, parses);
      TransientRequestsRecordNothing(c, env.completions, parses, |run.delays|);
      Finished(
        if Releases(c) then RateLimiter.Release(admitted) else admitted,
        RecordedUpTo(c, env.completions, |run.delays| + 1),
        run.outcome,
        run.delays)
  }

  /** A call leaves the in-flight count as it found it when the method
      releases, and one higher when it does not, whether it succeeded or
      failed. Tokens and configuration follow the wait alone. */
  lemma GateBalance(c: Call, gate: RateLimiter.Limiter, env: CallEnv, parses: string -> bool)
    requires Perform(c, gate, env, parses).Finished?
    ensures var g := Perform(c, gate, env, parses).gate;
      g.activeRequests == gate.activeRequests + (if Releases(c) then 0 else 1)
      && g.tokensPerMinute == gate.tokensPerMinute && g.maxParallelRequests == gate.maxParallelRequests
  {
  }

  /** A call on a gate whose in-flight count has reached the cap never
      finishes. */
  lemma SaturatedGateStalls(c: Call, gate: RateLimiter.Limiter, env: CallEnv, parses: string -> bool)
    requires gate.activeRequests >= gate.maxParallelRequests
    ensures Perform(c, gate, env, parses) == Stalled
  {
    RateLimiter.SaturatedGateNeverAdmits(gate, env.polls);
  }

  /** Requests that fail transiently never reach the ledger. */
  lemma {:induction false} TransientRequestsRecordNothing(c: Call, completions: nat -> Completion, parses: string -> bool, n: nat)
    requires forall k :: 0 <= k < n ==> Invoke(c, completions(k), parses).Raised? && Transient(Invoke(c, completions(k), parses).error)
    ensures RecordedUpTo(c, completions, n) == []
  {
    if n > 0 {
      TransientRequestsRecordNothing(c, completions, parses, n - 1);
      var comp := completions(n - 1);
      assert Invoke(c, comp, parses).Raised? && Transient(Invoke(c, comp, parses).error);
    }
  }

  /** A completion with a usage block but no content is charged and still
      fails with the empty-reply error. */
  lemma EmptyReplyIsCharged(c: Call, gate: RateLimiter.Limiter, env: CallEnv, parses: string -> bool, u: Usage)
    requires RateLimiter.Enabled(gate)
    requires env.completions(0) == Completed(Some(u), Some(""))
    ensures var out := Perform(c, gate, env, parses);
      out.Finished? && out.result == Raised(NewError(EmptyMessage(c))) && out.delays == []
      && |out.events| == 1 && out.events[0].cost == Cost(Some(u)) && out.events[0].agent == Agent(c)
  {
    assert Invoke(c, env.completions(0), parses) == Raised(NewError(EmptyMessage(c)));
    FatalFirstRequest(c, env, parses);
    assert RecordedUpTo(c, env.completions, 1) == Recorded(c, env.completions(0));
  }

  /** A first request that fails for good, neither transiently nor for
      quota, ends the call with that very error. */
  lemma FatalFirstRequest(c: Call, env: CallEnv, parses: string -> bool)
    requires Invoke(c, env.completions(0), parses).Raised?
    requires !Transient(Invoke(c, env.completions(0), parses).error)
    requires !QuotaExhausted(Invoke(c, env.completions(0), parses).error)
    ensures Run(c, env, parses) == RunResult(Invoke(c, env.completions(0), parses), [])
  {
  }

  /** The marketing call is attempted once: a rate-limit error reaches the
      caller unchanged, without a delay and without the quota translation. */
  lemma MarketingIsNotRetried(gate: RateLimiter.Limiter, env: CallEnv, parses: string -> bool)
    requires RateLimiter.Enabled(gate) && env.completions(0).ApiThrew?
    ensures Perform(CMO, gate, env, parses).result == Raised(env.completions(0).error)
    ensures Perform(CMO, gate, env, parses).delays == []
  {
  }

  /** A reply that parses is returned as parsed, with the usage object for
      the methods that attach one. */
  lemma SuccessfulReply(c: Call, gate: RateLimiter.Limiter, env: CallEnv, parses: string -> bool, u: Option<Usage>, content: string)
    requires RateLimiter.Enabled(gate)
    requires env.completions(0) == Completed(u, Some(content)) && content != []
    requires parses(ParsedText(c, content))
    ensures var out := Perform(c, gate, env, parses);
      out.Finished? && out.delays == []
      && out.result == Returned(Reply(ParsedText(c, content), if AttachesUsage(c) then Some(UsageReport(u, Cost(u))) else None))
  {
    var first := Invoke(c, env.completions(0), parses);
    assert first.Returned?;
    var run := Run(c, env, parses);
    assert run.delays == [];
  }

  /** The cleaned text is the stretch from the first `{` to the last `}`:
      it opens and closes with a brace and lies inside the reply. */
  lemma BraceSliceFrames(text: string)
    requires 0 <= IndexOfChar(text, '{') < LastIndexOfChar(text, '}')
    ensures var r := BraceSlice(text);
      |r| >= 2 && r[0] == '{' && r[|r| - 1] == '}'
      && r == text[IndexOfChar(text, '{')..LastIndexOfChar(text, '}') + 1]
  {
    var start, end := IndexOfChar(text, '{'), LastIndexOfChar(text, '}');
    assert start < end < |text| && text[start] == '{' && text[end] == '}';
    var r := text[start..end + 1];
    Framed(r, text, start, end);
    assert BraceSlice(text) == r;
  }

  lemma Framed(r: string, text: string, start: nat, end: nat)
    requires start < end < |text| && text[start] == '{' && text[end] == '}' && r == text[start..end + 1]
    ensures |r| >= 2 && r[0] == '{' && r[|r| - 1] == '}'
  {
    assert r[|r| - 1] == text[end];
  }

  /** Without both braces the reply is parsed as it is; when every closing
      brace comes before every opening one, nothing is left to parse. */
  lemma BraceSliceCases(text: string)
    ensures '{' !in text || '}' !in text ==> BraceSlice(text) == text
    ensures '{' in text && '}' in text
      && (forall i, j :: 0 <= i < |text| && 0 <= j < |text| && text[i] == '}' && text[j] == '{' ==> i < j)
      ==> BraceSlice(text) == []
  {
  }

  /** A reply that is already a bare object is parsed as it is. */
  lemma BraceSliceKeepsBareObject(text: string)
    requires |text| >= 2 && text[0] == '{' && text[|text| - 1] == '}'
    ensures BraceSlice(text) == text
  {
    assert text[0..|text|] == text;
  }

  /** Cleaning twice is cleaning once. */
  lemma BraceSliceIdempotent(text: string)
    ensures BraceSlice(BraceSlice(text)) == BraceSlice(text)
  {
    var start := IndexOfChar(text, '{');
    var end := LastIndexOfChar(text, '}');
    if start != -1 && end != -1 && start <= end {
      var r := text[start..end + 1];
      Framed(r, text, start, end);
      BraceSliceKeepsBareObject(r);
    } else if start != -1 && end != -1 {
      assert BraceSlice(text) == [];
    }
  }

  /** The synthesis is charged under its own label: a request whose CEO
      call and synthesis both report usage has two breakdown entries. */
  lemma SynthesisChargedApart(a: Completion, b: Completion)
    requires a.Completed? && a.usage.Some? && b.Completed? && b.usage.Some?
    ensures CostLedger.Summary(Recorded(CEO, a) + Recorded(Synthesis, b)).breakdown.Keys == {"CEO", "CEO-Synthesis"}
  {
    var s := Recorded(CEO, a) + Recorded(Synthesis, b);
    assert |s| == 2 && s[0].agent == "CEO" && s[1].agent == "CEO-Synthesis";
    assert s[..1][..0] == [];
    assert CostLedger.Agents(s[..1]) == {"CEO"};
    assert CostLedger.Agents(s) == {"CEO", "CEO-Synthesis"};
  }
}
