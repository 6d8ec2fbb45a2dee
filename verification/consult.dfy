/** The consultation endpoint: a POST request runs the CEO call, then each
    executive the CEO names, one after the other, then the final synthesis,
    streaming a status or response event after every step. Each request
    builds its own service, and so its own rate-limit gate; the cost ledger
    is process-wide and is handed in and out. Prompts, the query and the
    company context only shape what the endpoint answers, which the model
    takes from the oracles in `Env`. */
module Consult {
  import opened Basics
  import opened Executives
  import opened Retry
  import RateLimiter
  import CostLedger
  import Service

  /** One entry of the status map. `error == false` stands for the absent
      flag; the ISO timestamps are left out. */
  datatype ExecStatus = ExecStatus(title: string, isActive: bool, hasResponded: bool, error: bool, errorMessage: Option<string>)

  /** The status map: its entries in key insertion order. A plain object
      lists its string keys in that order only when none is an array index
      (those come first, ascending); the titles modelled here are such keys
      (see `ConsultValue`). */
  type Statuses = seq<ExecStatus>

  function Keys(m: Statuses): (ks: seq<string>)
    ensures |ks| == |m| && forall i :: 0 <= i < |m| ==> ks[i] == m[i].title
  {
    if |m| == 0 then [] else Keys(m[..|m| - 1]) + [m[|m| - 1].title]
  }

  predicate UniqueKeys(m: Statuses) {
    forall i, j :: 0 <= i < j < |m| ==> m[i].title != m[j].title
  }

  /** `executiveStatuses[s.title] = s`: an existing key keeps its place, a
      new one goes last. */
  function Put(m: Statuses, s: ExecStatus): (r: Statuses)
    ensures s.title in Keys(m) ==> |r| == |m| && forall i :: 0 <= i < |m| ==> r[i] == (if m[i].title == s.title then s else m[i])
    ensures s.title !in Keys(m) ==> r == m + [s]
    ensures UniqueKeys(m) ==> UniqueKeys(r)
    ensures s.title in Keys(r)
  {
    if s.title in Keys(m) then
      seq(|m|, i requires 0 <= i < |m| => if m[i].title == s.title then s else m[i])
    else m + [s]
  }

  /** Rewrites the entry stored under `title` and leaves every other entry
      and the key order alone. */
  function Modify(m: Statuses, title: string, f: ExecStatus -> ExecStatus): (r: Statuses)
    requires forall s :: f(s).title == s.title
    ensures |r| == |m| && Keys(r) == Keys(m)
    ensures forall i :: 0 <= i < |m| ==> r[i] == (if m[i].title == title then f(m[i]) else m[i])
  {
    seq(|m|, i requires 0 <= i < |m| => if m[i].title == title then f(m[i]) else m[i])
  }

  /** The loop's opening step: exactly the executive about to be called is
      active, the CEO included among the others. */
  function Activate(m: Statuses, title: string): (r: Statuses)
    ensures |r| == |m| && Keys(r) == Keys(m)
    ensures forall i :: 0 <= i < |m| ==>
      (r[i].isActive <==> m[i].title == title)
      && r[i].hasResponded == m[i].hasResponded && r[i].error == m[i].error && r[i].errorMessage == m[i].errorMessage
  {
    seq(|m|, i requires 0 <= i < |m| => m[i].(isActive := m[i].title == title))
  }

  /** After a reply: the executive has responded and is no longer active. */
  function MarkResponded(m: Statuses, title: string): (r: Statuses)
    ensures |r| == |m| && Keys(r) == Keys(m)
    ensures forall i :: 0 <= i < |m| && m[i].title == title ==>
      r[i].hasResponded && !r[i].isActive && r[i].error == m[i].error && r[i].errorMessage == m[i].errorMessage
    ensures forall i :: 0 <= i < |m| && m[i].title != title ==> r[i] == m[i]
  {
    Modify(m, title, (s: ExecStatus) => s.(hasResponded := true, isActive := false))
  }

  /** `handleExecutiveError`: the executive is marked failed, inactive and
      not responded, with the given message. */
  function MarkFailed(m: Statuses, title: string, message: string): (r: Statuses)
    ensures |r| == |m| && Keys(r) == Keys(m)
    ensures forall i :: 0 <= i < |m| && m[i].title == title ==>
      r[i] == ExecStatus(title, false, false, true, Some(message))
    ensures forall i :: 0 <= i < |m| && m[i].title != title ==> r[i] == m[i]
  {
    Modify(m, title, (s: ExecStatus) => s.(error := true, errorMessage := Some(message), isActive := false, hasResponded := false))
  }

  /** Sets the `isActive` flag of one entry. */
  function SetActive(m: Statuses, title: string, active: bool): (r: Statuses)
    ensures |r| == |m| && Keys(r) == Keys(m)
    ensures forall i :: 0 <= i < |m| && m[i].title == title ==> r[i] == m[i].(isActive := active)
    ensures forall i :: 0 <= i < |m| && m[i].title != title ==> r[i] == m[i]
  {
    Modify(m, title, (s: ExecStatus) => s.(isActive := active))
  }

  /** A added entry: inactive, not responded, no error. */
  function Pending(title: string): ExecStatus {
    ExecStatus(title, false, false, false, None)
  }

  /** The titles of `titles` that are not among `keys`, each once, in the
      order of their first occurrence. */
  function NewTitles(keys: seq<string>, titles: seq<string>): seq<string>
    decreases |titles|
  {
    if |titles| == 0 then []
    else if titles[0] in keys then NewTitles(keys, titles[1..])
    else [titles[0]] + NewTitles(keys + [titles[0]], titles[1..])
  }

  /** The new titles are the listed titles that are not keys. */
  lemma {:induction false} NewTitlesMembers(keys: seq<string>, titles: seq<string>)
    ensures forall t :: t in NewTitles(keys, titles) <==> t in titles && t !in keys
    decreases |titles|
  {
    if |titles| > 0 {
      assert forall t :: t in titles <==> t == titles[0] || t in titles[1..];
      if titles[0] in keys {
        NewTitlesMembers(keys, titles[1..]);
      } else {
        NewTitlesMembers(keys + [titles[0]], titles[1..]);
      }
    }
  }

  /** The keys of a map after `Put`: the same, or the new key last. */
  lemma PutKeys(m: Statuses, s: ExecStatus)
    ensures Keys(Put(m, s)) == Keys(m) + (if s.title in Keys(m) then [] else [s.title])
  {
  }

  /** The `forEach` that enters every executive to consult as pending, in
      list order: each listed title's entry becomes a fresh pending one,
      overwriting in place an entry the key already had (the CEO's own
      included); the new titles follow the old keys in the order they are
      first listed; every other entry is left alone. */
  function AddPending(m: Statuses, titles: seq<string>): (r: Statuses)
    ensures Keys(r) == Keys(m) + NewTitles(Keys(m), titles)
    ensures UniqueKeys(m) ==> UniqueKeys(r)
    ensures forall i :: 0 <= i < |r| && r[i].title in titles ==> r[i] == Pending(r[i].title)
    ensures forall i :: 0 <= i < |m| && m[i].title !in titles ==> r[i] == m[i]
    ensures forall t :: t in titles ==> t in Keys(r)
    ensures forall t :: t in Keys(m) ==> t in Keys(r)
    decreases |titles|
  {
    if |titles| == 0 then m
    else
      var m' := Put(m, Pending(titles[0]));
      var r := AddPending(m', titles[1..]);
      PutKeys(m, Pending(titles[0]));
      forall j | 0 <= j < |m'| && m'[j].title == titles[0]
        ensures m'[j] == Pending(titles[0])
      {
        PutEntries(m, Pending(titles[0]), j);
      }
      AddPendingKeys(Keys(m), titles, Keys(m'), Keys(r));
      NewTitlesMembers(Keys(m), titles);
      forall i | 0 <= i < |r| && r[i].title in titles
        ensures r[i] == Pending(r[i].title)
      {
        AddPendingListed(titles, m', r, i);
      }
      forall i | 0 <= i < |m| && m[i].title !in titles
        ensures r[i] == m[i]
      {
        AddPendingUnlisted(m, titles, m', r, i);
      }
      r
  }

  /** After `Put`, every entry under the key put is the entry put. */
  lemma PutEntries(m: Statuses, s: ExecStatus, i: int)
    requires 0 <= i < |Put(m, s)| && Put(m, s)[i].title == s.title
    ensures Put(m, s)[i] == s
  {
  }

  /** A key already among `keys` sits within them, not among the new
      titles that follow. */
  lemma OldKeyIndex(keys: seq<string>, titles: seq<string>, i: int)
    requires 0 <= i < |keys + NewTitles(keys, titles)| && (keys + NewTitles(keys, titles))[i] in keys
    ensures i < |keys|
  {
    if i >= |keys| {
      NewTitlesMembers(keys, titles);
    }
  }

  /** A listed title's entry is a pending one after one unrolling of
      `AddPending`. */
  lemma AddPendingListed(titles: seq<string>, m': Statuses, r: Statuses, i: int)
    requires |titles| > 0 && titles[0] in Keys(m')
    requires forall j :: 0 <= j < |m'| && m'[j].title == titles[0] ==> m'[j] == Pending(titles[0])
    requires Keys(r) == Keys(m') + NewTitles(Keys(m'), titles[1..])
    requires forall i :: 0 <= i < |r| && r[i].title in titles[1..] ==> r[i] == Pending(r[i].title)
    requires forall i :: 0 <= i < |m'| && m'[i].title !in titles[1..] ==> r[i] == m'[i]
    requires 0 <= i < |r| && r[i].title in titles
    ensures r[i] == Pending(r[i].title)
  {
    var t := r[i].title;
    if t !in titles[1..] {
      var k :| 0 <= k < |titles| && titles[k] == t;
      if k > 0 {
        assert titles[1..][k - 1] == t;
      }
      assert Keys(r)[i] == t;
      OldKeyIndex(Keys(m'), titles[1..], i);
      assert r[i] == m'[i];
    }
  }

  /** An unlisted entry of the old map is left alone by one unrolling of
      `AddPending`. */
  lemma AddPendingUnlisted(m: Statuses, titles: seq<string>, m': Statuses, r: Statuses, i: int)
    requires |titles| > 0 && m' == Put(m, Pending(titles[0]))
    requires |m'| <= |r|
    requires forall i :: 0 <= i < |m'| && m'[i].title !in titles[1..] ==> r[i] == m'[i]
    requires 0 <= i < |m| && m[i].title !in titles
    ensures r[i] == m[i]
  {
    assert m[i].title != titles[0] && m[i].title !in titles[1..] by {
      assert titles == [titles[0]] + titles[1..];
    }
    assert m'[i] == m[i];
  }

  /** The keys after one unrolling of `AddPending`, where `ks` are the
      keys before it, `ks'` after the first `Put` and `kr` at the end. */
  lemma AddPendingKeys(ks: seq<string>, titles: seq<string>, ks': seq<string>, kr: seq<string>)
    requires |titles| > 0
    requires ks' == ks + (if titles[0] in ks then [] else [titles[0]])
    requires kr == ks' + NewTitles(ks', titles[1..])
    ensures kr == ks + NewTitles(ks, titles)
  {
    var t0, rest := titles[0], titles[1..];
    if t0 in ks {
      assert ks' == ks;
      assert NewTitles(ks, titles) == NewTitles(ks, rest);
    } else {
      var tail := NewTitles(ks + [t0], rest);
      assert NewTitles(ks, titles) == [t0] + tail;
      assert kr == (ks + [t0]) + tail;
      assert (ks + [t0]) + tail == ks + ([t0] + tail);
    }
  }

  /** The map of the first event: the CEO alone, active. */
  const InitialStatuses: Statuses := [ExecStatus(CeoTitle, true, false, false, None)]

  /** A consultation kept for the synthesis. */
  datatype Consultation = Consultation(title: string, response: Service.Reply)

  /** The `data:` payloads of the stream. */
  datatype Event =
    | StatusEvent(statuses: Statuses)
    | ResponseEvent(executive: string, response: Service.Reply, statuses: Statuses)
    | FinalEvent(ceoResponse: Service.Reply, consultations: seq<Consultation>, statuses: Statuses,
        synthesis: Service.Reply, costReport: CostLedger.Report)
    | ErrorEvent(message: string)

  /** What `getExecutiveResponse` does with a title: call one of the
      service's methods, call a method the service does not define (which
      throws a `TypeError`), or return null. */
  datatype Dispatch = Calls(call: Service.Call) | Undefined(methodName: string) | NoImplementation

  function DispatchOf(title: string): Dispatch {
    if title == Title(ChiefMarketing) then Calls(Service.CMO)
    else if title == Title(ChiefTechnology) then Calls(Service.CTO)
    else if title == Title(ChiefFinancial) then Undefined("getCFOResponse")
    else if title == Title(ChiefOperations) then Undefined("getCOOResponse")
    else if title == Title(ChiefDevelopment) then Calls(Service.CDO)
    else if title == Title(ChiefExpansion) then Calls(Service.CXO)
    else if title == Title(ChiefSales) then Calls(Service.CSO)
    else if title == Title(ChiefCompliance) then Calls(Service.CCO)
    else NoImplementation
  }

  /** The `TypeError` the runtime throws for a call of an undefined method. */
  function NotAFunction(methodName: string): (e: Thrown)
    ensures e.isTypeError && Contains(e.message, "is not a function")
  {
    var msg := "openAIService." + methodName + " is not a function";
    assert MatchAt(msg, "is not a function", |"openAIService." + methodName + " "|);
    Thrown(true, msg, None, None)
  }

  const MissingImplementationMessage: string := "Implementation not available"

  /** The message `handleExecutiveError` records. */
  function FailureMessage(e: Thrown): string {
    if e.isTypeError && Contains(e.message, "is not a function") then MissingImplementationMessage else e.message
  }

  const InternalErrorMessage: string := "Internal server error"

  /** The message of the `error` event: `error.message || 'Internal server error'`. */
  function ErrorMessage(e: Thrown): (msg: string)
    ensures e.message != [] ==> msg == e.message
    ensures e.message == [] ==> msg == InternalErrorMessage
  {
    if e.message != [] then e.message else InternalErrorMessage
  }

  /** The oracles of one request.
      - `now`: the clock when the service (and its gate) is built;
      - `calls(k)`: the gate's clock readings and the endpoint's behaviour
        for the `k`-th service call slot: 0 is the CEO, `i + 1` the `i`-th
        executive to consult, `n + 1` the synthesis after `n` executives;
      - `parses`: whether `JSON.parse` accepts a text;
      - `falsy`: whether a text parses to a falsy value (`null`, `false`,
        `0`, `""`), which matters only for the marketing reply, the one
        reply the service returns without wrapping it in an object;
      - `executivesToConsult`: what the CEO reply holds under that name;
      - `setup`: what the handler's first statements throw, if anything:
        destructuring a missing request body, or building the service,
        whose client library refuses a missing API key. */
  datatype Env = Env(
    now: int,
    calls: nat -> Service.CallEnv,
    parses: string -> bool,
    falsy: string -> bool,
    executivesToConsult: ConsultValue,
    setup: Option<Thrown>)

  /** `ceoResponse.executivesToConsult`: absent or falsy (read as the empty
      list), a list of titles, or a truthy value that is not an array, on
      which `forEach` is undefined. The titles are strings that are neither
      array indices such as "1" nor `__proto__`, so that each becomes an own
      key of the status map in the order it is first set. */
  datatype ConsultValue = Falsy | Titles(titles: seq<string>) | NotAList

  /** The `TypeError` the runtime throws for `executivesToConsult.forEach`
      on a value that is not an array. */
  const ForEachError: Thrown := Thrown(true, "executivesToConsult.forEach is not a function", None, None)

  /** Whether `if (execResponse)` takes its branch. */
  predicate Truthy(env: Env, reply: Service.Reply) {
    reply.usage.Some? || !env.falsy(reply.json)
  }

  /** The handler's state between steps. */
  datatype State = State(
    gate: RateLimiter.Limiter,
    ledger: seq<CostLedger.UsageEvent>,
    statuses: Statuses,
    events: seq<Event>,
    results: seq<Consultation>)

  /** A step either returns, or waits forever at a saturated gate. */
  datatype Progress = Going(st: State) | Stuck(st: State)

  predicate Progressive(e: Event) {
    e.StatusEvent? || e.ResponseEvent?
  }

  predicate AllProgressive(es: seq<Event>) {
    forall i :: 0 <= i < |es| ==> Progressive(es[i])
  }

  /** `later` is `earlier` followed by more of the handler's work on the
      executive `title`: the ledger and the event stream only grow, and
      only with status and response events; the map keeps its keys; at most
      one consultation, of that executive, is added. */
  predicate StepsFrom(earlier: State, later: State, title: string) {
    earlier.ledger <= later.ledger
    && earlier.events <= later.events && AllProgressive(later.events[|earlier.events|..])
    && Keys(later.statuses) == Keys(earlier.statuses)
    && (later.results == earlier.results
        || (|later.results| == |earlier.results| + 1 && earlier.results <= later.results
            && later.results[|earlier.results|].title == title))
  }

  /** The `catch` of the loop body: mark the executive failed and emit the
      map. */
  function Fail(st: State, title: string, e: Thrown): (r: State)
    ensures r.statuses == MarkFailed(st.statuses, title, FailureMessage(e))
    ensures r.events == st.events + [StatusEvent(r.statuses)]
    ensures r.gate == st.gate && r.ledger == st.ledger && r.results == st.results
    ensures StepsFrom(st, r, title)
  {
    var statuses := MarkFailed(st.statuses, title, FailureMessage(e));
    var r := st.(statuses := statuses, events := st.events + [StatusEvent(statuses)]);
    assert r.events[|st.events|..] == [StatusEvent(statuses)];
    r
  }

  /** A truthy reply: keep it, mark the executive responded, emit it. */
  function Succeed(st: State, title: string, reply: Service.Reply): (r: State)
    ensures r.statuses == MarkResponded(st.statuses, title)
    ensures r.events == st.events + [ResponseEvent(title, reply, r.statuses)]
    ensures r.results == st.results + [Consultation(title, reply)]
    ensures r.gate == st.gate && r.ledger == st.ledger
    ensures StepsFrom(st, r, title)
  {
    var statuses := MarkResponded(st.statuses, title);
    var r := st.(statuses := statuses, results := st.results + [Consultation(title, reply)],
      events := st.events + [ResponseEvent(title, reply, statuses)]);
    assert r.events[|st.events|..] == [ResponseEvent(title, reply, statuses)];
    r
  }

  /** The rest of the loop body once the service call has come back. */
  function AfterCall(env: Env, st: State, title: string, out: Service.CallOutcome): (p: Progress)
    ensures out.Stalled? <==> p.Stuck?
    ensures out.Stalled? ==> p.st == st
    ensures out.Finished? ==> p.st.gate == out.gate && p.st.ledger == st.ledger + out.events
    ensures out.Finished? && out.result.Raised? ==> p.st == Fail(st.(gate := out.gate, ledger := st.ledger + out.events), title, out.result.error)
    ensures out.Finished? && out.result.Returned? && Truthy(env, out.result.value) ==>
      p.st == Succeed(st.(gate := out.gate, ledger := st.ledger + out.events), title, out.result.value)
    ensures out.Finished? && out.result.Returned? && !Truthy(env, out.result.value) ==>
      p.st == st.(gate := out.gate, ledger := st.ledger + out.events)
    ensures StepsFrom(st, p.st, title)
  {
    match out
    case Stalled => Stuck(st)
    case Finished(gate, charged, result, _) =>
      var st' := st.(gate := gate, ledger := st.ledger + charged);
      assert StepsFrom(st, st', title) by {
        assert st'.events[|st.events|..] == [];
      }
      match result
      case Raised(e) => Going(Fail(st', title, e))
      case Returned(reply) => if Truthy(env, reply) then Going(Succeed(st', title, reply)) else Going(st')
  }

  /** Steps compose. */
  lemma StepsFromTrans(a: State, b: State, c: State, title: string)
    requires StepsFrom(a, b, title) && b.results == a.results && StepsFrom(b, c, title)
    ensures StepsFrom(a, c, title)
  {
    assert AllProgressive(c.events[|a.events|..]) by {
      forall j | |a.events| <= j < |c.events|
        ensures Progressive(c.events[j])
      {
        if j < |b.events| {
          assert c.events[j] == b.events[j] == b.events[|a.events|..][j - |a.events|];
        } else {
          assert c.events[j] == c.events[|b.events|..][j - |b.events|];
        }
      }
    }
  }

  /** One iteration of the loop over the executives to consult; `k` is the
      call slot of this executive. A stuck iteration is a call that never
      got past the gate; every other one carries on with the loop. */
  function ConsultOne(env: Env, k: nat, title: string, st: State): (p: Progress)
    ensures |p.st.events| > |st.events| && p.st.events[|st.events|] == StatusEvent(Activate(st.statuses, title))
    ensures p.Stuck? ==> DispatchOf(title).Calls? && p.st.results == st.results
    ensures StepsFrom(st, p.st, title)
  {
    var ongoing := Activate(st.statuses, title);
    var st' := st.(statuses := ongoing, events := st.events + [StatusEvent(ongoing)]);
    assert StepsFrom(st, st', title) by {
      assert st'.events[|st.events|..] == [StatusEvent(ongoing)];
    }
    var p := match DispatchOf(title)
      case NoImplementation => Going(st')
      case Undefined(name) => Going(Fail(st', title, NotAFunction(name)))
      case Calls(c) => AfterCall(env, st', title, Service.Perform(c, st'.gate, env.calls(k), env.parses));
    StepsFromTrans(st, st', p.st, title);
    assert p.st.events[|st.events|] == st'.events[|st.events|];
    p
  }

  /** `titles` is `list` with some elements dropped, order kept. */
  predicate Subsequence(titles: seq<string>, list: seq<string>)
    decreases |list|
  {
    if |titles| == 0 then true
    else if |list| == 0 then false
    else (titles[0] == list[0] && Subsequence(titles[1..], list[1..])) || Subsequence(titles, list[1..])
  }

  function TitlesOf(rs: seq<Consultation>): (ts: seq<string>)
    ensures |ts| == |rs| && forall i :: 0 <= i < |rs| ==> ts[i] == rs[i].title
  {
    if |rs| == 0 then [] else [rs[0].title] + TitlesOf(rs[1..])
  }

  /** What the loop from the `i`-th executive on keeps of the state it
      starts from. */
  predicate LoopFrom(earlier: State, later: State, list: seq<string>, i: nat)
    requires i <= |list|
  {
    earlier.ledger <= later.ledger
    && earlier.events <= later.events && AllProgressive(later.events[|earlier.events|..])
    && Keys(later.statuses) == Keys(earlier.statuses)
    && earlier.results <= later.results
    && Subsequence(TitlesOf(later.results[|earlier.results|..]), list[i..])
  }

  /** The loop from the `i`-th executive on. */
  function ConsultFrom(env: Env, list: seq<string>, i: nat, st: State): (p: Progress)
    requires i <= |list|
    ensures LoopFrom(st, p.st, list, i)
    decreases |list| - i
  {
    if i == |list| then
      assert st.events[|st.events|..] == [] && st.results[|st.results|..] == [];
      Going(st)
    else
      var one := ConsultOne(env, i + 1, list[i], st);
      var p := if one.Stuck? then one else ConsultFrom(env, list, i + 1, one.st);
      ConsultFromStep(list, i, st, one.st, p.st, one.Stuck?);
      p
  }

  /** The bookkeeping of one unrolling of `ConsultFrom`. */
  lemma ConsultFromStep(list: seq<string>, i: nat, st: State, mid: State, last: State, stuck: bool)
    requires i < |list| && StepsFrom(st, mid, list[i])
    requires stuck ==> last == mid && mid.results == st.results
    requires !stuck ==> LoopFrom(mid, last, list, i + 1)
    ensures LoopFrom(st, last, list, i)
  {
    var n := |st.results|;
    var added := TitlesOf(last.results[n..]);
    assert list[i..][1..] == list[i + 1..];
    if stuck {
      assert last.results[n..] == [];
      assert AllProgressive(last.events[|st.events|..]);
    } else {
      var m := |mid.results|;
      var later := TitlesOf(last.results[m..]);
      assert AllProgressive(last.events[|st.events|..]) by {
        forall j | |st.events| <= j < |last.events|
          ensures Progressive(last.events[j])
        {
          if j < |mid.events| {
            assert last.events[j] == mid.events[j] == mid.events[|st.events|..][j - |st.events|];
          } else {
            assert last.events[j] == last.events[|mid.events|..][j - |mid.events|];
          }
        }
      }
      if m == n {
        assert last.results[n..] == last.results[m..];
        SubsequenceSkip(added, list[i], list[i + 1..]);
        assert [list[i]] + list[i + 1..] == list[i..];
      } else {
        assert last.results[n] == mid.results[n];
        assert last.results[n..] == [last.results[n]] + last.results[m..];
        assert added == [list[i]] + later;
        assert added[1..] == later;
      }
    }
  }

  lemma SubsequenceSkip(titles: seq<string>, head: string, tail: seq<string>)
    requires Subsequence(titles, tail)
    ensures Subsequence(titles, [head] + tail)
  {
    assert ([head] + tail)[1..] == tail;
  }

  /** The outcome of a request. */
  datatype Outcome =
    | MethodNotAllowed
    | Streamed(events: seq<Event>, ledger: seq<CostLedger.UsageEvent>)
    | Hung(events: seq<Event>, ledger: seq<CostLedger.UsageEvent>)

  /** After the loop the CEO becomes active again and a status event is
      sent before the synthesis. */
  function Reopen(st: State): (r: State)
    ensures r.events == st.events + [StatusEvent(SetActive(st.statuses, CeoTitle, true))]
    ensures r.statuses == SetActive(st.statuses, CeoTitle, true)
    ensures r.gate == st.gate && r.ledger == st.ledger && r.results == st.results
    ensures AllProgressive(st.events) ==> AllProgressive(r.events)
  {
    var ongoing := SetActive(st.statuses, CeoTitle, true);
    var r := st.(statuses := ongoing, events := st.events + [StatusEvent(ongoing)]);
    assert r.events[|st.events|] == StatusEvent(ongoing);
    r
  }

  /** The end of the request once the synthesis call has come back: an
      `error` event, or the CEO's deactivation, the ledger's drain and the
      `final` event. */
  function Close(ceo: Service.Reply, st: State, out: Service.CallOutcome): (o: Outcome)
    ensures !o.MethodNotAllowed?
    ensures o.Hung? <==> out.Stalled?
    ensures |o.events| == |st.events| + (if o.Streamed? then 1 else 0)
    ensures st.events <= o.events
    ensures o.Hung? ==> o.ledger == st.ledger
    ensures o.Streamed? ==> o.events[|o.events| - 1].FinalEvent? || o.events[|o.events| - 1].ErrorEvent?
    ensures o.Streamed? && o.events[|o.events| - 1].ErrorEvent? ==>
      out.Finished? && out.result.Raised? && o.ledger == st.ledger + out.events
      && o.events[|o.events| - 1] == ErrorEvent(ErrorMessage(out.result.error))
    ensures o.Streamed? && o.events[|o.events| - 1].FinalEvent? ==>
      var final := o.events[|o.events| - 1];
      o.ledger == [] && final.consultations == st.results && final.ceoResponse == ceo
      && final.statuses == SetActive(st.statuses, CeoTitle, false)
      && out.Finished? && out.result.Returned? && final.synthesis == out.result.value
      && final.costReport == CostLedger.Summary(st.ledger + out.events)
  {
    match out
    case Stalled => Hung(st.events, st.ledger)
    case Finished(_, charged, result, _) =>
      var ledger := st.ledger + charged;
      match result
      case Raised(e) => Streamed(st.events + [ErrorEvent(ErrorMessage(e))], ledger)
      case Returned(synthesis) =>
        var report := CostLedger.Fold(ledger);
        CostLedger.FoldIsSummary(ledger);
        Streamed(st.events + [FinalEvent(ceo, st.results, SetActive(st.statuses, CeoTitle, false), synthesis, report)], [])
  }

  /** After the loop: the CEO becomes active again and a status event says
      so; then the synthesis runs in call slot `slot`. It hangs exactly when
      that call stalls, with nothing more written; an `error` keeps the
      call's charges in the ledger; a `final` event carries the kept
      consultations, the CEO's answer, the map with the CEO inactive again,
      the synthesis and the report of the whole ledger, which it drains. */
  function Synthesize(env: Env, ceo: Service.Reply, slot: nat, st: State): (o: Outcome)
    ensures !o.MethodNotAllowed?
    ensures st.events <= o.events && |o.events| > |st.events|
    ensures o.events[|st.events|] == StatusEvent(SetActive(st.statuses, CeoTitle, true))
    ensures var out := Service.Perform(Service.Synthesis, st.gate, env.calls(slot), env.parses);
      (o.Hung? <==> out.Stalled?)
      && (o.Hung? ==> o.ledger == st.ledger && |o.events| == |st.events| + 1)
      && (o.Streamed? ==> |o.events| == |st.events| + 2)
      && (o.Streamed? && o.events[|o.events| - 1].ErrorEvent? ==>
            out.Finished? && out.result.Raised? && o.ledger == st.ledger + out.events
            && o.events[|o.events| - 1] == ErrorEvent(ErrorMessage(out.result.error)))
      && (o.Streamed? && o.events[|o.events| - 1].FinalEvent? ==>
            out.Finished? && out.result.Returned?
            && o.ledger == []
            && o.events[|o.events| - 1] == FinalEvent(ceo, st.results, SetActive(SetActive(st.statuses, CeoTitle, true), CeoTitle, false),
                 out.result.value, CostLedger.Summary(st.ledger + out.events)))
  {
    var st' := Reopen(st);
    var o := Close(ceo, st', Service.Perform(Service.Synthesis, st'.gate, env.calls(slot), env.parses));
    assert o.events[|st.events|] == st'.events[|st.events|];
    o
  }

  /** The map once the CEO has answered: the CEO alone, responded. */
  const AnsweredStatuses: Statuses := MarkResponded(InitialStatuses, CeoTitle)

  /** `ceoResponse.executivesToConsult || []` where `forEach` can run. */
  function ConsultList(env: Env): seq<string> {
    if env.executivesToConsult.Titles? then env.executivesToConsult.titles else []
  }

  /** The state the loop starts from: the CEO's status and response events
      sent, every executive to consult entered as pending, nothing kept. */
  function LoopStart(env: Env, gate: RateLimiter.Limiter, ledger: seq<CostLedger.UsageEvent>, ceo: Service.Reply): State {
    State(gate, ledger, AddPending(AnsweredStatuses, ConsultList(env)),
      [StatusEvent(InitialStatuses), ResponseEvent("CEO", ceo, AnsweredStatuses)], [])
  }

  /** Everything after the CEO call has come back. The stream opens with
      the CEO-only status; a CEO call stuck at the gate hangs the request
      there; a failed one is followed by one `error` event, its charges left
      in the ledger; an answer is the second event, with the CEO responded
      and no longer active. */
  function AfterCeo(env: Env, ledger: seq<CostLedger.UsageEvent>, out: Service.CallOutcome): (o: Outcome)
    ensures !o.MethodNotAllowed? && |o.events| >= 1 && o.events[0] == StatusEvent(InitialStatuses)
    ensures out.Stalled? ==> o == Hung([StatusEvent(InitialStatuses)], ledger)
    ensures out.Finished? && out.result.Raised? ==>
      o == Streamed([StatusEvent(InitialStatuses), ErrorEvent(ErrorMessage(out.result.error))], ledger + out.events)
    ensures out.Finished? && out.result.Returned? ==>
      |o.events| >= 3 && o.events[1] == ResponseEvent("CEO", out.result.value, [ExecStatus(CeoTitle, false, true, false, None)])
  {
    match out
    case Stalled => Hung([StatusEvent(InitialStatuses)], ledger)
    case Finished(gate, charged, result, _) =>
      match result
      case Raised(e) => Streamed([StatusEvent(InitialStatuses), ErrorEvent(ErrorMessage(e))], ledger + charged)
      case Returned(ceo) => Answered(env, gate, ledger + charged, ceo)
  }

  /** The loop and the synthesis, once the CEO has answered. The CEO-only
      status and the CEO's answer open the stream. A list that is not an
      array makes `forEach` throw: one `error` event follows and the ledger
      keeps the CEO's charge. Without a list the loop is empty and the
      next event already reactivates the CEO for the synthesis. */
  function Answered(env: Env, gate: RateLimiter.Limiter, ledger: seq<CostLedger.UsageEvent>, ceo: Service.Reply): (o: Outcome)
    ensures !o.MethodNotAllowed?
    ensures |o.events| >= 3 && o.events[0] == StatusEvent(InitialStatuses)
      && o.events[1] == ResponseEvent("CEO", ceo, [ExecStatus(CeoTitle, false, true, false, None)])
    ensures env.executivesToConsult.NotAList? ==>
      o == Streamed([StatusEvent(InitialStatuses), ResponseEvent("CEO", ceo, [ExecStatus(CeoTitle, false, true, false, None)]),
        ErrorEvent(ErrorMessage(ForEachError))], ledger)
    ensures env.executivesToConsult.Falsy? ==> o.events[2] == StatusEvent([ExecStatus(CeoTitle, true, true, false, None)])
  {
    var st := LoopStart(env, gate, ledger, ceo);
    StartOpening(env, gate, ledger, ceo);
    if env.executivesToConsult.NotAList? then
      Streamed(st.events + [ErrorEvent(ErrorMessage(ForEachError))], ledger)
    else
      var list := ConsultList(env);
      var p := ConsultFrom(env, list, 0, st);
      LoopOpening(env, list, st);
      var o := AfterLoop(env, ceo, |list| + 1, p);
      assert o.events[0] == p.st.events[0] == st.events[0];
      assert o.events[1] == p.st.events[1] == st.events[1];
      o
  }

  /** A loop stuck at the gate hangs the request with nothing more written;
      a loop that went on is followed by the CEO's reactivation and the
      synthesis. */
  function AfterLoop(env: Env, ceo: Service.Reply, slot: nat, p: Progress): (o: Outcome)
    ensures !o.MethodNotAllowed?
    ensures p.Stuck? ==> o == Hung(p.st.events, p.st.ledger)
    ensures p.st.events <= o.events
    ensures p.Going? ==>
      |o.events| > |p.st.events| && o.events[|p.st.events|] == StatusEvent(SetActive(p.st.statuses, CeoTitle, true))
  {
    match p
    case Stuck(st') => Hung(st'.events, st'.ledger)
    case Going(st') => Synthesize(env, ceo, slot, st')
  }

  /** The CEO call of a request, on the fresh gate the request builds. A
      fresh gate is open, so the call never waits: it finishes, takes one
      token, and its result is that of the CEO's requests. */
  function CeoCall(env: Env): (out: Service.CallOutcome)
    ensures out.Finished?
    ensures out.gate == RateLimiter.New(Service.GateConfig, env.now).(tokens := Service.GateConfig.tokensPerMinute - 1.0)
    ensures out.result == Service.Run(Service.CEO, env.calls(0), env.parses).outcome
  {
    var gate := RateLimiter.New(Service.GateConfig, env.now);
    assert RateLimiter.Enabled(gate);
    Service.Perform(Service.CEO, gate, env.calls(0), env.parses)
  }

  /** `handler`. `ledger` is the process-wide cost ledger before the
      request; each outcome carries it as the request leaves it. Only POST
      is served; a failure while setting up the request is the whole
      stream, a lone `error` event, before any status is sent. */
  function Handle(httpMethod: string, env: Env, ledger: seq<CostLedger.UsageEvent>): (o: Outcome)
    ensures o.MethodNotAllowed? <==> httpMethod != "POST"
    ensures httpMethod == "POST" && env.setup.Some? ==> o == Streamed([ErrorEvent(ErrorMessage(env.setup.value))], ledger)
  {
    if httpMethod != "POST" then MethodNotAllowed
    else match env.setup
      case Some(e) => Streamed([ErrorEvent(ErrorMessage(e))], ledger)
      case None => AfterCeo(env, ledger, CeoCall(env))
  }

  /** The stream a POST request writes: the CEO-only status first, or a
      lone `error` event when setting up the request failed; status and
      response events in between; and, unless the request hangs at the
      gate, exactly one closing `final` or `error` event. */
  predicate WellFormedStream(o: Outcome) {
    !o.MethodNotAllowed?
    && |o.events| >= 1
    && (o.events[0] == StatusEvent(InitialStatuses) || (o.Streamed? && |o.events| == 1 && o.events[0].ErrorEvent?))
    && (o.Hung? ==> AllProgressive(o.events))
    && (o.Streamed? ==> (
        AllProgressive(o.events[..|o.events| - 1])
        && (o.events[|o.events| - 1].FinalEvent? || o.events[|o.events| - 1].ErrorEvent?)))
  }

  /** A finished stream progresses up to its last event. */
  lemma StreamedTail(o: Outcome)
    requires WellFormedStream(o) && o.Streamed?
    ensures |o.events| > 0 && AllProgressive(o.events[..|o.events| - 1])
  {
  }

  /** The report sums `base` and whatever was charged after it. */
  ghost predicate Covers(report: CostLedger.Report, base: seq<CostLedger.UsageEvent>) {
    exists more :: report == CostLedger.Summary(base + more)
  }

  lemma ProgressiveJoin(a: seq<Event>, b: seq<Event>)
    requires AllProgressive(a) && a <= b && AllProgressive(b[|a|..])
    ensures AllProgressive(b)
  {
    forall j | |a| <= j < |b|
      ensures Progressive(b[j])
    {
      assert b[j] == b[|a|..][j - |a|];
    }
  }

  lemma PrefixRegroup(base: seq<CostLedger.UsageEvent>, full: seq<CostLedger.UsageEvent>, extra: seq<CostLedger.UsageEvent>)
    requires base <= full
    ensures base + (full[|base|..] + extra) == full + extra
  {
    assert full == base + full[|base|..];
  }

  /** What `StreamShape` says of an outcome: a well-formed stream; an
      `error` or a hang keeps `base` in the ledger; a `final` event drains
      the ledger, reports `base` followed by `more`, and holds consultations
      of executives of `list`, in list order. */
  predicate Shaped(o: Outcome, base: seq<CostLedger.UsageEvent>, more: seq<CostLedger.UsageEvent>, list: seq<string>) {
    WellFormedStream(o)
    && (o.Hung? || (o.Streamed? && o.events[|o.events| - 1].ErrorEvent?) ==> base <= o.ledger)
    && (o.Streamed? && o.events[|o.events| - 1].FinalEvent? ==>
      (var final := o.events[|o.events| - 1];
       o.ledger == []
       && final.costReport == CostLedger.Summary(base + more)
       && Subsequence(TitlesOf(final.consultations), list)))
  }

  /** The closing steps keep the stream well formed and the ledger's
      history: see `StreamShape`. */
  lemma CloseShape(ceo: Service.Reply, st: State, out: Service.CallOutcome, ledger: seq<CostLedger.UsageEvent>, list: seq<string>)
    requires |st.events| >= 1 && st.events[0] == StatusEvent(InitialStatuses) && AllProgressive(st.events)
    requires ledger <= st.ledger && Subsequence(TitlesOf(st.results), list)
    ensures Shaped(Close(ceo, st, out), ledger, st.ledger[|ledger|..] + (if out.Finished? then out.events else []), list)
  {
    var o := Close(ceo, st, out);
    assert o.events[0] == st.events[0];
    if o.Streamed? {
      assert o.events[..|o.events| - 1] == st.events;
      if o.events[|o.events| - 1].FinalEvent? {
        PrefixRegroup(ledger, st.ledger, out.events);
      }
    } else {
      assert o.events == st.events;
    }
  }

  /** The loop keeps the stream's opening event and its status and
      response events, and the ledger's history: see `StreamShape`. */
  lemma LoopShape(env: Env, list: seq<string>, st: State)
    requires |st.events| >= 1 && AllProgressive(st.events)
    ensures var p := ConsultFrom(env, list, 0, st);
      |p.st.events| >= 1 && p.st.events[0] == st.events[0] && AllProgressive(p.st.events)
      && st.ledger <= p.st.ledger && Subsequence(TitlesOf(p.st.results[|st.results|..]), list)
  {
    var p := ConsultFrom(env, list, 0, st);
    ProgressiveJoin(st.events, p.st.events);
    assert list[0..] == list;
  }

  /** The shape of every POST stream, and the fate of the process-wide
      ledger: a request that fails to set up writes a lone `error` event;
      a request that ends in an error, or hangs, leaves its charges
      and all earlier ones in the ledger; a request that ends in `final`
      drains the ledger, so its report covers everything charged since the
      last drain. The consultations of the final event are executives of
      the CEO's list, in list order. */
  lemma StreamShape(env: Env, ledger: seq<CostLedger.UsageEvent>)
    ensures WellFormedStream(Handle("POST", env, ledger))
    ensures var o := Handle("POST", env, ledger);
      o.Hung? || (o.Streamed? && o.events[|o.events| - 1].ErrorEvent?) ==> ledger <= o.ledger
    ensures var o := Handle("POST", env, ledger);
      o.Streamed? && o.events[|o.events| - 1].FinalEvent? ==>
      (var final := o.events[|o.events| - 1];
       o.ledger == []
       && Covers(final.costReport, ledger)
       && Subsequence(TitlesOf(final.consultations), ConsultList(env)))
  {
    var more := HandleShape(env, ledger);
    ShapedCovers(Handle("POST", env, ledger), ledger, more, ConsultList(env));
  }

  /** `Shaped`, with the charges after `base` left unnamed. */
  lemma ShapedCovers(o: Outcome, base: seq<CostLedger.UsageEvent>, more: seq<CostLedger.UsageEvent>, list: seq<string>)
    requires Shaped(o, base, more, list)
    ensures WellFormedStream(o)
    ensures o.Hung? || (o.Streamed? && o.events[|o.events| - 1].ErrorEvent?) ==> base <= o.ledger
    ensures o.Streamed? && o.events[|o.events| - 1].FinalEvent? ==>
      (var final := o.events[|o.events| - 1];
       o.ledger == []
       && Covers(final.costReport, base)
       && Subsequence(TitlesOf(final.consultations), list))
  {
    if o.Streamed? && o.events[|o.events| - 1].FinalEvent? {
      assert o.events[|o.events| - 1].costReport == CostLedger.Summary(base + more);
    }
  }

  /** A POST request either fails to set up or goes on from the CEO call. */
  lemma HandleShape(env: Env, ledger: seq<CostLedger.UsageEvent>) returns (more: seq<CostLedger.UsageEvent>)
    ensures Shaped(Handle("POST", env, ledger), ledger, more, ConsultList(env))
  {
    more := [];
    if env.setup.Some? {
      SetupFailureShape(env, ledger);
    } else {
      assert Handle("POST", env, ledger) == AfterCeo(env, ledger, CeoCall(env));
      more := AfterCeoShape(env, ledger, CeoCall(env));
    }
  }

  /** `StreamShape` for a request that fails to set up. */
  lemma SetupFailureShape(env: Env, ledger: seq<CostLedger.UsageEvent>)
    requires env.setup.Some?
    ensures Shaped(Handle("POST", env, ledger), ledger, [], ConsultList(env))
  {
    var o := Handle("POST", env, ledger);
    assert o.events[..0] == [];
  }

  /** `StreamShape` for any outcome of the CEO call; `more` is what the
      request charged. */
  lemma AfterCeoShape(env: Env, ledger: seq<CostLedger.UsageEvent>, out: Service.CallOutcome)
      returns (more: seq<CostLedger.UsageEvent>)
    ensures Shaped(AfterCeo(env, ledger, out), ledger, more, ConsultList(env))
  {
    more := [];
    match out
    case Stalled =>
      assert AfterCeo(env, ledger, out) == Hung([StatusEvent(InitialStatuses)], ledger);
    case Finished(gate, charged, result, _) =>
      match result
      case Raised(e) =>
        var o := Streamed([StatusEvent(InitialStatuses), ErrorEvent(ErrorMessage(e))], ledger + charged);
        assert AfterCeo(env, ledger, out) == o;
        assert o.events[..1] == [StatusEvent(InitialStatuses)];
      case Returned(ceo) =>
        assert AfterCeo(env, ledger, out) == Answered(env, gate, ledger + charged, ceo);
        more := AnsweredShape(env, gate, ledger + charged, ceo, ledger);
  }

  /** `StreamShape` once the CEO has answered; `base` is the ledger before
      the request. */
  lemma AnsweredShape(env: Env, gate: RateLimiter.Limiter, ledger: seq<CostLedger.UsageEvent>, ceo: Service.Reply,
                      base: seq<CostLedger.UsageEvent>)
      returns (more: seq<CostLedger.UsageEvent>)
    requires base <= ledger
    ensures Shaped(Answered(env, gate, ledger, ceo), base, more, ConsultList(env))
  {
    if env.executivesToConsult.NotAList? {
      more := [];
      NonArrayShape(env, gate, ledger, ceo, base);
    } else {
      more := ListShape(env, gate, ledger, ceo, base);
    }
  }

  /** `StreamShape` for a list `forEach` can run: the loop runs on it from
      its start. */
  lemma ListShape(env: Env, gate: RateLimiter.Limiter, ledger: seq<CostLedger.UsageEvent>, ceo: Service.Reply,
                  base: seq<CostLedger.UsageEvent>)
      returns (more: seq<CostLedger.UsageEvent>)
    requires base <= ledger && !env.executivesToConsult.NotAList?
    ensures Shaped(Answered(env, gate, ledger, ceo), base, more, ConsultList(env))
  {
    AnsweredRunsTheLoop(env, gate, ledger, ceo);
    LoopStartOpens(env, gate, ledger, ceo);
    more := LoopThenShape(env, ceo, LoopStart(env, gate, ledger, ceo), base, Answered(env, gate, ledger, ceo));
  }

  /** The loop starts from the CEO's two events, with nothing consulted
      and the ledger as it was. */
  lemma LoopStartOpens(env: Env, gate: RateLimiter.Limiter, ledger: seq<CostLedger.UsageEvent>, ceo: Service.Reply)
    ensures var st := LoopStart(env, gate, ledger, ceo);
      |st.events| >= 1 && st.events[0] == StatusEvent(InitialStatuses) && AllProgressive(st.events)
      && st.ledger == ledger && st.results == []
  {
    var st := LoopStart(env, gate, ledger, ceo);
    assert Progressive(st.events[1]);
  }

  /** With a list `forEach` can run, the loop runs on it from its start. */
  lemma AnsweredRunsTheLoop(env: Env, gate: RateLimiter.Limiter, ledger: seq<CostLedger.UsageEvent>, ceo: Service.Reply)
    requires !env.executivesToConsult.NotAList?
    ensures Answered(env, gate, ledger, ceo)
      == AfterLoop(env, ceo, |ConsultList(env)| + 1, ConsultFrom(env, ConsultList(env), 0, LoopStart(env, gate, ledger, ceo)))
  {
  }

  /** `StreamShape` from the start of the loop on. */
  lemma LoopThenShape(env: Env, ceo: Service.Reply, st: State, base: seq<CostLedger.UsageEvent>, o: Outcome)
      returns (more: seq<CostLedger.UsageEvent>)
    requires |st.events| >= 1 && st.events[0] == StatusEvent(InitialStatuses) && AllProgressive(st.events)
    requires base <= st.ledger && st.results == []
    requires o == AfterLoop(env, ceo, |ConsultList(env)| + 1, ConsultFrom(env, ConsultList(env), 0, st))
    ensures Shaped(o, base, more, ConsultList(env))
  {
    var list := ConsultList(env);
    LoopShape(env, list, st);
    var p := ConsultFrom(env, list, 0, st);
    assert p.st.results[|st.results|..] == p.st.results;
    more := AfterLoopShape(env, ceo, |list| + 1, p, base, list);
  }

  /** `StreamShape` for a CEO list that is not an array. */
  lemma NonArrayShape(env: Env, gate: RateLimiter.Limiter, ledger: seq<CostLedger.UsageEvent>, ceo: Service.Reply,
                      base: seq<CostLedger.UsageEvent>)
    requires base <= ledger && env.executivesToConsult.NotAList?
    ensures Shaped(Answered(env, gate, ledger, ceo), base, [], ConsultList(env))
  {
    var o := Answered(env, gate, ledger, ceo);
    assert o.events[..2] == [o.events[0], o.events[1]];
  }

  /** `StreamShape` from the end of the loop on. */
  lemma AfterLoopShape(env: Env, ceo: Service.Reply, slot: nat, p: Progress, base: seq<CostLedger.UsageEvent>, list: seq<string>)
      returns (more: seq<CostLedger.UsageEvent>)
    requires |p.st.events| >= 1 && p.st.events[0] == StatusEvent(InitialStatuses) && AllProgressive(p.st.events)
    requires base <= p.st.ledger && Subsequence(TitlesOf(p.st.results), list)
    ensures Shaped(AfterLoop(env, ceo, slot, p), base, more, list)
  {
    more := [];
    if p.Going? {
      var st' := Reopen(p.st);
      var last := Service.Perform(Service.Synthesis, st'.gate, env.calls(slot), env.parses);
      CloseShape(ceo, st', last, base, list);
      assert AfterLoop(env, ceo, slot, p) == Close(ceo, st', last);
      more := st'.ledger[|base|..] + (if last.Finished? then last.events else []);
    }
  }

  /** A failing CEO call ends the stream right after the initial status,
      with one `error` event, its charge left in the ledger. */
  lemma CeoFailureEndsStream(env: Env, ledger: seq<CostLedger.UsageEvent>)
    requires env.setup.None? && CeoCall(env).result.Raised?
    ensures Handle("POST", env, ledger)
      == Streamed([StatusEvent(InitialStatuses), ErrorEvent(ErrorMessage(CeoCall(env).result.error))], ledger + CeoCall(env).events)
  {
  }

  /** A CEO answer is the second event, with the CEO responded and no longer
      active. Without a list of executives the loop is empty and the next
      event already reactivates the CEO for the synthesis. */
  lemma CeoAnswerIsSecond(env: Env, ledger: seq<CostLedger.UsageEvent>)
    requires env.setup.None? && CeoCall(env).result.Returned?
    ensures var o := Handle("POST", env, ledger);
      |o.events| >= 3
      && o.events[1] == ResponseEvent("CEO", CeoCall(env).result.value, [ExecStatus(CeoTitle, false, true, false, None)])
    ensures env.executivesToConsult.Falsy? ==>
      Handle("POST", env, ledger).events[2] == StatusEvent([ExecStatus(CeoTitle, true, true, false, None)])
  {
    var out := CeoCall(env);
    assert Handle("POST", env, ledger) == AfterCeo(env, ledger, out);
    assert AfterCeo(env, ledger, out) == Answered(env, out.gate, ledger + out.events, out.result.value);
  }

  /** A CEO list that is truthy but not an array: the CEO's answer is sent,
      then `forEach` throws, and the stream ends with one `error` event, the
      CEO's charge left in the ledger. */
  lemma NonArrayListEndsStream(env: Env, ledger: seq<CostLedger.UsageEvent>)
    requires env.setup.None? && env.executivesToConsult.NotAList? && CeoCall(env).result.Returned?
    ensures Handle("POST", env, ledger) == Streamed(
      [StatusEvent(InitialStatuses), ResponseEvent("CEO", CeoCall(env).result.value, AnsweredStatuses),
       ErrorEvent("executivesToConsult.forEach is not a function")],
      ledger + CeoCall(env).events)
  {
    var out := CeoCall(env);
    assert Handle("POST", env, ledger) == AfterCeo(env, ledger, out);
    assert AfterCeo(env, ledger, out) == Answered(env, out.gate, ledger + out.events, out.result.value);
    assert AnsweredStatuses == [ExecStatus(CeoTitle, false, true, false, None)] by {
      StartOpening(env, out.gate, ledger, out.result.value);
    }
  }

  /** The loop only extends the stream: by at least one event when there
      is an executive to consult, by none otherwise. */
  lemma LoopOpening(env: Env, list: seq<string>, st: State)
    ensures var p := ConsultFrom(env, list, 0, st);
      st.events <= p.st.events
      && (list == [] ==> p == Going(st))
      && (list != [] ==> |p.st.events| > |st.events|)
  {
    if list != [] {
      var one := ConsultOne(env, 1, list[0], st);
      assert |ConsultFrom(env, list, 0, st).st.events| >= |one.st.events|;
    }
  }

  /** The loop's starting state: the CEO's response second, and a map that
      reactivated holds the CEO alone, active and responded. */
  lemma StartOpening(env: Env, gate: RateLimiter.Limiter, ledger: seq<CostLedger.UsageEvent>, ceo: Service.Reply)
    ensures var st := LoopStart(env, gate, ledger, ceo);
      |st.events| == 2
      && st.events[1] == ResponseEvent("CEO", ceo, [ExecStatus(CeoTitle, false, true, false, None)])
      && (env.executivesToConsult.Falsy? ==>
        SetActive(st.statuses, CeoTitle, true) == [ExecStatus(CeoTitle, true, true, false, None)])
  {
    assert AnsweredStatuses == [ExecStatus(CeoTitle, false, true, false, None)];
    var m := SetActive(AnsweredStatuses, CeoTitle, true);
    assert m[0] == ExecStatus(CeoTitle, true, true, false, None);
  }

  /** Key uniqueness depends on the keys alone. */
  lemma UniqueKeysOfKeys(a: Statuses, b: Statuses)
    requires Keys(a) == Keys(b) && UniqueKeys(a)
    ensures UniqueKeys(b)
  {
    forall i, j | 0 <= i < j < |b|
      ensures b[i].title != b[j].title
    {
      assert Keys(a)[i] == Keys(b)[i] && Keys(a)[j] == Keys(b)[j];
    }
  }

  /** Every map the loop works on has unique keys and holds every executive
      to consult, since the loop never adds or drops a key. */
  lemma LoopMapsHoldTheList(env: Env, gate: RateLimiter.Limiter, ledger: seq<CostLedger.UsageEvent>, ceo: Service.Reply, i: nat)
    requires i <= |ConsultList(env)|
    ensures var m := ConsultFrom(env, ConsultList(env), i, LoopStart(env, gate, ledger, ceo)).st.statuses;
      UniqueKeys(m) && forall t :: t in ConsultList(env) ==> t in Keys(m)
  {
    var st := LoopStart(env, gate, ledger, ceo);
    var m := ConsultFrom(env, ConsultList(env), i, st).st.statuses;
    assert UniqueKeys(AnsweredStatuses);
    UniqueKeysOfKeys(st.statuses, m);
  }

  /** Opening the loop body on a key of a map with unique keys leaves
      exactly one entry active: that executive's. */
  lemma ActivationIsExclusive(m: Statuses, title: string)
    requires UniqueKeys(m) && title in Keys(m)
    ensures var r := Activate(m, title);
      exists i :: 0 <= i < |r| && r[i].title == title && r[i].isActive
        && forall j :: 0 <= j < |r| && j != i ==> !r[j].isActive
  {
    var r := Activate(m, title);
    var i :| 0 <= i < |m| && Keys(m)[i] == title;
    assert r[i].title == title && r[i].isActive;
    forall j | 0 <= j < |r| && j != i
      ensures !r[j].isActive
    {
      assert Keys(r)[j] == r[j].title;
    }
  }

  /** Which titles call the service, which hit an undefined method, and
      which return null; every string that is not a title returns null. */
  lemma DispatchTable(e: Executive, s: string)
    ensures DispatchOf(Title(e)).Calls? <==>
      e.ChiefMarketing? || e.ChiefTechnology? || e.ChiefDevelopment? || e.ChiefExpansion? || e.ChiefSales? || e.ChiefCompliance?
    ensures DispatchOf(Title(e)).Undefined? <==> e.ChiefFinancial? || e.ChiefOperations?
    ensures DispatchOf(Title(e)) == NoImplementation <==> e.ChiefExecutive? || e.ChiefHumanResources?
    ensures FromTitle(s).None? ==> DispatchOf(s) == NoImplementation
  {
    TitleDispatch(e);
    NonTitleHasNoImplementation(s);
  }

  /** What each executive's title dispatches to. */
  function DispatchFor(e: Executive): Dispatch {
    match e
    case ChiefMarketing => Calls(Service.CMO)
    case ChiefTechnology => Calls(Service.CTO)
    case ChiefFinancial => Undefined("getCFOResponse")
    case ChiefOperations => Undefined("getCOOResponse")
    case ChiefDevelopment => Calls(Service.CDO)
    case ChiefExpansion => Calls(Service.CXO)
    case ChiefSales => Calls(Service.CSO)
    case ChiefCompliance => Calls(Service.CCO)
    case ChiefExecutive => NoImplementation
    case ChiefHumanResources => NoImplementation
  }

  lemma TitleDispatch(e: Executive)
    ensures DispatchOf(Title(e)) == DispatchFor(e)
  {
  }

  lemma NonTitleHasNoImplementation(s: string)
    ensures FromTitle(s).None? ==> DispatchOf(s) == NoImplementation
  {
  }

  /** A title without an implementation: nothing is kept and the executive
      stays active, as the loop body set it. */
  lemma UnimplementedStaysActive(env: Env, k: nat, title: string, st: State)
    requires DispatchOf(title) == NoImplementation
    ensures var p := ConsultOne(env, k, title, st);
      p.Going? && p.st.results == st.results && p.st.gate == st.gate && p.st.ledger == st.ledger
      && p.st.statuses == Activate(st.statuses, title)
      && p.st.events == st.events + [StatusEvent(p.st.statuses)]
      && forall i :: 0 <= i < |p.st.statuses| && p.st.statuses[i].title == title ==> p.st.statuses[i].isActive
  {
  }

  /** A title whose method the service lacks fails without a call: the
      executive is marked with "Implementation not available" and the loop
      goes on. */
  lemma MissingMethodIsIsolated(env: Env, k: nat, title: string, st: State)
    requires DispatchOf(title).Undefined?
    ensures var p := ConsultOne(env, k, title, st);
      p.Going? && p.st.results == st.results && p.st.gate == st.gate && p.st.ledger == st.ledger
      && p.st.statuses == MarkFailed(Activate(st.statuses, title), title, MissingImplementationMessage)
      && p.st.events == st.events + [StatusEvent(Activate(st.statuses, title)), StatusEvent(p.st.statuses)]
  {
  }

  /** A call that fails is isolated to its executive: the entry is marked
      failed with the error's message (or the missing-implementation text
      for a not-a-function `TypeError`), a status event is sent and the
      loop goes on with the call's charges recorded. */
  lemma CallFailureIsIsolated(env: Env, k: nat, title: string, st: State)
    requires DispatchOf(title).Calls?
    requires var out := Service.Perform(DispatchOf(title).call, st.gate, env.calls(k), env.parses);
      out.Finished? && out.result.Raised?
    ensures var out := Service.Perform(DispatchOf(title).call, st.gate, env.calls(k), env.parses);
      var p := ConsultOne(env, k, title, st);
      p.Going? && p.st.results == st.results && p.st.ledger == st.ledger + out.events
      && p.st.statuses == MarkFailed(Activate(st.statuses, title), title, FailureMessage(out.result.error))
      && p.st.events == st.events + [StatusEvent(Activate(st.statuses, title)), StatusEvent(p.st.statuses)]
  {
  }

  /** A truthy reply is kept under its title, the executive marked
      responded, and a response event sent. */
  lemma ReplyIsKept(env: Env, k: nat, title: string, st: State)
    requires DispatchOf(title).Calls?
    requires var out := Service.Perform(DispatchOf(title).call, st.gate, env.calls(k), env.parses);
      out.Finished? && out.result.Returned? && Truthy(env, out.result.value)
    ensures var out := Service.Perform(DispatchOf(title).call, st.gate, env.calls(k), env.parses);
      var p := ConsultOne(env, k, title, st);
      var reply := out.result.value;
      p.Going? && p.st.results == st.results + [Consultation(title, reply)]
      && p.st.statuses == MarkResponded(Activate(st.statuses, title), title)
      && p.st.events == st.events + [StatusEvent(Activate(st.statuses, title)), ResponseEvent(title, reply, p.st.statuses)]
  {
  }

  /** A call to a method that never releases its slot, on an open gate,
      comes back holding one more slot and one token fewer. */
  lemma LeakingStep(env: Env, k: nat, title: string, st: State)
    requires DispatchOf(title).Calls? && !Service.Releases(DispatchOf(title).call)
    requires RateLimiter.Enabled(st.gate)
    ensures var p := ConsultOne(env, k, title, st);
      p.Going? && p.st.gate == RateLimiter.Acquire(st.gate)
  {
    var out := Service.Perform(DispatchOf(title).call, st.gate, env.calls(k), env.parses);
    assert out.Finished? && out.gate == RateLimiter.Acquire(st.gate);
  }

  /** Three calls that never release, on a gate with every slot free and
      tokens to spare, fill all three slots and the loop goes on. */
  lemma ThreeLeaksFillTheGate(env: Env, list: seq<string>, st: State)
    requires list == [Title(ChiefMarketing), Title(ChiefTechnology), Title(ChiefMarketing)]
    requires st.gate.activeRequests == 0 && st.gate.maxParallelRequests == 3 && st.gate.tokens >= 3.0
    ensures var p := ConsultFrom(env, list, 0, st);
      p.Going? && p.st.gate.activeRequests == 3 && p.st.gate.maxParallelRequests == 3
  {
    var cmo, cto := DispatchOf(Title(ChiefMarketing)), DispatchOf(Title(ChiefTechnology));
    assert cmo.Calls? && !Service.Releases(cmo.call) && cto.Calls? && !Service.Releases(cto.call);
    LeaksFrom(env, list, 0, st);
  }

  /** Calls that never release take a slot and a token each, and the loop
      goes on as long as the gate has both for all of them. */
  lemma {:induction false} LeaksFrom(env: Env, list: seq<string>, i: nat, st: State)
    requires i <= |list|
    requires forall j :: i <= j < |list| ==> DispatchOf(list[j]).Calls? && !Service.Releases(DispatchOf(list[j]).call)
    requires st.gate.activeRequests + (|list| - i) <= st.gate.maxParallelRequests
    requires st.gate.tokens >= (|list| - i) as real
    ensures var p := ConsultFrom(env, list, i, st);
      p.Going? && p.st.gate.activeRequests == st.gate.activeRequests + (|list| - i)
      && p.st.gate.maxParallelRequests == st.gate.maxParallelRequests
    decreases |list| - i
  {
    if i < |list| {
      LeakingStep(env, i + 1, list[i], st);
      var one := ConsultOne(env, i + 1, list[i], st);
      assert ConsultFrom(env, list, i, st) == ConsultFrom(env, list, i + 1, one.st);
      LeaksFrom(env, list, i + 1, one.st);
    } else {
      assert ConsultFrom(env, list, i, st) == Going(st);
    }
  }

  /** A synthesis on a saturated gate never starts: the request hangs. */
  lemma SaturatedSynthesisHangs(env: Env, ceo: Service.Reply, slot: nat, p: Progress)
    requires p.Going? && p.st.gate.activeRequests >= p.st.gate.maxParallelRequests
    ensures AfterLoop(env, ceo, slot, p).Hung?
  {
    Service.SaturatedGateStalls(Service.Synthesis, p.st.gate, env.calls(slot), env.parses);
  }

  /** The marketing and technology methods never release their gate slot,
      and every request's gate admits three calls at once, so a CEO that
      names the marketing officer, the technology officer and the marketing
      officer again hangs the request: the synthesis waits forever. */
  lemma ThreeLeaksHangTheRequest(env: Env, ledger: seq<CostLedger.UsageEvent>)
    requires env.setup.None? && CeoCall(env).result.Returned?
    requires env.executivesToConsult == Titles([Title(ChiefMarketing), Title(ChiefTechnology), Title(ChiefMarketing)])
    ensures Handle("POST", env, ledger).Hung?
  {
    var out := CeoCall(env);
    assert Handle("POST", env, ledger) == AfterCeo(env, ledger, out);
    assert AfterCeo(env, ledger, out) == Answered(env, out.gate, ledger + out.events, out.result.value);
    ThreeLeaksHangAnswered(env, out.gate, ledger + out.events, out.result.value);
  }

  /** `ThreeLeaksHangTheRequest` once the CEO has answered on a gate with
      every slot free and tokens to spare. */
  lemma ThreeLeaksHangAnswered(env: Env, gate: RateLimiter.Limiter, ledger: seq<CostLedger.UsageEvent>, ceo: Service.Reply)
    requires env.executivesToConsult == Titles([Title(ChiefMarketing), Title(ChiefTechnology), Title(ChiefMarketing)])
    requires gate.activeRequests == 0 && gate.maxParallelRequests == 3 && gate.tokens >= 3.0
    ensures Answered(env, gate, ledger, ceo).Hung?
  {
    var list := ConsultList(env);
    var st0 := LoopStart(env, gate, ledger, ceo);
    AnsweredRunsTheLoop(env, gate, ledger, ceo);
    ThreeLeaksFillTheGate(env, list, st0);
    var p := ConsultFrom(env, list, 0, st0);
    SaturatedSynthesisHangs(env, ceo, |list| + 1, p);
  }
}
