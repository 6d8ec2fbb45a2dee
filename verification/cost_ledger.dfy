/** The conversation usage ledger: an ordered sequence of usage events,
    appended to by every completed model call and drained into a report
    (totals plus a per-agent breakdown) at the end of a consultation. */
module CostLedger {

  datatype UsageEvent = UsageEvent(
    promptTokens: nat,
    completionTokens: nat,
    totalTokens: nat,
    cost: real,
    model: string,
    agent: string)

  datatype AgentUsage = AgentUsage(model: string, tokens: nat, promptTokens: nat, completionTokens: nat, cost: real)

  datatype Report = Report(
    totalTokens: nat,
    promptTokens: nat,
    completionTokens: nat,
    totalCost: real,
    breakdown: map<string, AgentUsage>)

  /** `trackUsage`: the event goes at the end, and everything recorded
      before stays as it was. */
  function TrackUsage(ledger: seq<UsageEvent>, e: UsageEvent): (r: seq<UsageEvent>)
    ensures |r| == |ledger| + 1 && r[|ledger|] == e
    ensures r[..|ledger|] == ledger
  {
    ledger + [e]
  }

  // Reference definitions: field-wise sums, the events of one agent, and the
  // agents seen. Each peels the last event, matching the ledger's growth.

  function TotalTokens(s: seq<UsageEvent>): nat {
    if |s| == 0 then 0 else TotalTokens(s[..|s| - 1]) + s[|s| - 1].totalTokens
  }

  function PromptTokens(s: seq<UsageEvent>): nat {
    if |s| == 0 then 0 else PromptTokens(s[..|s| - 1]) + s[|s| - 1].promptTokens
  }

  function CompletionTokens(s: seq<UsageEvent>): nat {
    if |s| == 0 then 0 else CompletionTokens(s[..|s| - 1]) + s[|s| - 1].completionTokens
  }

  function TotalCost(s: seq<UsageEvent>): real {
    if |s| == 0 then 0.0 else TotalCost(s[..|s| - 1]) + s[|s| - 1].cost
  }

  /** The events charged to `agent`, in recording order. */
  function OfAgent(s: seq<UsageEvent>, agent: string): seq<UsageEvent> {
    if |s| == 0 then []
    else OfAgent(s[..|s| - 1], agent) + (if s[|s| - 1].agent == agent then [s[|s| - 1]] else [])
  }

  function Agents(s: seq<UsageEvent>): set<string> {
    if |s| == 0 then {} else Agents(s[..|s| - 1]) + {s[|s| - 1].agent}
  }

  /** The breakdown entry of an agent: the model of its first event and the
      field-wise sums over all of its events. */
  function Entry(s: seq<UsageEvent>, agent: string): AgentUsage
    requires OfAgent(s, agent) != []
  {
    var mine := OfAgent(s, agent);
    AgentUsage(mine[0].model, TotalTokens(mine), PromptTokens(mine), CompletionTokens(mine), TotalCost(mine))
  }

  lemma {:induction false} AgentsHaveEvents(s: seq<UsageEvent>, agent: string)
    ensures agent in Agents(s) <==> OfAgent(s, agent) != []
  {
    if |s| > 0 {
      AgentsHaveEvents(s[..|s| - 1], agent);
    }
  }

  /** The report the ledger's contents call for. */
  function Summary(s: seq<UsageEvent>): (r: Report)
    ensures r.breakdown.Keys == Agents(s)
  {
    Report(TotalTokens(s), PromptTokens(s), CompletionTokens(s), TotalCost(s),
      map a | a in Agents(s) :: (AgentsHaveEvents(s, a); Entry(s, a)))
  }

  lemma AppendOne(s: seq<UsageEvent>, e: UsageEvent)
    ensures (s + [e])[..|s|] == s && (s + [e])[|s|] == e
  {
  }

  /** Recording one more event for an agent extends that agent's events and
      leaves every other agent's events alone. */
  lemma OfAgentSnoc(s: seq<UsageEvent>, e: UsageEvent, agent: string)
    ensures OfAgent(s + [e], agent) == OfAgent(s, agent) + (if e.agent == agent then [e] else [])
  {
    AppendOne(s, e);
  }

  lemma SumsSnoc(s: seq<UsageEvent>, e: UsageEvent)
    ensures TotalTokens(s + [e]) == TotalTokens(s) + e.totalTokens
    ensures PromptTokens(s + [e]) == PromptTokens(s) + e.promptTokens
    ensures CompletionTokens(s + [e]) == CompletionTokens(s) + e.completionTokens
    ensures TotalCost(s + [e]) == TotalCost(s) + e.cost
    ensures Agents(s + [e]) == Agents(s) + {e.agent}
  {
    AppendOne(s, e);
  }

  /** `m` is the breakdown the events `s` call for. */
  ghost predicate BreakdownOf(m: map<string, AgentUsage>, s: seq<UsageEvent>) {
    && m.Keys == Agents(s)
    && forall a :: a in m ==> OfAgent(s, a) != [] && m[a] == Entry(s, a)
  }

  /** The per-event update of the breakdown: a new agent gets an entry of
      its own, a known agent's entry accumulates and keeps its model. */
  function AddEvent(m: map<string, AgentUsage>, data: UsageEvent): (r: map<string, AgentUsage>)
    ensures r.Keys == m.Keys + {data.agent}
    ensures forall a :: a in m && a != data.agent ==> r[a] == m[a]
    ensures var prev := if data.agent in m then m[data.agent] else AgentUsage(data.model, 0, 0, 0, 0.0);
      r[data.agent] == AgentUsage(prev.model, prev.tokens + data.totalTokens, prev.promptTokens + data.promptTokens,
                                  prev.completionTokens + data.completionTokens, prev.cost + data.cost)
  {
    if data.agent !in m then
      m[data.agent := AgentUsage(data.model, data.totalTokens, data.promptTokens, data.completionTokens, data.cost)]
    else
      var prev := m[data.agent];
      m[data.agent := AgentUsage(prev.model, prev.tokens + data.totalTokens, prev.promptTokens + data.promptTokens,
                                 prev.completionTokens + data.completionTokens, prev.cost + data.cost)]
  }

  /** The first event of an agent makes an entry of that event alone. */
  lemma NewAgentEntry(s: seq<UsageEvent>, data: UsageEvent)
    requires OfAgent(s, data.agent) == []
    ensures OfAgent(s + [data], data.agent) == [data]
    ensures Entry(s + [data], data.agent)
         == AgentUsage(data.model, data.totalTokens, data.promptTokens, data.completionTokens, data.cost)
  {
    OfAgentSnoc(s, data, data.agent);
    assert [] + [data] == [data];
    SumsSnoc([], data);
  }

  /** A later event of a known agent adds to its entry and keeps its model. */
  lemma KnownAgentEntry(s: seq<UsageEvent>, data: UsageEvent, prev: AgentUsage)
    requires OfAgent(s, data.agent) != [] && prev == Entry(s, data.agent)
    ensures OfAgent(s + [data], data.agent) != []
    ensures Entry(s + [data], data.agent)
         == AgentUsage(prev.model, prev.tokens + data.totalTokens, prev.promptTokens + data.promptTokens,
                       prev.completionTokens + data.completionTokens, prev.cost + data.cost)
  {
    var mine := OfAgent(s, data.agent);
    OfAgentSnoc(s, data, data.agent);
    assert OfAgent(s + [data], data.agent) == mine + [data];
    SumsSnoc(mine, data);
    assert (mine + [data])[0] == mine[0];
  }

  /** Another agent's event leaves an entry alone. */
  lemma OtherAgentEntry(s: seq<UsageEvent>, data: UsageEvent, a: string)
    requires a != data.agent && OfAgent(s, a) != []
    ensures OfAgent(s + [data], a) == OfAgent(s, a)
    ensures Entry(s + [data], a) == Entry(s, a)
  {
    OfAgentSnoc(s, data, a);
    assert OfAgent(s, a) + [] == OfAgent(s, a);
  }

  /** One agent's entry after the update is its entry over the longer
      ledger. */
  lemma AddEventEntry(m: map<string, AgentUsage>, s: seq<UsageEvent>, data: UsageEvent, a: string)
    requires m.Keys == Agents(s)
    requires a in m ==> OfAgent(s, a) != [] && m[a] == Entry(s, a)
    requires a in AddEvent(m, data)
    ensures OfAgent(s + [data], a) != [] && AddEvent(m, data)[a] == Entry(s + [data], a)
  {
    if a != data.agent {
      OtherAgentEntry(s, data, a);
    } else if a in m {
      KnownAgentEntry(s, data, m[a]);
    } else {
      AgentsHaveEvents(s, a);
      NewAgentEntry(s, data);
    }
  }

  lemma AddEventKeepsBreakdown(m: map<string, AgentUsage>, s: seq<UsageEvent>, data: UsageEvent)
    requires BreakdownOf(m, s)
    ensures BreakdownOf(AddEvent(m, data), s + [data])
  {
    SumsSnoc(s, data);
    forall a | a in AddEvent(m, data)
      ensures OfAgent(s + [data], a) != [] && AddEvent(m, data)[a] == Entry(s + [data], a)
    {
      AddEventEntry(m, s, data, a);
    }
  }

  lemma TakeOneMore(s: seq<UsageEvent>, i: nat)
    requires i < |s|
    ensures s[..i + 1] == s[..i] + [s[i]]
  {
  }

  /** The loop body of `generateReport`: one event added to the running
      totals and to the breakdown. */
  function Add(r: Report, data: UsageEvent): Report {
    Report(r.totalTokens + data.totalTokens, r.promptTokens + data.promptTokens,
      r.completionTokens + data.completionTokens, r.totalCost + data.cost, AddEvent(r.breakdown, data))
  }

  /** The running values after a prefix of the ledger. */
  function Fold(s: seq<UsageEvent>): Report {
    if |s| == 0 then Report(0, 0, 0, 0.0, map[]) else Add(Fold(s[..|s| - 1]), s[|s| - 1])
  }

  lemma SplitLast(s: seq<UsageEvent>)
    requires |s| > 0
    ensures s == s[..|s| - 1] + [s[|s| - 1]]
  {
  }

  /** The fold's running totals are the field-wise sums. */
  lemma {:induction false} FoldTotals(s: seq<UsageEvent>)
    ensures Fold(s).totalTokens == TotalTokens(s) && Fold(s).promptTokens == PromptTokens(s)
    ensures Fold(s).completionTokens == CompletionTokens(s) && Fold(s).totalCost == TotalCost(s)
  {
    if |s| > 0 {
      FoldTotals(s[..|s| - 1]);
    }
  }

  /** The fold's map is the breakdown the events call for. */
  lemma {:induction false} FoldBreakdown(s: seq<UsageEvent>)
    ensures BreakdownOf(Fold(s).breakdown, s)
  {
    if |s| > 0 {
      var p := s[..|s| - 1];
      FoldBreakdown(p);
      SplitLast(s);
      AddEventKeepsBreakdown(Fold(p).breakdown, p, s[|s| - 1]);
    }
  }

  /** The one-pass fold is the reference report. */
  lemma FoldIsSummary(s: seq<UsageEvent>)
    ensures Fold(s) == Summary(s) && BreakdownOf(Fold(s).breakdown, s)
  {
    FoldTotals(s);
    FoldBreakdown(s);
    BreakdownOfIsSummary(Fold(s).breakdown, s);
  }

  /** `generateReport`: one pass over the recorded events accumulating the
      totals and the per-agent breakdown, then the ledger is cleared. */
  method GenerateReport(usage: seq<UsageEvent>) returns (report: Report, remaining: seq<UsageEvent>)
    ensures report.totalTokens == TotalTokens(usage)
    ensures report.promptTokens == PromptTokens(usage)
    ensures report.completionTokens == CompletionTokens(usage)
    ensures report.totalCost == TotalCost(usage)
    ensures BreakdownOf(report.breakdown, usage)
    ensures report == Summary(usage)
    ensures remaining == []
  {
    var totalPromptTokens: nat := 0;
    var totalCompletionTokens: nat := 0;
    var totalTokens: nat := 0;
    var totalCost: real := 0.0;
    var executiveUsage: map<string, AgentUsage> := map[];
    var i := 0;
    while i < |usage|
      invariant 0 <= i <= |usage|
      invariant Report(totalTokens, totalPromptTokens, totalCompletionTokens, totalCost, executiveUsage) == Fold(usage[..i])
    {
      var data := usage[i];
      TakeOneMore(usage, i);
      totalPromptTokens := totalPromptTokens + data.promptTokens;
      totalCompletionTokens := totalCompletionTokens + data.completionTokens;
      totalTokens := totalTokens + data.totalTokens;
      totalCost := totalCost + data.cost;
      executiveUsage := AddEvent(executiveUsage, data);
      i := i + 1;
    }
    assert usage[..|usage|] == usage;
    report := Report(totalTokens, totalPromptTokens, totalCompletionTokens, totalCost, executiveUsage);
    FoldIsSummary(usage);
    remaining := [];
  }

  /** A breakdown that fits the events is the reference one. */
  lemma BreakdownOfIsSummary(m: map<string, AgentUsage>, s: seq<UsageEvent>)
    requires BreakdownOf(m, s)
    ensures m == Summary(s).breakdown
  {
    var b := Summary(s).breakdown;
    forall a | a in m
      ensures m[a] == b[a]
    {
    }
  }

  /** Draining an empty ledger (a second drain right after the first) gives
      all-zero totals and no breakdown. */
  lemma EmptySummary()
    ensures Summary([]) == Report(0, 0, 0, 0.0, map[])
  {
  }

  /** An agent charged twice accumulates both charges; a different agent's
      entry is its own event alone. */
  lemma RepeatedAgentAccumulates(a1: UsageEvent, a2: UsageEvent, b: UsageEvent)
    requires a1.agent == a2.agent && b.agent != a1.agent
    ensures a1.agent in Summary([a1, a2, b]).breakdown && b.agent in Summary([a1, a2, b]).breakdown
    ensures Summary([a1, a2, b]).breakdown[a1.agent].tokens == a1.totalTokens + a2.totalTokens
    ensures Summary([a1, a2, b]).breakdown[a1.agent].cost == a1.cost + a2.cost
    ensures Summary([a1, a2, b]).breakdown[a1.agent].model == a1.model
    ensures Summary([a1, a2, b]).breakdown[b.agent] == AgentUsage(b.model, b.totalTokens, b.promptTokens, b.completionTokens, b.cost)
    ensures Summary([a1, a2, b]).totalTokens == a1.totalTokens + a2.totalTokens + b.totalTokens
  {
    var s := [a1, a2, b];
    FoldIsSummary(s);
    var z := Report(0, 0, 0, 0.0, map[]);
    assert [a1][..0] == [];
    assert Fold([a1]) == Add(z, a1);
    assert [a1, a2][..1] == [a1];
    assert Fold([a1, a2]) == Add(Add(z, a1), a2);
    assert s[..2] == [a1, a2];
    assert Fold(s) == Add(Add(Add(z, a1), a2), b);
  }

  /** The first-seen order of the agents, without repeats. */
  function AgentOrder(s: seq<UsageEvent>): (order: seq<string>)
    ensures forall a :: a in order <==> a in Agents(s)
  {
    if |s| == 0 then []
    else
      var prefix := AgentOrder(s[..|s| - 1]);
      if s[|s| - 1].agent in prefix then prefix else prefix + [s[|s| - 1].agent]
  }

  predicate Distinct(xs: seq<string>) {
    forall i, j :: 0 <= i < j < |xs| ==> xs[i] != xs[j]
  }

  lemma {:induction false} AgentOrderDistinct(s: seq<UsageEvent>)
    ensures Distinct(AgentOrder(s))
  {
    if |s| > 0 {
      AgentOrderDistinct(s[..|s| - 1]);
    }
  }

  /** The tokens of the listed agents' entries, added up. */
  function BreakdownTokens(s: seq<UsageEvent>, agents: seq<string>): nat {
    if |agents| == 0 then 0
    else BreakdownTokens(s, agents[..|agents| - 1]) + TotalTokens(OfAgent(s, agents[|agents| - 1]))
  }

  lemma {:induction false} BreakdownTokensSnoc(s: seq<UsageEvent>, e: UsageEvent, agents: seq<string>)
    requires Distinct(agents)
    ensures BreakdownTokens(s + [e], agents)
         == BreakdownTokens(s, agents) + (if e.agent in agents then e.totalTokens else 0)
  {
    if |agents| > 0 {
      var init := agents[..|agents| - 1];
      var last := agents[|agents| - 1];
      assert agents == init + [last];
      assert Distinct(init);
      BreakdownTokensSnoc(s, e, init);
      OfAgentSnoc(s, e, last);
      SumsSnoc(OfAgent(s, last), e);
      assert BreakdownTokens(s + [e], agents) == BreakdownTokens(s + [e], init) + TotalTokens(OfAgent(s + [e], last));
      assert BreakdownTokens(s, agents) == BreakdownTokens(s, init) + TotalTokens(OfAgent(s, last));
      assert e.agent in agents <==> e.agent in init || e.agent == last;
      assert last !in init;
      if e.agent == last {
        assert OfAgent(s + [e], last) == OfAgent(s, last) + [e];
      } else {
        assert OfAgent(s, last) + [] == OfAgent(s, last);
        assert OfAgent(s + [e], last) == OfAgent(s, last);
      }
    }
  }

  /** The per-agent token counts of the breakdown add up to the report's
      total: every event is charged to exactly one agent. */
  lemma {:induction false} BreakdownSumsToTotal(s: seq<UsageEvent>)
    ensures BreakdownTokens(s, AgentOrder(s)) == TotalTokens(s)
  {
    if |s| > 0 {
      var p := s[..|s| - 1];
      var e := s[|s| - 1];
      var order := AgentOrder(p);
      assert s == p + [e];
      BreakdownSumsToTotal(p);
      AgentOrderDistinct(p);
      BreakdownTokensSnoc(p, e, order);
      SumsSnoc(p, e);
      if e.agent in order {
        assert AgentOrder(s) == order;
      } else {
        assert AgentOrder(s) == order + [e.agent];
        AgentsHaveEvents(p, e.agent);
        NewAgentTokens(p, e, order);
      }
    }
  }

  /** A new agent's column holds its first event's tokens. */
  lemma NewAgentTokens(p: seq<UsageEvent>, e: UsageEvent, order: seq<string>)
    requires OfAgent(p, e.agent) == []
    ensures BreakdownTokens(p + [e], order + [e.agent]) == BreakdownTokens(p + [e], order) + e.totalTokens
  {
    var order' := order + [e.agent];
    assert order'[..|order'| - 1] == order;
    NewAgentEntry(p, e);
    assert [] + [e] == [e];
    SumsSnoc([], e);
  }
}
