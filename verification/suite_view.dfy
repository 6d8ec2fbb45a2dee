/** The executive suite's view of a consultation: a blank query starts
    nothing; otherwise the view opens an event source on the endpoint and
    its message listener keeps the latest status map, a progress message
    per executive that has something to report, the cost report and the
    synthesis, and closes on the `final` event or on a payload that does
    not parse. Message timestamps, logging and rendering are left out. */
module SuiteView {
  import opened Basics
  import opened Executives
  import Consult
  import StreamClient
  import CostLedger

  /** `String.prototype.trim`'s white space and line terminators. */
  predicate IsSpace(c: char) {
    c == '\t' || c == '\n' || c == '\U{B}' || c == '\U{C}' || c == '\r' || c == ' '
    || c == '\U{A0}' || c == '\U{1680}' || ('\U{2000}' <= c <= '\U{200A}')
    || c == '\U{2028}' || c == '\U{2029}' || c == '\U{202F}' || c == '\U{205F}' || c == '\U{3000}' || c == '\U{FEFF}'
  }

  /** Strips the leading white space. */
  function TrimStart(s: string): (r: string)
    ensures |r| <= |s| && r == s[|s| - |r|..]
    ensures forall i :: 0 <= i < |s| - |r| ==> IsSpace(s[i])
    ensures |r| > 0 ==> !IsSpace(r[0])
  {
    if |s| > 0 && IsSpace(s[0]) then TrimStart(s[1..]) else s
  }

  /** Strips the trailing white space. */
  function TrimEnd(s: string): (r: string)
    ensures |r| <= |s| && r == s[..|r|]
    ensures forall i :: |r| <= i < |s| ==> IsSpace(s[i])
    ensures |r| > 0 ==> !IsSpace(r[|r| - 1])
  {
    if |s| > 0 && IsSpace(s[|s| - 1]) then TrimEnd(s[..|s| - 1]) else s
  }

  /** `query.trim()`. */
  function Trim(s: string): string {
    TrimEnd(TrimStart(s))
  }

  lemma {:induction false} BlankTrimsAway(s: string)
    requires forall i :: 0 <= i < |s| ==> IsSpace(s[i])
    ensures TrimStart(s) == []
    decreases |s|
  {
    if |s| > 0 {
      BlankTrimsAway(s[1..]);
    }
  }

  /** `!query.trim()` holds exactly for the queries made of white space
      alone, the empty one included. */
  lemma BlankQuery(q: string)
    ensures Trim(q) == [] <==> forall i :: 0 <= i < |q| ==> IsSpace(q[i])
  {
    if forall i :: 0 <= i < |q| ==> IsSpace(q[i]) {
      BlankTrimsAway(q);
    } else {
      var i :| 0 <= i < |q| && !IsSpace(q[i]);
      var t := TrimStart(q);
      assert |t| > 0;
      assert !IsSpace(t[0]);
    }
  }

  /** A status entry as the view reads it; an absent flag reads as false
      and an absent error message prints as "undefined". */
  datatype ViewStatus = ViewStatus(isActive: bool, hasResponded: bool, isPending: bool, error: bool, errorMessage: Option<string>)

  /** The status map, entries in the order the server's map lists them:
      key insertion order, for the titles this model admits. */
  type StatusMap = seq<(string, ViewStatus)>

  /** The branch of the status-message chain an entry takes. */
  datatype Signal = Failed | Analyzing | Completed | Waiting | Silent

  function SignalOf(s: ViewStatus): Signal {
    if s.error then Failed
    else if s.isActive then Analyzing
    else if s.hasResponded && !s.isPending then Completed
    else if s.isPending then Waiting
    else Silent
  }

  /** The progress message of one entry, if any. */
  function Line(title: string, s: ViewStatus): (line: Option<string>)
    ensures line.None? <==> SignalOf(s) == Silent
  {
    match SignalOf(s)
    case Failed => Some(title + " encountered an error: " + s.errorMessage.GetOr("undefined"))
    case Analyzing => Some(title + " is now analyzing the query...")
    case Completed => Some(title + " has completed their analysis.")
    case Waiting => Some(title + " is waiting to be consulted...")
    case Silent => None
  }

  /** The entries that report something. */
  function Reporting(m: StatusMap): (n: nat)
    ensures n <= |m|
  {
    if |m| == 0 then 0 else (if SignalOf(m[0].1) == Silent then 0 else 1) + Reporting(m[1..])
  }

  /** The messages of a snapshot, entries in map order, silent ones
      dropped: one message per reporting entry. */
  function StatusLines(m: StatusMap): (lines: seq<string>)
    ensures |lines| == Reporting(m)
  {
    if |m| == 0 then []
    else
      match Line(m[0].0, m[0].1)
      case None => StatusLines(m[1..])
      case Some(l) => [l] + StatusLines(m[1..])
  }

  /** The chain's priority: an error outranks activity, activity outranks
      everything else, and a pending entry waits even when it has
      responded; an idle entry reports only once it has responded. */
  lemma StatusPriority(title: string, s: ViewStatus)
    ensures s.error ==> Line(title, s) == Some(title + " encountered an error: " + s.errorMessage.GetOr("undefined"))
    ensures !s.error && s.isActive ==> Line(title, s) == Some(title + " is now analyzing the query...")
    ensures !s.error && !s.isActive && s.isPending ==> Line(title, s) == Some(title + " is waiting to be consulted...")
    ensures !s.error && !s.isActive && !s.isPending ==>
      (s.hasResponded ==> Line(title, s) == Some(title + " has completed their analysis."))
      && (!s.hasResponded ==> Line(title, s) == None)
  {
  }

  /** A decoded payload as the listener reads it: `type`, the status map
      when one is carried, `executive` as it prints, the cost report, and
      whether `synthesis` is truthy. */
  datatype Received = Received(kind: string, statuses: Option<StatusMap>, executive: string,
    costReport: Option<StreamClient.ReportFields>, hasSynthesis: bool)

  datatype Decoded = Parsed(data: Received) | Unparsable

  /** The view's state: `isConsulting`, whether the event source is open,
      the map, the progress messages, the cost report and the synthesis. */
  datatype View = View(consulting: bool, open: bool, statuses: StatusMap, messages: seq<string>,
    costReport: Option<StreamClient.ReportFields>, synthesis: Option<Received>)

  const StartingMessage: string := "Starting consultation process..."
  const ConnectedMessage: string := "Connection established with server..."
  const CompleteMessage: string := "Consultation complete. Generating final synthesis..."
  const SynthesisMessage: string := "Final synthesis ready."
  const ParseErrorMessage: string := "Error parsing server response."
  const ConnectionErrorMessage: string := "Connection error. Please try again."

  /** The button is enabled only when nothing is loading or consulting and
      the query is not blank; a click on it therefore always finds the view
      not consulting, and always opens a fresh consultation whose log, once
      the source opens, holds the connection message alone. */
  function CanConsult(isLoading: bool, v: View, query: string): (ok: bool)
    ensures ok ==> !v.consulting
    ensures ok ==>
      var r := StartConsult(v, query);
      r.consulting && r.open && r.statuses == [] && OnOpen(r).messages == [ConnectedMessage]
    ensures ok <==> !isLoading && !v.consulting && exists i :: 0 <= i < |query| && !IsSpace(query[i])
  {
    BlankQuery(query);
    !isLoading && !v.consulting && Trim(query) != []
  }

  /** The writes of `handleConsult` before the event source opens. */
  function Begin(v: View): View {
    v.(consulting := true, open := true, synthesis := None, costReport := None, messages := [StartingMessage])
  }

  /** The effect that runs once `isConsulting` turns true: it clears the map
      and the messages. */
  function ClearOnConsulting(v: View): View {
    v.(statuses := [], messages := [])
  }

  /** `handleConsult`, which the button reaches only when the view is not
      consulting (see `CanConsult`): a blank query does nothing; any other
      opens the event source, and the effect that follows the change of
      `isConsulting` to true clears the map and the messages, the opening
      message with them. */
  function StartConsult(v: View, query: string): (r: View)
    requires !v.consulting
    ensures Trim(query) == [] ==> r == v
    ensures Trim(query) != [] ==>
      r.consulting && r.open && r.statuses == [] && r.messages == [] && r.synthesis.None? && r.costReport.None?
  {
    if Trim(query) == [] then v else ClearOnConsulting(Begin(v))
  }

  /** `onopen`: the connection message is appended and nothing else
      changes. */
  function OnOpen(v: View): (r: View)
    ensures r.messages == v.messages + [ConnectedMessage]
    ensures r.(messages := v.messages) == v
  {
    v.(messages := v.messages + [ConnectedMessage])
  }

  /** The `message` listener. */
  function OnMessage(v: View, data: string, decode: string -> Decoded): (r: View)
    ensures data == [] ==> r == v
    ensures data != [] && decode(data).Unparsable? ==>
      r == v.(messages := v.messages + [ParseErrorMessage], open := false, consulting := false)
    ensures data != [] && decode(data).Parsed? ==>
      var d := decode(data).data;
      r.statuses == (if d.statuses.Some? then d.statuses.value else v.statuses)
      && (r.open <==> v.open && d.kind != "final")
      && (r.consulting <==> v.consulting && d.kind != "final")
    ensures data != [] && decode(data).Parsed? ==>
      var d := decode(data).data;
      var shown := v.messages + (if d.statuses.Some? then StatusLines(d.statuses.value) else []);
      (d.kind == "response" ==> r.messages == shown + ["Got response from " + d.executive])
      && (d.kind == "final" ==>
            r.messages == shown + [CompleteMessage] + (if d.hasSynthesis then [SynthesisMessage] else [])
            && r.costReport == (if d.costReport.Some? then d.costReport else v.costReport)
            && r.synthesis == (if d.hasSynthesis then Some(d) else v.synthesis))
      && (d.kind != "response" && d.kind != "final" ==>
            r.messages == shown && r.costReport == v.costReport && r.synthesis == v.synthesis)
  {
    if data == [] then v
    else match decode(data)
      case Unparsable => v.(messages := v.messages + [ParseErrorMessage], open := false, consulting := false)
      case Parsed(d) =>
        var snap := if d.statuses.Some? then v.(statuses := d.statuses.value, messages := v.messages + StatusLines(d.statuses.value)) else v;
        if d.kind == "response" then snap.(messages := snap.messages + ["Got response from " + d.executive])
        else if d.kind == "final" then
          var noted := snap.(messages := snap.messages + [CompleteMessage]);
          var costed := if d.costReport.Some? then noted.(costReport := d.costReport) else noted;
          var synthesized := if d.hasSynthesis then costed.(synthesis := Some(d), messages := costed.messages + [SynthesisMessage]) else costed;
          synthesized.(open := false, consulting := false)
        else snap
  }

  /** The messages delivered in order; a closed source delivers nothing. */
  function Listen(v: View, datas: seq<string>, decode: string -> Decoded): (r: View)
    ensures !v.open ==> r == v
    decreases |datas|
  {
    if |datas| == 0 || !v.open then v else Listen(OnMessage(v, datas[0], decode), datas[1..], decode)
  }

  /** The map of the last snapshot among the messages, or `init` when none
      carries one. */
  function LastSnapshot(init: StatusMap, datas: seq<string>, decode: string -> Decoded): StatusMap
    decreases |datas|
  {
    if |datas| == 0 then init
    else
      var last := datas[|datas| - 1];
      if last != [] && decode(last).Parsed? && decode(last).data.statuses.Some? then decode(last).data.statuses.value
      else LastSnapshot(init, datas[..|datas| - 1], decode)
  }

  /** No message closes the source: every one is empty or parses into
      anything but a `final` event. */
  predicate NoClose(datas: seq<string>, decode: string -> Decoded) {
    forall i :: 0 <= i < |datas| ==> datas[i] == [] || (decode(datas[i]).Parsed? && decode(datas[i]).data.kind != "final")
  }

  lemma LastSnapshotCons(init: StatusMap, d: string, rest: seq<string>, decode: string -> Decoded)
    ensures LastSnapshot(init, [d] + rest, decode)
      == LastSnapshot(if d != [] && decode(d).Parsed? && decode(d).data.statuses.Some? then decode(d).data.statuses.value else init, rest, decode)
    decreases |rest|
  {
    var s := [d] + rest;
    if |rest| > 0 {
      assert s[..|s| - 1] == [d] + rest[..|rest| - 1];
      assert s[|s| - 1] == rest[|rest| - 1];
      LastSnapshotCons(init, d, rest[..|rest| - 1], decode);
    } else {
      assert s[..|s| - 1] == [];
    }
  }

  /** Last snapshot wins: as long as nothing closes the source, each
      status map replaces the whole previous one, and the source stays
      open and the view consulting. */
  lemma {:induction false} LastSnapshotWins(v: View, datas: seq<string>, decode: string -> Decoded)
    requires v.open && v.consulting && NoClose(datas, decode)
    ensures var r := Listen(v, datas, decode);
      r.statuses == LastSnapshot(v.statuses, datas, decode) && r.open && r.consulting
    decreases |datas|
  {
    if |datas| > 0 {
      var next := OnMessage(v, datas[0], decode);
      assert NoClose(datas[1..], decode) by {
        forall i | 0 <= i < |datas[1..]|
          ensures datas[1..][i] == [] || (decode(datas[1..][i]).Parsed? && decode(datas[1..][i]).data.kind != "final")
        {
          assert datas[1..][i] == datas[i + 1];
        }
      }
      LastSnapshotWins(next, datas[1..], decode);
      assert datas == [datas[0]] + datas[1..];
      LastSnapshotCons(v.statuses, datas[0], datas[1..], decode);
    }
  }

  /** An `error` event changes nothing: the view shows no message, keeps
      the source open and stays consulting. */
  lemma ErrorEventIgnored(v: View, data: string, decode: string -> Decoded)
    requires data != [] && decode(data) == Parsed(Received("error", None, "", None, false))
    ensures OnMessage(v, data, decode) == v
  {
  }

  /** A `final` event, or a payload that does not parse, closes the source
      and ends the consultation; no later message is delivered. */
  lemma FinalOrParseErrorCloses(v: View, data: string, rest: seq<string>, decode: string -> Decoded)
    requires data != [] && (decode(data).Unparsable? || decode(data).data.kind == "final")
    ensures var r := OnMessage(v, data, decode);
      !r.open && !r.consulting && Listen(r, rest, decode) == r
  {
  }

  /** The map a snapshot of the endpoint's statuses reads as: no entry is
      ever pending, and a missing error flag reads as false. */
  function MapOf(m: Consult.Statuses): (r: StatusMap)
    ensures |r| == |m|
    ensures forall i :: 0 <= i < |m| ==>
      r[i] == (m[i].title, ViewStatus(m[i].isActive, m[i].hasResponded, false, m[i].error, m[i].errorMessage))
  {
    if |m| == 0 then []
    else [(m[0].title, ViewStatus(m[0].isActive, m[0].hasResponded, false, m[0].error, m[0].errorMessage))] + MapOf(m[1..])
  }

  /** The endpoint never sends `isPending`, so no entry of its maps is ever
      "waiting to be consulted"; an executive entered as pending reports
      nothing at all, and a failed one reports its error message. */
  lemma EndpointMapsNeverWait(m: Consult.Statuses, title: string, message: string)
    ensures forall i :: 0 <= i < |MapOf(m)| ==> SignalOf(MapOf(m)[i].1) != Waiting
    ensures Line(title, MapOf([Consult.Pending(title)])[0].1) == None
    ensures forall i :: 0 <= i < |m| && m[i].title == title ==>
      var failed := MapOf(Consult.MarkFailed(m, title, message))[i];
      Line(failed.0, failed.1) == Some(title + " encountered an error: " + message)
  {
  }

  /** How the listener reads the endpoint's events; `falsy` tells whether a
      synthesis text parses to a falsy value (it is returned as parsed). */
  function ReceivedOf(e: Consult.Event, falsy: string -> bool): Received {
    match e
    case StatusEvent(m) => Received("status", Some(MapOf(m)), "", None, false)
    case ResponseEvent(executive, _, m) => Received("response", Some(MapOf(m)), executive, None, false)
    case FinalEvent(_, _, m, synthesis, report) =>
      Received("final", Some(MapOf(m)), "", Some(StreamClient.FieldsOf(report)),
        synthesis.usage.Some? || !falsy(synthesis.json))
    case ErrorEvent(_) => Received("error", None, "", None, false)
  }

  /** `encode` and `decode` agree on the events, and no payload is empty. */
  predicate Faithful(es: seq<Consult.Event>, encode: Consult.Event -> string, decode: string -> Decoded, falsy: string -> bool) {
    forall i :: 0 <= i < |es| ==> encode(es[i]) != [] && decode(encode(es[i])) == Parsed(ReceivedOf(es[i], falsy))
  }

  /** Status and response events never close the source. */
  lemma ProgressDoesNotClose(es: seq<Consult.Event>, encode: Consult.Event -> string, decode: string -> Decoded, falsy: string -> bool)
    requires Consult.AllProgressive(es) && Faithful(es, encode, decode, falsy)
    ensures NoClose(StreamClient.Encoded(es, encode), decode)
  {
    var ps := StreamClient.Encoded(es, encode);
    forall i | 0 <= i < |ps|
      ensures ps[i] == [] || (decode(ps[i]).Parsed? && decode(ps[i]).data.kind != "final")
    {
      assert Consult.Progressive(es[i]);
    }
  }

  lemma ListenSnoc(v: View, datas: seq<string>, d: string, decode: string -> Decoded)
    ensures Listen(v, datas + [d], decode) == Listen(Listen(v, datas, decode), [d], decode)
    decreases |datas|
  {
    if |datas| > 0 && v.open {
      assert (datas + [d])[0] == datas[0] && (datas + [d])[1..] == datas[1..] + [d];
      ListenSnoc(OnMessage(v, datas[0], decode), datas[1..], d, decode);
    } else if |datas| == 0 {
      assert datas + [d] == [d];
    }
  }

  /** What the view shows once it has listened to a well-formed stream:
      after `final` it is closed, no longer consulting, and shows the final
      event's map; after an `error` event it is still open and consulting,
      with no way out of the consultation. */
  lemma ViewAfterStream(v: View, o: Consult.Outcome, encode: Consult.Event -> string, decode: string -> Decoded, falsy: string -> bool)
    requires v.open && v.consulting
    requires Consult.WellFormedStream(o) && o.Streamed? && Faithful(o.events, encode, decode, falsy)
    ensures var r := Listen(v, StreamClient.Encoded(o.events, encode), decode);
      var last := o.events[|o.events| - 1];
      (last.FinalEvent? ==> !r.open && !r.consulting && r.statuses == MapOf(last.statuses))
      && (last.ErrorEvent? ==> r.open && r.consulting)
  {
    Consult.StreamedTail(o);
    ViewEnds(v, o.events, encode, decode, falsy);
  }

  /** `ViewAfterStream` for any events that progress up to the last. */
  lemma ViewEnds(v: View, es: seq<Consult.Event>, encode: Consult.Event -> string, decode: string -> Decoded, falsy: string -> bool)
    requires v.open && v.consulting
    requires |es| > 0 && Consult.AllProgressive(es[..|es| - 1]) && Faithful(es, encode, decode, falsy)
    ensures var r := Listen(v, StreamClient.Encoded(es, encode), decode);
      var last := es[|es| - 1];
      (last.FinalEvent? ==> !r.open && !r.consulting && r.statuses == MapOf(last.statuses))
      && (last.ErrorEvent? ==> r.open && r.consulting)
  {
    var init := es[..|es| - 1];
    var last := es[|es| - 1];
    var ps := StreamClient.Encoded(es, encode);
    assert ps == StreamClient.Encoded(init, encode) + [encode(last)];
    assert Faithful(init, encode, decode, falsy);
    ProgressDoesNotClose(init, encode, decode, falsy);
    LastSnapshotWins(v, StreamClient.Encoded(init, encode), decode);
    ListenSnoc(v, StreamClient.Encoded(init, encode), encode(last), decode);
  }

  /** The event source always issues a GET request. */
  const SourceMethod: string := "GET"

  /** The endpoint streams only for POST: the event source's request is
      refused with "method not allowed" before any event is written, so the
      listener never hears from it. */
  lemma SourceRequestRefused(env: Consult.Env, ledger: seq<CostLedger.UsageEvent>)
    ensures Consult.Handle(SourceMethod, env, ledger) == Consult.MethodNotAllowed
  {
  }

  /** `onerror`: the connection error message is appended; the source is
      not closed and the view keeps consulting. */
  function OnError(v: View): (r: View)
    ensures r.messages == v.messages + [ConnectionErrorMessage]
    ensures r.(messages := v.messages) == v
  {
    v.(messages := v.messages + [ConnectionErrorMessage])
  }

  /** The refused request fails the connection without opening it, so the
      only handler that runs is `onerror`: the started consultation shows
      the connection error alone, stays consulting, and the button stays
      disabled whatever the query. */
  lemma RefusedConsultationStaysConsulting(isLoading: bool, v: View, query: string,
                                           env: Consult.Env, ledger: seq<CostLedger.UsageEvent>)
    requires CanConsult(isLoading, v, query)
    ensures Consult.Handle(SourceMethod, env, ledger) == Consult.MethodNotAllowed
    ensures var r := OnError(StartConsult(v, query));
      r.consulting && r.messages == [ConnectionErrorMessage]
      && forall loading: bool, q: string :: !CanConsult(loading, r, q)
  {
    SourceRequestRefused(env, ledger);
  }

  /** The entry a card shows: the map's entry for the title, or the
      all-false default when the title is absent. */
  function Shown(m: StatusMap, title: string): (s: ViewStatus)
    ensures (forall i :: 0 <= i < |m| ==> m[i].0 != title) ==> s == ViewStatus(false, false, false, false, None)
    ensures forall i :: 0 <= i < |m| && m[i].0 == title && (forall j :: 0 <= j < i ==> m[j].0 != title) ==> s == m[i].1
  {
    if |m| == 0 then ViewStatus(false, false, false, false, None)
    else if m[0].0 == title then m[0].1
    else Shown(m[1..], title)
  }

  /** Some entry under `t` has responded. */
  predicate HasResponded(m: StatusMap, t: string) {
    exists i :: 0 <= i < |m| && m[i].0 == t && m[i].1.hasResponded
  }

  lemma HasRespondedCons(m: StatusMap, t: string)
    requires |m| > 0
    ensures HasResponded(m, t) <==> (m[0].0 == t && m[0].1.hasResponded) || HasResponded(m[1..], t)
  {
    if HasResponded(m, t) {
      var i :| 0 <= i < |m| && m[i].0 == t && m[i].1.hasResponded;
      if i > 0 {
        assert m[1..][i - 1] == m[i];
      }
    }
    if HasResponded(m[1..], t) {
      var i :| 0 <= i < |m[1..]| && m[1..][i].0 == t && m[1..][i].1.hasResponded;
      assert m[i + 1] == m[1..][i];
    }
  }

  /** The executives passed on as contributors: the keys whose entry has
      responded, in map order. */
  function Responded(m: StatusMap): (ts: seq<string>)
    ensures |ts| <= |m|
    ensures forall t :: t in ts <==> HasResponded(m, t)
  {
    if |m| == 0 then []
    else
      var rest := Responded(m[1..]);
      assert forall t :: HasResponded(m, t) <==> (m[0].0 == t && m[0].1.hasResponded) || HasResponded(m[1..], t) by {
        forall t
          ensures HasResponded(m, t) <==> (m[0].0 == t && m[0].1.hasResponded) || HasResponded(m[1..], t)
        {
          HasRespondedCons(m, t);
        }
      }
      if m[0].1.hasResponded then [m[0].0] + rest else rest
  }
}
