/** The home page's reading of the consultation stream: the body is cut
    into `data:` frames, each payload is decoded, and the page keeps the
    contributors (each executive once, in first-seen order), the cost
    summary of the `final` event and the message of an `error` event. The
    network read is one whole body, and `JSON.parse` is an oracle. As
    written nothing calls this reader: the page passes it to the suite view
    as `onConsult`, which the view never invokes; the model describes it for
    a caller that would. */
module StreamClient {
  import opened Basics
  import CostLedger
  import Consult

  const DataPrefix: string := "data: "
  const FrameEnd: string := "\n\n"

  /** What the endpoint writes for one payload. */
  function Frame(payload: string): string {
    DataPrefix + payload + FrameEnd
  }

  /** A response body: the frames of the payloads, one after the other. */
  function Body(payloads: seq<string>): (b: string)
    ensures |payloads| > 0 ==> b == Frame(payloads[0]) + Body(payloads[1..])
  {
    if |payloads| == 0 then "" else Frame(payloads[0]) + Body(payloads[1..])
  }

  /** `.filter(Boolean)` on strings: the empty ones go. */
  function NonEmpty(xs: seq<string>): (ys: seq<string>)
    ensures forall i :: 0 <= i < |ys| ==> ys[i] != []
    ensures forall x :: x in ys <==> x in xs && x != []
  {
    if |xs| == 0 then []
    else
      assert forall x :: x in xs <==> x == xs[0] || x in xs[1..];
      (if xs[0] == [] then [] else [xs[0]]) + NonEmpty(xs[1..])
  }

  /** The loop over the pieces: a piece that does not start with the
      prefix is skipped, any other loses its first `"data: "`. */
  function DataPayloads(pieces: seq<string>): (ps: seq<string>)
    ensures |ps| <= |pieces|
  {
    if |pieces| == 0 then []
    else (if DataPrefix <= pieces[0] then [ReplaceFirst(pieces[0], DataPrefix, "")] else []) + DataPayloads(pieces[1..])
  }

  /** The payloads a body yields: `text.split('\n\n').filter(Boolean)`,
      then the loop. */
  function Payloads(text: string): seq<string> {
    DataPayloads(NonEmpty(Split(text, FrameEnd)))
  }

  /** A payload that frames cleanly: it holds no blank line and does not
      end with a line break, as any `JSON.stringify` output does not. */
  predicate Framable(p: string) {
    !Contains(p, FrameEnd) && (|p| == 0 || p[|p| - 1] != '\n')
  }

  /** The first frame end of a frame followed by anything is the one that
      closes the frame. */
  lemma SplitFrame(p: string, rest: string)
    requires Framable(p)
    ensures Split(Frame(p) + rest, FrameEnd) == [DataPrefix + p] + Split(rest, FrameEnd)
  {
    var s := Frame(p) + rest;
    var n := |DataPrefix + p|;
    FrameEndsAt(p, rest);
    assert s == (DataPrefix + p) + (FrameEnd + rest);
    assert s[..n] == DataPrefix + p;
    assert s[n + |FrameEnd|..] == rest;
  }

  /** The first frame end in a frame followed by anything sits right
      after the payload. */
  lemma FrameEndsAt(p: string, rest: string)
    requires Framable(p)
    ensures IndexOf(Frame(p) + rest, FrameEnd) == |DataPrefix + p|
  {
    var s := Frame(p) + rest;
    var n := |DataPrefix + p|;
    assert s == (DataPrefix + p) + (FrameEnd + rest);
    assert MatchAt(s, FrameEnd, n) by {
      assert s[n..n + 2] == FrameEnd;
    }
    NoEarlyFrameEnd(p, rest);
  }

  lemma NoEarlyFrameEnd(p: string, rest: string)
    requires Framable(p)
    ensures forall j :: 0 <= j < |DataPrefix + p| ==> !MatchAt(Frame(p) + rest, FrameEnd, j)
  {
    var s := Frame(p) + rest;
    var n := |DataPrefix + p|;
    assert s == (DataPrefix + p) + (FrameEnd + rest);
    forall j | 0 <= j < n
      ensures !MatchAt(s, FrameEnd, j)
    {
      if j < |DataPrefix| {
        assert s[j..j + 2][0] == s[j] == DataPrefix[j];
      } else if j + 1 < n {
        assert s[j..j + 2] == p[j - 6..j - 4];
        assert !MatchAt(p, FrameEnd, j - 6);
      } else {
        assert s[j..j + 2][0] == s[j] == p[|p| - 1];
      }
    }
  }

  /** The prefixed pieces the frames of a body split into. */
  function Prefixed(ps: seq<string>): (pieces: seq<string>)
    ensures |pieces| == |ps| && forall i :: 0 <= i < |ps| ==> pieces[i] == DataPrefix + ps[i]
  {
    if |ps| == 0 then [] else [DataPrefix + ps[0]] + Prefixed(ps[1..])
  }

  lemma {:induction false} SplitBody(ps: seq<string>)
    requires forall i :: 0 <= i < |ps| ==> Framable(ps[i])
    ensures Split(Body(ps), FrameEnd) == Prefixed(ps) + [""]
    decreases |ps|
  {
    if |ps| == 0 {
      assert forall j :: !MatchAt("", FrameEnd, j);
    } else {
      SplitBody(ps[1..]);
      SplitFrame(ps[0], Body(ps[1..]));
    }
  }

  lemma {:induction false} ReadPrefixed(ps: seq<string>)
    ensures DataPayloads(NonEmpty(Prefixed(ps) + [""])) == ps
    decreases |ps|
  {
    if |ps| == 0 {
      assert Prefixed(ps) + [""] == [""];
      BlankIsDropped();
    } else {
      var xs := Prefixed(ps) + [""];
      assert xs[0] == DataPrefix + ps[0] && xs[1..] == Prefixed(ps[1..]) + [""];
      NonEmptyKeepsHead(xs);
      ReadPrefixed(ps[1..]);
      ReadOne(ps[0], NonEmpty(xs[1..]));
      assert ps == [ps[0]] + ps[1..];
    }
  }

  lemma BlankIsDropped()
    ensures DataPayloads(NonEmpty([""])) == []
  {
    var xs: seq<string> := [""];
    assert xs[0] == [] && xs[1..] == [];
  }

  lemma NonEmptyKeepsHead(xs: seq<string>)
    requires |xs| > 0 && xs[0] != []
    ensures NonEmpty(xs) == [xs[0]] + NonEmpty(xs[1..])
  {
  }

  /** A prefixed piece reads back as its payload. */
  lemma ReadOne(p: string, kept: seq<string>)
    ensures DataPayloads([DataPrefix + p] + kept) == [p] + DataPayloads(kept)
  {
    var ys := [DataPrefix + p] + kept;
    assert ys[0] == DataPrefix + p && ys[1..] == kept;
    assert DataPrefix <= ys[0] && ys[0][|DataPrefix|..] == p;
    assert ReplaceFirst(ys[0], DataPrefix, "") == p;
    assert DataPayloads(ys) == [ReplaceFirst(ys[0], DataPrefix, "")] + DataPayloads(ys[1..]);
  }

  /** Framing round trip: the page reads back exactly the payloads the
      endpoint framed, in order, as long as each payload frames cleanly. */
  lemma FrameRoundTrip(ps: seq<string>)
    requires forall i :: 0 <= i < |ps| ==> Framable(ps[i])
    ensures Payloads(Body(ps)) == ps
  {
    SplitBody(ps);
    ReadPrefixed(ps);
  }

  /** Without the line-break condition the round trip fails: a payload
      ending in a line break loses it, and the stray break is skipped. */
  lemma TrailingBreakIsLost()
    ensures Payloads(Body(["x\n"])) == ["x"]
  {
    assert forall j :: !MatchAt("x", FrameEnd, j);
    assert Body(["x\n"]) == Frame("x") + "\n";
    SplitFrame("x", "\n");
    assert forall j :: !MatchAt("\n", FrameEnd, j);
    assert Split("\n", FrameEnd) == ["\n"];
    assert DataPrefix + "x" == "data: x";
    var pieces: seq<string> := ["data: x", "\n"];
    assert Split(Body(["x\n"]), FrameEnd) == pieces;
    assert NonEmpty(pieces) == pieces by {
      assert pieces[1..] == ["\n"] && ["\n"][1..] == [];
    }
    assert DataPrefix <= pieces[0] && pieces[0][6..] == "x";
    assert !(DataPrefix <= "\n");
    assert pieces[1..] == ["\n"] && ["\n"][1..] == [];
    assert ReplaceFirst(pieces[0], DataPrefix, "") == "x";
    assert DataPayloads(pieces) == ["x"] + DataPayloads(["\n"]);
  }

  /** The four counters of the page's cost summary. */
  datatype CostSummary = CostSummary(tokens: real, cost: real, promptTokens: real, completionTokens: real)

  const ZeroSummary: CostSummary := CostSummary(0.0, 0.0, 0.0, 0.0)

  /** The fields of a decoded `costReport`; `None` stands for a missing or
      falsy field. */
  datatype ReportFields = ReportFields(
    totalTokens: Option<real>, totalCost: Option<real>, promptTokens: Option<real>, completionTokens: Option<real>)

  /** A decoded payload as the page reads it: `type`, `executive` (`""` when
      absent or falsy), `costReport` (`None` when absent) and `message`
      (`""` when absent or falsy). */
  datatype Data = Data(kind: string, executive: string, costReport: Option<ReportFields>, message: string)

  /** What `JSON.parse` does with a payload: the object, or the message of
      the `SyntaxError` it throws. */
  datatype Decoded = Parsed(data: Data) | Unparsable(message: string)

  /** The page's state. */
  datatype Page = Page(loading: bool, error: Option<string>, contributors: seq<string>, summary: CostSummary, response: Option<Data>)

  const DefaultError: string := "An error occurred"
  const FailedResponse: string := "Failed to get response"

  /** `message || fallback`. */
  function OrDefault(message: string, fallback: string): (r: string)
    ensures message != [] ==> r == message
    ensures message == [] ==> r == fallback
  {
    if message != [] then message else fallback
  }

  /** The start of `handleConsult`: loading, no error, no contributors and
      a zero summary; the last response stays until a `final` replaces it. */
  function Start(pg: Page): (r: Page)
    ensures r.loading && r.error == None && r.contributors == [] && r.summary == ZeroSummary
    ensures r.response == pg.response
  {
    pg.(loading := true, error := None, contributors := [], summary := ZeroSummary)
  }

  /** `prev.includes(x) ? prev : [...prev, x]`. */
  function AddIfAbsent(xs: seq<string>, x: string): (r: seq<string>)
    ensures x in xs ==> r == xs
    ensures x !in xs ==> r == xs + [x]
  {
    if x in xs then xs else xs + [x]
  }

  /** The summary a `final` event's report sets, each missing field as 0. */
  function SummaryOf(f: ReportFields): CostSummary {
    CostSummary(f.totalTokens.GetOr(0.0), f.totalCost.GetOr(0.0), f.promptTokens.GetOr(0.0), f.completionTokens.GetOr(0.0))
  }

  /** The `switch (data.type)`. */
  function Apply(pg: Page, d: Data): (r: Page)
    ensures d.kind !in {"response", "final", "error"} ==> r == pg
    ensures r.loading == pg.loading
    ensures r.contributors == (if d.kind == "response" && d.executive != "" then AddIfAbsent(pg.contributors, d.executive) else pg.contributors)
    ensures r.error == (if d.kind == "error" then Some(OrDefault(d.message, DefaultError)) else pg.error)
    ensures r.summary == (if d.kind == "final" && d.costReport.Some? then SummaryOf(d.costReport.value) else pg.summary)
    ensures r.response == (if d.kind == "final" then Some(d) else pg.response)
  {
    if d.kind == "response" then
      if d.executive != "" then pg.(contributors := AddIfAbsent(pg.contributors, d.executive)) else pg
    else if d.kind == "final" then
      var kept := pg.(response := Some(d));
      if d.costReport.Some? then kept.(summary := SummaryOf(d.costReport.value)) else kept
    else if d.kind == "error" then
      pg.(error := Some(OrDefault(d.message, DefaultError)))
    else pg
  }

  /** The events in order. */
  function ApplyAll(pg: Page, ds: seq<Data>): Page
    decreases |ds|
  {
    if |ds| == 0 then pg else ApplyAll(Apply(pg, ds[0]), ds[1..])
  }

  /** The data of the payloads up to the first one `JSON.parse` rejects. */
  function ParsedPrefix(payloads: seq<string>, decode: string -> Decoded): (ds: seq<Data>)
    ensures |ds| <= |payloads|
    ensures forall i :: 0 <= i < |ds| ==> decode(payloads[i]) == Parsed(ds[i])
    ensures |ds| < |payloads| ==> decode(payloads[|ds|]).Unparsable?
  {
    if |payloads| == 0 then []
    else match decode(payloads[0])
      case Unparsable(_) => []
      case Parsed(d) => [d] + ParsedPrefix(payloads[1..], decode)
  }

  /** The message of the first payload `JSON.parse` rejects, if any. */
  function FirstFailure(payloads: seq<string>, decode: string -> Decoded): (f: Option<string>)
    ensures f.None? <==> forall i :: 0 <= i < |payloads| ==> decode(payloads[i]).Parsed?
  {
    if |payloads| == 0 then None
    else match decode(payloads[0])
      case Unparsable(m) => Some(m)
      case Parsed(_) => FirstFailure(payloads[1..], decode)
  }

  /** The loop over the payloads: a payload that does not parse throws out
      of the loop, so no later payload is read. */
  datatype Run = Run(page: Page, thrown: Option<string>)

  function Consume(pg: Page, payloads: seq<string>, decode: string -> Decoded): (r: Run)
    ensures r.page == ApplyAll(pg, ParsedPrefix(payloads, decode))
    ensures r.thrown == FirstFailure(payloads, decode)
    ensures r.thrown.None? <==> |ParsedPrefix(payloads, decode)| == |payloads|
    decreases |payloads|
  {
    if |payloads| == 0 then Run(pg, None)
    else match decode(payloads[0])
      case Unparsable(m) => Run(pg, Some(m))
      case Parsed(d) =>
        assert ParsedPrefix(payloads, decode) == [d] + ParsedPrefix(payloads[1..], decode);
        assert ([d] + ParsedPrefix(payloads[1..], decode))[1..] == ParsedPrefix(payloads[1..], decode);
        Consume(Apply(pg, d), payloads[1..], decode)
  }

  /** `handleConsult` after the request: a failed response throws
      `error.message || 'Failed to get response'`; a response without a body
      stops; otherwise the payloads of the body are read. A throw sets the
      error, and loading ends in every case. */
  function HandleConsult(pg: Page, ok: bool, failure: string, body: Option<string>, decode: string -> Decoded): (r: Page)
    ensures !r.loading
    ensures !ok ==> r == Start(pg).(loading := false, error := Some(OrDefault(failure, FailedResponse)))
    ensures ok && body.None? ==> r == Start(pg).(loading := false)
  {
    var started := Start(pg);
    if !ok then started.(loading := false, error := Some(OrDefault(OrDefault(failure, FailedResponse), DefaultError)))
    else match body
      case None => started.(loading := false)
      case Some(text) =>
        var run := Consume(started, Payloads(text), decode);
        match run.thrown
        case None => run.page.(loading := false)
        case Some(m) => run.page.(loading := false, error := Some(OrDefault(m, DefaultError)))
  }

  /** The executive a `response` event with a truthy `executive` adds. */
  function NamesOf(d: Data): seq<string> {
    if d.kind == "response" && d.executive != "" then [d.executive] else []
  }

  /** The executives of the `response` events with a truthy `executive`,
      in order, repeats included. */
  function Responders(ds: seq<Data>): (names: seq<string>)
    ensures forall x :: x in names ==> x != ""
    decreases |ds|
  {
    if |ds| == 0 then [] else NamesOf(ds[0]) + Responders(ds[1..])
  }

  /** `xs` without any occurrence of `x`. */
  function Remove(xs: seq<string>, x: string): (r: seq<string>)
    ensures |r| <= |xs|
    ensures forall y :: y in r <==> y in xs && y != x
  {
    if |xs| == 0 then []
    else
      assert forall y :: y in xs <==> y == xs[0] || y in xs[1..];
      (if xs[0] == x then [] else [xs[0]]) + Remove(xs[1..], x)
  }

  /** The first occurrence of each element, in order: the head, then the
      rest with the head struck out. */
  function FirstSeen(xs: seq<string>): (r: seq<string>)
    ensures forall y :: y in r <==> y in xs
    decreases |xs|
  {
    if |xs| == 0 then []
    else
      assert forall y :: y in xs <==> y == xs[0] || y in xs[1..];
      [xs[0]] + FirstSeen(Remove(xs[1..], xs[0]))
  }

  predicate Distinct(xs: seq<string>) {
    forall i, j :: 0 <= i < j < |xs| ==> xs[i] != xs[j]
  }

  lemma {:induction false} FirstSeenDistinct(xs: seq<string>)
    ensures Distinct(FirstSeen(xs))
    decreases |xs|
  {
    if |xs| > 0 {
      var rest := Remove(xs[1..], xs[0]);
      FirstSeenDistinct(rest);
      var r := FirstSeen(xs);
      forall i, j | 0 <= i < j < |r|
        ensures r[i] != r[j]
      {
        assert r[j] == FirstSeen(rest)[j - 1] && r[j] in FirstSeen(rest);
        if i > 0 {
          assert r[i] == FirstSeen(rest)[i - 1];
        }
      }
    }
  }

  lemma {:induction false} RemoveAppend(xs: seq<string>, ys: seq<string>, x: string)
    ensures Remove(xs + ys, x) == Remove(xs, x) + Remove(ys, x)
    decreases |xs|
  {
    if |xs| > 0 {
      var head := if xs[0] == x then [] else [xs[0]];
      assert (xs + ys)[0] == xs[0] && (xs + ys)[1..] == xs[1..] + ys;
      assert Remove(xs + ys, x) == head + Remove(xs[1..] + ys, x);
      RemoveAppend(xs[1..], ys, x);
      assert Remove(xs, x) == head + Remove(xs[1..], x);
    } else {
      assert xs + ys == ys;
    }
  }

  /** Appending an element adds it at the end exactly when it is new. */
  lemma {:induction false} FirstSeenSnoc(xs: seq<string>, x: string)
    ensures FirstSeen(xs + [x]) == if x in xs then FirstSeen(xs) else FirstSeen(xs) + [x]
    decreases |xs|
  {
    if |xs| == 0 {
      assert FirstSeen([x]) == [x] + FirstSeen(Remove([], x));
    } else {
      var a := xs[0];
      assert (xs + [x])[0] == a && (xs + [x])[1..] == xs[1..] + [x];
      RemoveAppend(xs[1..], [x], a);
      var t := Remove(xs[1..], a);
      if x == a {
        assert Remove([x], a) == [];
        assert Remove(xs[1..] + [x], a) == t;
      } else {
        assert Remove([x], a) == [x] + Remove([], a);
        assert Remove(xs[1..] + [x], a) == t + [x];
        FirstSeenSnoc(t, x);
        assert x in t <==> x in xs;
      }
    }
  }

  /** One event of the run: the contributors stay a first-seen list. */
  lemma ContributorStep(pg: Page, d: Data, before: seq<string>)
    requires pg.contributors == FirstSeen(before)
    ensures Apply(pg, d).contributors == FirstSeen(before + NamesOf(d))
  {
    if NamesOf(d) == [] {
      assert before + NamesOf(d) == before;
    } else {
      FirstSeenSnoc(before, d.executive);
    }
  }

  lemma Regroup(a: seq<string>, b: seq<string>, c: seq<string>)
    ensures (a + b) + c == a + (b + c)
  {
  }

  /** The contributors after a run of events: the first occurrence of each
      responding executive, whatever the page showed before, as long as it
      was itself such a first-seen list. */
  lemma {:induction false} ContributorsFromStart(pg: Page, ds: seq<Data>, before: seq<string>)
    requires pg.contributors == FirstSeen(before)
    ensures ApplyAll(pg, ds).contributors == FirstSeen(before + Responders(ds))
    decreases |ds|
  {
    if |ds| == 0 {
      assert before + Responders(ds) == before;
    } else {
      var next := Apply(pg, ds[0]);
      ContributorStep(pg, ds[0], before);
      ContributorsFromStart(next, ds[1..], before + NamesOf(ds[0]));
      Regroup(before, NamesOf(ds[0]), Responders(ds[1..]));
    }
  }

  /** The contributors after a successful request: each executive that
      answered, once, in the order of its first answer, up to the first
      payload that does not parse. */
  lemma ContributorsInFirstSeenOrder(pg: Page, failure: string, body: string, decode: string -> Decoded)
    ensures var names := Responders(ParsedPrefix(Payloads(body), decode));
      var r := HandleConsult(pg, true, failure, Some(body), decode);
      r.contributors == FirstSeen(names) && Distinct(r.contributors)
      && forall x :: x in r.contributors <==> x in names
  {
    var ds := ParsedPrefix(Payloads(body), decode);
    assert FirstSeen([]) == [];
    ContributorsFromStart(Start(pg), ds, []);
    assert [] + Responders(ds) == Responders(ds);
    FirstSeenDistinct(Responders(ds));
  }

  /** The events in order, one more at the end. */
  lemma {:induction false} ApplyAllSnoc(pg: Page, ds: seq<Data>, d: Data)
    ensures ApplyAll(pg, ds + [d]) == Apply(ApplyAll(pg, ds), d)
    decreases |ds|
  {
    if |ds| == 0 {
      assert [] + [d] == [d];
    } else {
      assert (ds + [d])[0] == ds[0] && (ds + [d])[1..] == ds[1..] + [d];
      ApplyAllSnoc(Apply(pg, ds[0]), ds[1..], d);
    }
  }

  /** The page's reading of the endpoint's events: `JSON.stringify` output
      decoded back into the fields the page reads. */
  function DataOf(e: Consult.Event): Data {
    match e
    case StatusEvent(_) => Data("status", "", None, "")
    case ResponseEvent(executive, _, _) => Data("response", executive, None, "")
    case FinalEvent(_, _, _, _, report) => Data("final", "", Some(FieldsOf(report)), "")
    case ErrorEvent(message) => Data("error", "", None, message)
  }

  /** A report's four totals, each present. */
  function FieldsOf(r: CostLedger.Report): ReportFields {
    ReportFields(Some(r.totalTokens as real), Some(r.totalCost), Some(r.promptTokens as real), Some(r.completionTokens as real))
  }

  function DataOfAll(es: seq<Consult.Event>): (ds: seq<Data>)
    ensures |ds| == |es| && forall i :: 0 <= i < |es| ==> ds[i] == DataOf(es[i])
  {
    seq(|es|, i requires 0 <= i < |es| => DataOf(es[i]))
  }

  /** The payloads the endpoint writes for its events. */
  function Encoded(es: seq<Consult.Event>, encode: Consult.Event -> string): (ps: seq<string>)
    ensures |ps| == |es| && forall i :: 0 <= i < |es| ==> ps[i] == encode(es[i])
  {
    if |es| == 0 then [] else [encode(es[0])] + Encoded(es[1..], encode)
  }

  /** `encode` and `decode` agree on the events: every payload frames
      cleanly and parses back into the event's fields. */
  predicate Faithful(es: seq<Consult.Event>, encode: Consult.Event -> string, decode: string -> Decoded) {
    forall i :: 0 <= i < |es| ==> Framable(encode(es[i])) && decode(encode(es[i])) == Parsed(DataOf(es[i]))
  }

  lemma FaithfulParses(es: seq<Consult.Event>, encode: Consult.Event -> string, decode: string -> Decoded)
    requires Faithful(es, encode, decode)
    ensures ParsedPrefix(Encoded(es, encode), decode) == DataOfAll(es)
    ensures FirstFailure(Encoded(es, encode), decode) == None
  {
    var ps := Encoded(es, encode);
    assert forall i :: 0 <= i < |ps| ==> decode(ps[i]) == Parsed(DataOf(es[i]));
    var ds := ParsedPrefix(ps, decode);
    assert |ds| == |ps|;
    forall i | 0 <= i < |ds|
      ensures ds[i] == DataOfAll(es)[i]
    {
      assert decode(ps[i]) == Parsed(ds[i]);
    }
  }

  /** The page reads a streamed request as the endpoint's events, in order. */
  lemma PageReadsTheStream(pg: Page, es: seq<Consult.Event>, encode: Consult.Event -> string, decode: string -> Decoded)
    requires Faithful(es, encode, decode)
    ensures HandleConsult(pg, true, "", Some(Body(Encoded(es, encode))), decode)
      == ApplyAll(Start(pg), DataOfAll(es)).(loading := false)
  {
    var ps := Encoded(es, encode);
    FrameRoundTrip(ps);
    FaithfulParses(es, encode, decode);
  }

  /** Status and response events leave the error and the summary alone. */
  lemma {:induction false} ProgressKeepsErrorAndSummary(pg: Page, es: seq<Consult.Event>)
    requires Consult.AllProgressive(es)
    ensures ApplyAll(pg, DataOfAll(es)).error == pg.error
    ensures ApplyAll(pg, DataOfAll(es)).summary == pg.summary
    decreases |es|
  {
    if |es| > 0 {
      assert Consult.Progressive(es[0]);
      assert DataOfAll(es)[1..] == DataOfAll(es[1..]);
      assert Consult.AllProgressive(es[1..]) by {
        forall i | 0 <= i < |es[1..]|
          ensures Consult.Progressive(es[1..][i])
        {
          assert es[1..][i] == es[i + 1];
        }
      }
      ProgressKeepsErrorAndSummary(Apply(pg, DataOf(es[0])), es[1..]);
    }
  }

  lemma DataOfAllSnoc(es: seq<Consult.Event>)
    requires |es| > 0
    ensures DataOfAll(es) == DataOfAll(es[..|es| - 1]) + [DataOf(es[|es| - 1])]
  {
    var init := es[..|es| - 1];
    var a, b := DataOfAll(es), DataOfAll(init) + [DataOf(es[|es| - 1])];
    forall i | 0 <= i < |a|
      ensures a[i] == b[i]
    {
      if i < |init| {
        assert b[i] == DataOfAll(init)[i] && init[i] == es[i];
      }
    }
  }

  /** The page after a run of status and response events and one last
      event. */
  lemma EndsWith(pg: Page, es: seq<Consult.Event>)
    requires |es| > 0 && Consult.AllProgressive(es[..|es| - 1])
    ensures var r := ApplyAll(pg, DataOfAll(es));
      var last := es[|es| - 1];
      r.error == (if last.ErrorEvent? then Some(OrDefault(last.message, DefaultError)) else pg.error)
      && r.summary == (if last.FinalEvent? then SummaryOf(FieldsOf(last.costReport)) else pg.summary)
  {
    var init := es[..|es| - 1];
    DataOfAllSnoc(es);
    ApplyAllSnoc(pg, DataOfAll(init), DataOf(es[|es| - 1]));
    ProgressKeepsErrorAndSummary(pg, init);
  }

  /** What the page shows once a well-formed stream has been read: after a
      `final` event, no error and the totals of its report; after an
      `error` event, that event's message or the default text. */
  lemma StreamEndsOnThePage(pg: Page, o: Consult.Outcome, encode: Consult.Event -> string, decode: string -> Decoded)
    requires Consult.WellFormedStream(o) && o.Streamed?
    requires Faithful(o.events, encode, decode)
    ensures var r := HandleConsult(pg, true, "", Some(Body(Encoded(o.events, encode))), decode);
      var last := o.events[|o.events| - 1];
      (last.FinalEvent? ==>
        (r.error == None
         && r.summary == CostSummary(last.costReport.totalTokens as real, last.costReport.totalCost,
              last.costReport.promptTokens as real, last.costReport.completionTokens as real)))
      && (last.ErrorEvent? ==> r.error == Some(OrDefault(last.message, DefaultError)))
  {
    Consult.StreamedTail(o);
    PageEnds(pg, o.events, encode, decode);
  }

  /** `StreamEndsOnThePage` for any events that progress up to the last. */
  lemma PageEnds(pg: Page, es: seq<Consult.Event>, encode: Consult.Event -> string, decode: string -> Decoded)
    requires |es| > 0 && Consult.AllProgressive(es[..|es| - 1])
    requires Faithful(es, encode, decode)
    ensures var r := HandleConsult(pg, true, "", Some(Body(Encoded(es, encode))), decode);
      var last := es[|es| - 1];
      (last.FinalEvent? ==>
        (r.error == None
         && r.summary == CostSummary(last.costReport.totalTokens as real, last.costReport.totalCost,
              last.costReport.promptTokens as real, last.costReport.completionTokens as real)))
      && (last.ErrorEvent? ==> r.error == Some(OrDefault(last.message, DefaultError)))
  {
    PageReadsTheStream(pg, es, encode, decode);
    EndsWith(Start(pg), es);
    var last := es[|es| - 1];
    if last.FinalEvent? {
      ReportShown(last.costReport);
    }
  }

  /** A report's totals reach the summary unchanged. */
  lemma ReportShown(report: CostLedger.Report)
    ensures SummaryOf(FieldsOf(report)) == CostSummary(report.totalTokens as real, report.totalCost,
      report.promptTokens as real, report.completionTokens as real)
  {
  }
}
