/** The line-by-line meter against the events a client parses. */
module Metering {
  import opened Core
  import opened Sse
  import opened Forwarding
  import opened Meter

  /** Metering event by event: each payload is read under its own event's type. */
  function EventReport(dec: Decoder, provider: Provider, e: Event): Report {
    PayloadReport(dec, provider, Trim(e.data), Trim(e.kind))
  }

  function UsageOfEvents(dec: Decoder, provider: Provider, u: Metered, es: seq<Event>): Metered
    decreases |es|
  {
    if es == [] then u else UsageOfEvents(dec, provider, Apply(u, EventReport(dec, provider, es[0])), es[1..])
  }

  lemma {:induction false} UsageOfEventsAppend(dec: Decoder, provider: Provider, u: Metered, es: seq<Event>,
                                               more: seq<Event>)
    ensures UsageOfEvents(dec, provider, u, es + more)
         == UsageOfEvents(dec, provider, UsageOfEvents(dec, provider, u, es), more)
    decreases |es|
  {
    if es == [] {
      assert es + more == more;
    } else {
      assert (es + more)[1..] == es[1..] + more;
      UsageOfEventsAppend(dec, provider, Apply(u, EventReport(dec, provider, es[0])), es[1..], more);
    }
  }

  // ---- Payloads, as the loop and as the client reads them ----

  /** One data field: its text, and the event type it is read under. */
  datatype Payload = Payload(text: string, kind: string)

  function ReportsOf(dec: Decoder, provider: Provider, ps: seq<Payload>): (rs: seq<Report>)
    ensures |rs| == |ps|
  {
    seq(|ps|, i requires 0 <= i < |ps| => PayloadReport(dec, provider, ps[i].text, ps[i].kind))
  }

  /** For the loop every data field is a payload, under the type of the last `event:` line. */
  function LoopPayloads(last: string, lines: seq<string>): seq<Payload>
    decreases |lines|
  {
    if lines == [] then []
    else
      var kind := NextKind(last, lines[0]);
      (if FieldName(lines[0]) == "data" then [Payload(Trim(FieldValue(lines[0])), kind)] else [])
      + LoopPayloads(kind, lines[1..])
  }

  /** For the client every event is one, under its own type. */
  function EventPayloads(es: seq<Event>): (ps: seq<Payload>)
    ensures |ps| == |es|
  {
    seq(|es|, i requires 0 <= i < |es| => Payload(Trim(es[i].data), Trim(es[i].kind)))
  }

  /** The loop's usage is what its payloads report, on any lines. */
  lemma {:induction false} LoopUsage(dec: Decoder, provider: Provider, st: MeterState, lines: seq<string>)
    ensures MeterLines(dec, provider, st, lines).usage
         == ApplyAll(st.usage, ReportsOf(dec, provider, LoopPayloads(st.last, lines)))
    decreases |lines|
  {
    if lines != [] {
      var line, st', kind := lines[0], MeterLine(dec, provider, st, lines[0]), NextKind(st.last, lines[0]);
      LoopUsage(dec, provider, st', lines[1..]);
      FieldsAreLines(line);
      assert Trim("") == "";
      if FieldName(line) == "data" {
        FirstReport(dec, provider, Payload(Trim(FieldValue(line)), kind), LoopPayloads(kind, lines[1..]));
      } else {
        assert [] + LoopPayloads(kind, lines[1..]) == LoopPayloads(kind, lines[1..]);
      }
    }
  }

  lemma FirstReport(dec: Decoder, provider: Provider, p: Payload, ps: seq<Payload>)
    ensures ReportsOf(dec, provider, [p] + ps)
         == [PayloadReport(dec, provider, p.text, p.kind)] + ReportsOf(dec, provider, ps)
  {
  }

  /** The usage of events is what their payloads report. */
  lemma {:induction false} EventUsage(dec: Decoder, provider: Provider, u: Metered, es: seq<Event>)
    ensures UsageOfEvents(dec, provider, u, es) == ApplyAll(u, ReportsOf(dec, provider, EventPayloads(es)))
    decreases |es|
  {
    if es != [] {
      EventUsage(dec, provider, Apply(u, EventReport(dec, provider, es[0])), es[1..]);
      assert EventPayloads(es) == [EventPayloads(es)[0]] + EventPayloads(es[1..]);
      FirstReport(dec, provider, EventPayloads(es)[0], EventPayloads(es[1..]));
    }
  }

  // ---- One data line an event ----

  /** No event has two data lines; `open` tells whether the current one has its own already. */
  predicate OneDataEach(open: bool, lines: seq<string>)
    decreases |lines|
  {
    lines == [] ||
    ((FieldName(lines[0]) == "data" ==> !open) &&
     OneDataEach(lines[0] != "" && (open || FieldName(lines[0]) == "data"), lines[1..]))
  }

  /** The payload that the buffers would dispatch. */
  function Pending(b: Buffers): seq<Payload> {
    EventPayloads(Dispatch(b))
  }

  lemma PayloadsInFront(es: seq<Event>, more: seq<Event>)
    ensures EventPayloads(es + more) == EventPayloads(es) + EventPayloads(more)
  {
  }

  /** Two lists of payloads, in step. */
  ghost predicate Paired(alike: (Payload, Payload) -> bool, loop: seq<Payload>, client: seq<Payload>) {
    |loop| == |client| && forall i :: 0 <= i < |loop| ==> alike(loop[i], client[i])
  }

  /** What the client still reads from these lines, ended by the closing blank line. */
  function ClientPayloads(b: Buffers, lines: seq<string>): seq<Payload> {
    EventPayloads(Events(b, lines + [""]))
  }

  lemma OnlyBlank(b: Buffers)
    ensures ClientPayloads(b, []) == Pending(b)
  {
    assert ([] + [""])[1..] == [];
    assert Events(b, [] + [""]) == Dispatch(b);
  }

  lemma NextLine(b: Buffers, lines: seq<string>)
    requires lines != []
    ensures ClientPayloads(b, lines)
         == EventPayloads(Emitted(b, lines[0])) + ClientPayloads(After(b, lines[0]), lines[1..])
  {
    assert (lines + [""])[1..] == lines[1..] + [""];
    PayloadsInFront(Emitted(b, lines[0]), Events(After(b, lines[0]), lines[1..] + [""]));
  }

  lemma BlankLine(b: Buffers, last: string, lines: seq<string>)
    requires lines != [] && lines[0] == ""
    ensures ClientPayloads(b, lines) == Pending(b) + ClientPayloads(After(b, ""), lines[1..])
    ensures Pending(After(b, "")) == []
    ensures LoopPayloads(last, lines) == LoopPayloads(last, lines[1..])
  {
    NextLine(b, lines);
    assert FieldName("") == "";
  }

  lemma DataLine(b: Buffers, last: string, lines: seq<string>)
    requires lines != [] && FieldName(lines[0]) == "data" && b.data == ""
    ensures var b', text := After(b, lines[0]), Trim(FieldValue(lines[0]));
      && ClientPayloads(b, lines) == ClientPayloads(b', lines[1..])
      && LoopPayloads(last, lines) == [Payload(text, last)] + LoopPayloads(last, lines[1..])
      && Pending(b) == [] && Pending(b') == [Payload(text, KindOf(b))] && b'.data != "" && b'.kind == b.kind
  {
    var line, b' := lines[0], After(b, lines[0]);
    NextLine(b, lines);
    FieldsAreLines(line);
    assert b'.data == FieldValue(line) + "\n";
    assert Dispatch(b') == [Event(if b.kind == "" then "message" else b.kind, FieldValue(line), b'.id)];
    assert [] + ClientPayloads(b', lines[1..]) == ClientPayloads(b', lines[1..]);
  }

  lemma OtherLine(b: Buffers, last: string, lines: seq<string>)
    requires lines != [] && lines[0] != "" && FieldName(lines[0]) != "data"
    ensures var b', kind := After(b, lines[0]), NextKind(last, lines[0]);
      && ClientPayloads(b, lines) == ClientPayloads(b', lines[1..])
      && LoopPayloads(last, lines) == LoopPayloads(kind, lines[1..])
      && b'.data == b.data && |Pending(b')| == |Pending(b)|
      && (forall i :: 0 <= i < |Pending(b)| ==> Pending(b')[i].text == Pending(b)[i].text)
      && (FieldName(lines[0]) != "event" ==> b'.kind == b.kind && kind == last)
  {
    var b', kind := After(b, lines[0]), NextKind(last, lines[0]);
    NextLine(b, lines);
    FieldsAreLines(lines[0]);
    assert [] + ClientPayloads(b', lines[1..]) == ClientPayloads(b', lines[1..]);
    assert [] + LoopPayloads(kind, lines[1..]) == LoopPayloads(kind, lines[1..]);
  }

  /** The type that the event in the buffers has if no event field follows. */
  function KindOf(b: Buffers): string {
    Trim(if b.kind == "" then "message" else b.kind)
  }

  /** The loop's payloads, `mine` for the event in the buffers included, pair up with the client's. */
  ghost predicate PairedFrom(alike: (Payload, Payload) -> bool, b: Buffers, last: string, mine: seq<Payload>,
                             lines: seq<string>) {
    Paired(alike, mine + LoopPayloads(last, lines), ClientPayloads(b, lines))
  }

  lemma PairedBlank(alike: (Payload, Payload) -> bool, b: Buffers, last: string, mine: seq<Payload>, lines: seq<string>)
    requires lines != [] && lines[0] == "" && Paired(alike, mine, Pending(b))
    requires PairedFrom(alike, After(b, ""), last, [], lines[1..])
    ensures PairedFrom(alike, b, last, mine, lines)
  {
    BlankLine(b, last, lines);
    PairedInFront(alike, mine, Pending(b), LoopPayloads(last, lines[1..]), ClientPayloads(After(b, ""), lines[1..]));
  }

  lemma PairedInFront(alike: (Payload, Payload) -> bool, loop: seq<Payload>, client: seq<Payload>, loop': seq<Payload>,
                      client': seq<Payload>)
    requires Paired(alike, loop, client) && Paired(alike, [] + loop', client')
    ensures Paired(alike, loop + loop', client + client')
  {
    assert [] + loop' == loop';
    var n, all, all' := |loop|, loop + loop', client + client';
    forall i | 0 <= i < |all|
      ensures alike(all[i], all'[i])
    {
      if i < n {
        assert alike(loop[i], client[i]);
      } else {
        assert alike(loop'[i - n], client'[i - n]);
      }
    }
  }

  lemma PairedData(alike: (Payload, Payload) -> bool, b: Buffers, last: string, lines: seq<string>)
    requires lines != [] && FieldName(lines[0]) == "data" && b.data == ""
    requires PairedFrom(alike, After(b, lines[0]), last, [Payload(Trim(FieldValue(lines[0])), last)], lines[1..])
    ensures PairedFrom(alike, b, last, [], lines)
  {
    DataLine(b, last, lines);
    assert [] + LoopPayloads(last, lines) == LoopPayloads(last, lines);
  }

  lemma PairedOther(alike: (Payload, Payload) -> bool, b: Buffers, last: string, mine: seq<Payload>, lines: seq<string>)
    requires lines != [] && lines[0] != "" && FieldName(lines[0]) != "data"
    requires PairedFrom(alike, After(b, lines[0]), NextKind(last, lines[0]), mine, lines[1..])
    ensures PairedFrom(alike, b, last, mine, lines)
  {
    OtherLine(b, last, lines);
  }

  function SameText(): (Payload, Payload) -> bool {
    (p: Payload, q: Payload) => p.text == q.text
  }

  /** The client's events carry the data lines' texts, in order; the closing blank line dispatches the last. */
  lemma {:induction false} SameTexts(b: Buffers, last: string, mine: seq<Payload>, lines: seq<string>)
    requires OneDataEach(b.data != "", lines) && Paired(SameText(), mine, Pending(b))
    ensures PairedFrom(SameText(), b, last, mine, lines)
    decreases |lines|
  {
    if lines == [] {
      OnlyBlank(b);
      assert mine + LoopPayloads(last, lines) == mine;
    } else {
      var line := lines[0];
      var b', kind := After(b, line), NextKind(last, line);
      assert FieldName("") == "";
      if line == "" {
        BlankLine(b, last, lines);
        SameTexts(b', last, [], lines[1..]);
        PairedBlank(SameText(), b, last, mine, lines);
      } else if FieldName(line) == "data" {
        DataLine(b, last, lines);
        SameTexts(b', last, [Payload(Trim(FieldValue(line)), last)], lines[1..]);
        PairedData(SameText(), b, last, lines);
      } else {
        OtherLine(b, last, lines);
        SameTexts(b', kind, mine, lines[1..]);
        PairedOther(SameText(), b, last, mine, lines);
      }
    }
  }

  /** A prefix test is a field test, and trimming forgets the optional space. */
  lemma FieldIsPrefix(line: string, name: string)
    requires ':' !in name
    ensures name + ":" <= line <==> FieldName(line) == name && Has(line, ':')
    ensures name + ":" <= line ==> Trim(FieldValue(line)) == Trim(line[|name| + 1..])
    ensures FieldName(line) == name && !(name + ":" <= line) ==> FieldValue(line) == ""
  {
    if name + ":" <= line {
      ColonAt(line, name);
      TrimSpaceFirst(line[|name| + 1..]);
    } else if FieldName(line) == name && Has(line, ':') {
      NameAndColon(line);
      assert false;
    }
  }

  lemma ColonAt(line: string, name: string)
    requires ':' !in name && name + ":" <= line
    ensures IndexOf(line, ':') == |name| < |line| && line[..|name|] == name
  {
    var prefix := name + ":";
    assert line[|name|] == prefix[|name|];
    assert forall k :: 0 <= k < |name| ==> line[k] == prefix[k] == name[k] && name[k] in name;
  }

  lemma NameAndColon(line: string)
    requires Has(line, ':')
    ensures FieldName(line) + ":" <= line
  {
  }

  lemma TrimSpaceFirst(v: string)
    ensures v != "" && v[0] == ' ' ==> Trim(v[1..]) == Trim(v)
  {
  }

  /** The loop's two prefix tests are the parser's two fields. */
  lemma FieldsAreLines(line: string)
    ensures "event:" <= line ==> FieldName(line) == "event" && Trim(FieldValue(line)) == Trim(line[6..])
    ensures "data:" <= line ==> FieldName(line) == "data" && Trim(FieldValue(line)) == Trim(line[5..])
    ensures FieldName(line) == "data" && !("data:" <= line) ==> FieldValue(line) == ""
    ensures FieldName(line) == "data" ==> line != "" && !("event:" <= line)
  {
    assert "event" + ":" == "event:" && "data" + ":" == "data:";
    FieldIsPrefix(line, "event");
    FieldIsPrefix(line, "data");
  }

  /** Lines without CR are the client's lines too, and the extra line feed is one blank line more. */
  lemma {:induction false} PlainLines(lines: seq<string>)
    requires forall line :: line in lines ==> OneLine(line)
    ensures ClientLines(Written(lines) + "\n") == lines + [""]
  {
    if lines == [] {
      FirstLine("", Lf, "");
      assert "" + Text(Lf) + "" == "\n" == Written([]) + "\n";
    } else {
      assert lines == [lines[0]] + lines[1..];
      PlainLines(lines[1..]);
      WrittenCons(lines[0], lines[1..]);
      FirstLine(lines[0], Lf, Written(lines[1..]) + "\n");
    }
  }

  /** The scanner's lines hold no CR inside and the stream does not open with a byte order mark. */
  ghost predicate PlainStream(s: string) {
    && (forall line :: line in Tokens(s) ==> OneLine(line))
    && StripFirst(Tokens(s)) == Tokens(s)
  }

  /** What the client makes of the forwarded stream, line by line. */
  lemma ForwardedEvents(s: string)
    requires PlainStream(s)
    ensures Parse(Forwarded(s)) == Events(EMPTY, Tokens(s) + [""])
  {
    PlainLines(Tokens(s));
    StrippedLines(Forwarded(s));
    StripLast(Tokens(s));
  }

  predicate IsMetered(kind: string) {
    kind == "message_start" || kind == "message_delta"
  }

  /** Under these two types a payload is read alike: it is not read at all, or they are one, or neither is metered. */
  predicate ReadAlike(provider: Provider, text: string, loop: string, client: string) {
    provider.OpenAI? || Inert(text) || loop == client || (!IsMetered(loop) && !IsMetered(client))
  }

  function Alike(provider: Provider): (Payload, Payload) -> bool {
    (p: Payload, q: Payload) => ReadAlike(provider, p.text, p.kind, q.kind)
  }

  /** At each payload that is decoded, the loop's type and the final type of the event are one, or neither is metered.
      */
  ghost predicate TypesAgree(provider: Provider, s: string) {
    Paired(Alike(provider), LoopPayloads("", Tokens(s)), EventPayloads(Parse(Forwarded(s))))
  }

  /** Exactly then every data line reports, under every decoder, what its event reports. */
  lemma ReportsAgreeIffTypesDo(provider: Provider, s: string)
    requires PlainStream(s) && OneDataEach(false, Tokens(s))
    ensures TypesAgree(provider, s) <==>
      forall dec :: ReportsOf(dec, provider, LoopPayloads("", Tokens(s)))
                 == ReportsOf(dec, provider, EventPayloads(Parse(Forwarded(s))))
  {
    OneEventEach(s);
    AlikeIffReportsAgree(provider, LoopPayloads("", Tokens(s)), EventPayloads(Parse(Forwarded(s))));
  }

  /** The data lines are the client's events, one by one and with the same texts. */
  lemma OneEventEach(s: string)
    requires PlainStream(s) && OneDataEach(false, Tokens(s))
    ensures Paired(SameText(), LoopPayloads("", Tokens(s)), EventPayloads(Parse(Forwarded(s))))
  {
    ForwardedEvents(s);
    SameTexts(EMPTY, "", [], Tokens(s));
    assert [] + LoopPayloads("", Tokens(s)) == LoopPayloads("", Tokens(s));
  }

  lemma AlikeIffReportsAgree(provider: Provider, loop: seq<Payload>, client: seq<Payload>)
    requires Paired(SameText(), loop, client)
    ensures Paired(Alike(provider), loop, client) <==>
      forall dec :: ReportsOf(dec, provider, loop) == ReportsOf(dec, provider, client)
  {
    forall i | 0 <= i < |loop|
      ensures loop[i].text == client[i].text
    {
      assert SameText()(loop[i], client[i]);
    }
    if Paired(Alike(provider), loop, client) {
      forall dec
        ensures ReportsOf(dec, provider, loop) == ReportsOf(dec, provider, client)
      {
        assert forall i :: 0 <= i < |loop| ==> Alike(provider)(loop[i], client[i]);
      }
    }
    if forall dec :: ReportsOf(dec, provider, loop) == ReportsOf(dec, provider, client) {
      var rs, rs' := ReportsOf(TELLTALE, provider, loop), ReportsOf(TELLTALE, provider, client);
      assert rs == rs';
      forall i | 0 <= i < |loop|
        ensures Alike(provider)(loop[i], client[i])
      {
        assert rs[i] == rs'[i];
      }
    }
  }

  /** A decoder that tells message_start, message_delta and everything else apart. */
  const TELLTALE := Decoder(_ => Some(StartUsage("", 1, 2)), _ => Some(3), _ => None)

  /** Metering refines events: on a plain stream with one data line an event whose types agree, the usage of the line
      loop is the usage computed event by event from what the client parses, also when the stream stops inside an event.
      */
  lemma MeteringRefinesEvents(dec: Decoder, provider: Provider, u: Metered, s: string)
    requires PlainStream(s) && OneDataEach(false, Tokens(s)) && TypesAgree(provider, s)
    ensures MeterLines(dec, provider, MeterState("", u), Tokens(s)).usage
         == UsageOfEvents(dec, provider, u, Parse(Forwarded(s)))
  {
    ReportsAgreeIffTypesDo(provider, s);
    LoopUsage(dec, provider, MeterState("", u), Tokens(s));
    EventUsage(dec, provider, u, Parse(Forwarded(s)));
  }

  /** For a stream that ends in a blank line these are the events the provider sent. */
  lemma MeteringRefinesUpstreamEvents(dec: Decoder, provider: Provider, u: Metered, s: string)
    requires PlainStream(s) && OneDataEach(false, Tokens(s)) && TypesAgree(provider, s)
    requires AllFit(s) && !DoubledCr(s) && EndsInBlankLine(s)
    ensures MeterLines(dec, provider, MeterState("", u), Tokens(s)).usage == UsageOfEvents(dec, provider, u, Parse(s))
  {
    MeteringRefinesEvents(dec, provider, u, s);
    CompleteStreamsForwardFaithfully(s);
  }

  // ---- Streams that name their events ----

  /** Within one event: has an `event:` line set the type, and has the data line come? */
  datatype Frame = Frame(typed: bool, hasData: bool)

  const FRESH := Frame(false, false)

  function NextFrame(provider: Provider, f: Frame, line: string): Frame {
    if line == "" then FRESH
    else if FieldName(line) == "event" then f.(typed := "event:" <= line)
    else if FieldName(line) == "data" then f.(hasData := true)
    else f
  }

  /** At most one data line an event; for Anthropic no event field after it, and an `event:` line before it unless
      its payload is inert. */
  predicate Framed(provider: Provider, f: Frame, line: string) {
    && (FieldName(line) == "event" && provider.Anthropic? ==> !f.hasData)
    && (FieldName(line) == "data" ==> !f.hasData && (provider.OpenAI? || f.typed || Inert(Trim(FieldValue(line)))))
  }

  predicate WellFramed(provider: Provider, f: Frame, lines: seq<string>)
    decreases |lines|
  {
    lines == [] || (Framed(provider, f, lines[0]) && WellFramed(provider, NextFrame(provider, f, lines[0]), lines[1..]))
  }

  lemma {:induction false} WellFramedHasOneDataEach(provider: Provider, f: Frame, lines: seq<string>)
    requires WellFramed(provider, f, lines)
    ensures OneDataEach(f.hasData, lines)
    decreases |lines|
  {
    if lines != [] {
      assert FieldName("") == "";
      WellFramedHasOneDataEach(provider, NextFrame(provider, f, lines[0]), lines[1..]);
    }
  }

  lemma KindOfTyped(b: Buffers, last: string)
    requires Trim(b.kind) == last
    ensures last == KindOf(b) || (!IsMetered(last) && !IsMetered(KindOf(b)))
  {
    assert Trim("") == "";
    assert "message"[0] == 'm' && "message"[6] == 'e';
    assert Trim("message") == "message";
  }

  /** The loop's payloads of the event in the buffers are read alike by the client, if no event field follows. */
  ghost predicate AlikeSoFar(b: Buffers, last: string, f: Frame, mine: seq<Payload>) {
    && (f.hasData <==> b.data != "") && (f.typed ==> Trim(b.kind) == last)
    && Paired(Alike(Anthropic), mine, Pending(b))
  }

  lemma {:induction false} FramedPayloads(b: Buffers, last: string, f: Frame, mine: seq<Payload>, lines: seq<string>)
    requires WellFramed(Anthropic, f, lines) && AlikeSoFar(b, last, f, mine)
    ensures PairedFrom(Alike(Anthropic), b, last, mine, lines)
    decreases |lines|
  {
    if lines == [] {
      OnlyBlank(b);
      assert mine + LoopPayloads(last, lines) == mine;
    } else {
      var line := lines[0];
      var b', kind, f' := After(b, line), NextKind(last, line), NextFrame(Anthropic, f, line);
      FrameGoesOn(b, last, f, mine, line);
      if line == "" {
        FramedPayloads(b', kind, f', [], lines[1..]);
        PairedBlank(Alike(Anthropic), b, last, mine, lines);
      } else if FieldName(line) == "data" {
        FramedPayloads(b', kind, f', [Payload(Trim(FieldValue(line)), last)], lines[1..]);
        PairedData(Alike(Anthropic), b, last, lines);
      } else {
        FramedPayloads(b', kind, f', mine, lines[1..]);
        PairedOther(Alike(Anthropic), b, last, mine, lines);
      }
    }
  }

  /** One line keeps what the frame says of the event in the buffers. */
  lemma FrameGoesOn(b: Buffers, last: string, f: Frame, mine: seq<Payload>, line: string)
    requires AlikeSoFar(b, last, f, mine) && Framed(Anthropic, f, line)
    ensures AlikeSoFar(After(b, line), NextKind(last, line), NextFrame(Anthropic, f, line),
                       if line == "" then []
                       else if FieldName(line) == "data" then [Payload(Trim(FieldValue(line)), last)]
                       else mine)
    ensures line == "" || FieldName(line) == "data" ==> NextKind(last, line) == last
    ensures FieldName(line) == "data" ==> mine == [] && b.data == "" && line != ""
  {
    assert FieldName("") == "";
    if line != "" && FieldName(line) != "data" {
      StillAlike(b, last, f, mine, line);
    } else if line != "" {
      TypedData(b, last, f, line);
    }
  }

  lemma TypedData(b: Buffers, last: string, f: Frame, line: string)
    requires FieldName(line) == "data" && Framed(Anthropic, f, line) && b.data == ""
    requires (f.typed ==> Trim(b.kind) == last)
    ensures ReadAlike(Anthropic, Trim(FieldValue(line)), last, KindOf(b)) && NextKind(last, line) == last
    ensures After(b, line).kind == b.kind && After(b, line).data != ""
    ensures Pending(After(b, line)) == [Payload(Trim(FieldValue(line)), KindOf(b))]
  {
    FieldsAreLines(line);
    DataLine(b, last, [line]);
    if f.typed {
      KindOfTyped(b, last);
    }
  }

  lemma StillAlike(b: Buffers, last: string, f: Frame, mine: seq<Payload>, line: string)
    requires AlikeSoFar(b, last, f, mine) && Framed(Anthropic, f, line) && line != "" && FieldName(line) != "data"
    ensures AlikeSoFar(After(b, line), NextKind(last, line), NextFrame(Anthropic, f, line), mine)
  {
    FieldsAreLines(line);
    if FieldName(line) == "event" {
      assert Pending(b) == [];
    } else {
      assert Pending(After(b, line)) == Pending(b);
    }
  }

  /** A stream that gives every metered event its `event:` line, before its one data line, has agreeing types. */
  lemma WellFramedTypesAgree(provider: Provider, s: string)
    requires PlainStream(s) && WellFramed(provider, FRESH, Tokens(s))
    ensures OneDataEach(false, Tokens(s)) && TypesAgree(provider, s)
  {
    WellFramedHasOneDataEach(provider, FRESH, Tokens(s));
    OneEventEach(s);
    if provider.Anthropic? {
      ForwardedEvents(s);
      FramedPayloads(EMPTY, "", FRESH, [], Tokens(s));
      assert [] + LoopPayloads("", Tokens(s)) == LoopPayloads("", Tokens(s));
    }
  }

  // ---- What the counts mean ----

  function StartOf(dec: Decoder, e: Event): Option<StartUsage> {
    if Trim(e.kind) == "message_start" && !Inert(Trim(e.data)) then dec.start(Trim(e.data)) else None
  }

  /** A positive output count, from message_start or message_delta. */
  function OutputOf(dec: Decoder, e: Event): Option<Int32> {
    if StartOf(dec, e).Some? then IfPositive(StartOf(dec, e).value.output)
    else if Trim(e.kind) == "message_delta" && !Inert(Trim(e.data)) && dec.delta(Trim(e.data)).Some?
    then IfPositive(dec.delta(Trim(e.data)).value)
    else None
  }

  /** i is the last event that is a well-formed message_start, or -1 when there is none. */
  ghost predicate LastStart(dec: Decoder, es: seq<Event>, i: int) {
    -1 <= i < |es| && (i >= 0 ==> StartOf(dec, es[i]).Some?) && forall j :: i < j < |es| ==> StartOf(dec, es[j]).None?
  }

  /** Likewise for the last event with a positive output count. */
  ghost predicate LastOutput(dec: Decoder, es: seq<Event>, i: int) {
    -1 <= i < |es| && (i >= 0 ==> OutputOf(dec, es[i]).Some?) && forall j :: i < j < |es| ==> OutputOf(dec, es[j]).None?
  }

  /** Anthropic usage in closed form: the input count of the last well-formed message_start and the last positive output
      count of a message_start or message_delta, zero when there is none. */
  lemma AnthropicCounts(dec: Decoder, es: seq<Event>, start: int, output: int)
    requires LastStart(dec, es, start) && LastOutput(dec, es, output)
    ensures var u := UsageOfEvents(dec, Anthropic, NO_USAGE, es);
      && u.input == (if start >= 0 then StartOf(dec, es[start]).value.input else 0)
      && u.output == (if output >= 0 then OutputOf(dec, es[output]).value else 0)
  {
    InputCount(dec, es, start);
    OutputCount(dec, es, output);
  }

  lemma {:induction false} InputCount(dec: Decoder, es: seq<Event>, i: int)
    requires LastStart(dec, es, i)
    ensures UsageOfEvents(dec, Anthropic, NO_USAGE, es).input == if i >= 0 then StartOf(dec, es[i]).value.input else 0
    decreases |es|
  {
    if es != [] {
      OneEventMore(dec, es);
      if i < |es| - 1 {
        InputCount(dec, es[..|es| - 1], i);
      }
    }
  }

  lemma {:induction false} OutputCount(dec: Decoder, es: seq<Event>, i: int)
    requires LastOutput(dec, es, i)
    ensures UsageOfEvents(dec, Anthropic, NO_USAGE, es).output == if i >= 0 then OutputOf(dec, es[i]).value else 0
    decreases |es|
  {
    if es != [] {
      OneEventMore(dec, es);
      if i < |es| - 1 {
        OutputCount(dec, es[..|es| - 1], i);
      }
    }
  }

  lemma OneEventMore(dec: Decoder, es: seq<Event>)
    requires es != []
    ensures var u, u' := UsageOfEvents(dec, Anthropic, NO_USAGE, es[..|es| - 1]),
                         UsageOfEvents(dec, Anthropic, NO_USAGE, es);
      var e := es[|es| - 1];
      && u'.input == (if StartOf(dec, e).Some? then StartOf(dec, e).value.input else u.input)
      && u'.output == (if OutputOf(dec, e).Some? then OutputOf(dec, e).value else u.output)
  {
    var before, e := es[..|es| - 1], es[|es| - 1];
    var u := UsageOfEvents(dec, Anthropic, NO_USAGE, before);
    assert es == before + [e];
    UsageOfEventsAppend(dec, Anthropic, NO_USAGE, before, [e]);
    OneEvent(dec, u, e);
  }

  lemma OneEvent(dec: Decoder, u: Metered, e: Event)
    ensures var u' := UsageOfEvents(dec, Anthropic, u, [e]);
      && u'.input == (if StartOf(dec, e).Some? then StartOf(dec, e).value.input else u.input)
      && u'.output == (if OutputOf(dec, e).Some? then OutputOf(dec, e).value else u.output)
  {
    assert UsageOfEvents(dec, Anthropic, u, [e]) == Apply(u, EventReport(dec, Anthropic, e)) by {
      assert [e][1..] == [];
    }
  }
}
