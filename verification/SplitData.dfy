/** An event whose data comes in two lines: the client joins them, the loop decodes each alone. */
module SplitData {
  import opened Sse
  import opened Forwarding
  import opened Meter
  import opened Metering
  import opened Sticky
  import MergedEvents
  import Agreement

  /** A message_start event with two data lines. */
  function SplitLines(x: string, y: string): seq<string> {
    [START_LINE, "data:" + x, "data:" + y, ""]
  }

  function Joined(x: string, y: string): string {
    x + "\n" + y
  }

  /** For every two data lines the loop and the client read different payloads, so their usages differ under some
      decoder; if only the joined text can be decoded, as with a JSON object over two lines, the loop meters nothing. */
  lemma SplitDataIsNotMetered(dec: Decoder, x: string, y: string)
    requires PlainPayload(x) && PlainPayload(y)
    ensures var s := Written(SplitLines(x, y));
      && LoopPayloads("", Tokens(s)) == [Payload(x, START), Payload(y, START)]
      && EventPayloads(Parse(Forwarded(s))) == [Payload(Joined(x, y), START)]
      && (exists d :: MeterLines(d, Anthropic, MeterState("", NO_USAGE), Tokens(s)).usage
                   != UsageOfEvents(d, Anthropic, NO_USAGE, Parse(Forwarded(s))))
      && (dec.start(x).None? && dec.start(y).None? ==>
            && MeterLines(dec, Anthropic, MeterState("", NO_USAGE), Tokens(s)).usage == NO_USAGE
            && UsageOfEvents(dec, Anthropic, NO_USAGE, Parse(Forwarded(s)))
               == Apply(NO_USAGE, AnthropicReport(dec, Joined(x, y), START)))
  {
    var s := Written(SplitLines(x, y));
    SplitReads(s, x, y);
    Agreement.StreamUsageAgreesIff(Anthropic, s);
    DifferentEssences(x, y);
    Agreement.BothUsages(dec, Anthropic, Tokens(s), Parse(Forwarded(s)));
    TwoReports(dec, NO_USAGE, Payload(x, START), Payload(y, START));
    OneReport(dec, x, y);
  }

  lemma OneReport(dec: Decoder, x: string, y: string)
    requires PlainPayload(x) && PlainPayload(y)
    ensures Agreement.UsageOf(dec, Anthropic, NO_USAGE, [Payload(Joined(x, y), START)])
         == Apply(NO_USAGE, AnthropicReport(dec, Joined(x, y), START))
  {
    var ps := [Payload(Joined(x, y), START)];
    JoinedIsPlain(x, y);
    Agreement.FirstUsage(dec, Anthropic, NO_USAGE, ps);
    assert ps[1..] == [];
  }

  lemma DifferentEssences(x: string, y: string)
    requires PlainPayload(x) && PlainPayload(y)
    ensures Agreement.Essence(Anthropic, [Payload(x, START), Payload(y, START)])
         != Agreement.Essence(Anthropic, [Payload(Joined(x, y), START)])
  {
    var ps, qs := [Payload(x, START), Payload(y, START)], [Payload(Joined(x, y), START)];
    JoinedIsPlain(x, y);
    EssenceOfDecoded(ps);
    EssenceOfDecoded(qs);
    assert ps[0] in Agreement.Essence(Anthropic, ps);
    assert |Joined(x, y)| > |x|;
    assert ps[0] !in qs;
  }

  /** The essence holds what is decoded, no more and no less. */
  lemma EssenceOfDecoded(ps: seq<Payload>)
    requires forall p :: p in ps ==> Agreement.IsDecoded(Anthropic, p)
    ensures forall p :: p in Agreement.Essence(Anthropic, ps) <==> p in ps
  {
    AllAreDecoded(ps);
    Agreement.LastOnlyIsDistinct(ps);
  }

  lemma {:induction false} AllAreDecoded(ps: seq<Payload>)
    requires forall p :: p in ps ==> Agreement.IsDecoded(Anthropic, p)
    ensures Agreement.AllDecoded(Anthropic, ps) == ps
  {
    if ps != [] {
      AllAreDecoded(ps[1..]);
      assert ps[0] in ps && Agreement.Decoded(Anthropic, ps[0]) == [ps[0]];
      assert ps == [ps[0]] + ps[1..];
    }
  }

  // ---- What both sides read ----

  lemma JoinedIsPlain(x: string, y: string)
    requires PlainPayload(x) && PlainPayload(y)
    ensures Trim(Joined(x, y)) == Joined(x, y) && !Inert(Joined(x, y))
    ensures x[0] != ' ' && y[0] != ' '
  {
    TrimTakesSpaces(x);
    TrimTakesSpaces(y);
    NothingToTrim(Joined(x, y));
    assert Joined(x, y)[|x|] == '\n';
    assert forall c :: c in "[DONE]" ==> c != '\n';
  }

  lemma SplitReads(s: string, x: string, y: string)
    requires PlainPayload(x) && PlainPayload(y) && s == Written(SplitLines(x, y))
    ensures LoopPayloads("", Tokens(s)) == [Payload(x, START), Payload(y, START)]
    ensures EventPayloads(Parse(Forwarded(s))) == [Payload(Joined(x, y), START)]
  {
    SplitTokens(x, y);
    ForwardedEvents(s);
    SplitPayloads(x, y);
  }

  lemma SplitTokens(x: string, y: string)
    requires PlainPayload(x) && PlainPayload(y)
    ensures var s := Written(SplitLines(x, y)); Tokens(s) == SplitLines(x, y) && PlainStream(s)
  {
    var lines := SplitLines(x, y);
    PayloadLine(x);
    PayloadLine(y);
    StartLineFits();
    forall line | line in lines
      ensures OneLine(line) && Utf8Length(line) < SCAN_LIMIT
    {
      assert line == START_LINE || line == "data:" + x || line == "data:" + y || line == "";
    }
    TokensOfWritten(lines);
    FirstCharacter(lines);
  }

  lemma SplitPayloads(x: string, y: string)
    requires PlainPayload(x) && PlainPayload(y)
    ensures var lines := SplitLines(x, y);
      && LoopPayloads("", lines) == [Payload(x, START), Payload(y, START)]
      && ClientPayloads(EMPTY, lines) == [Payload(Joined(x, y), START)]
  {
    var lines, b := SplitLines(x, y), After(EMPTY, START_LINE);
    StartAlone(lines);
    assert lines[1..] == ["data:" + x, "data:" + y, ""];
    JoinedEvent(b, x, y);
    LoopReadsTwo(x, y);
  }

  lemma LoopReadsTwo(x: string, y: string)
    requires PlainPayload(x) && PlainPayload(y)
    ensures LoopPayloads(START, ["data:" + x, "data:" + y, ""]) == [Payload(x, START), Payload(y, START)]
  {
    var lines := ["data:" + x, "data:" + y, ""];
    DataField(x);
    DataField(y);
    FieldsAreLines("data:" + x);
    FieldsAreLines("data:" + y);
    assert FieldName("") == "";
    assert lines[1..] == ["data:" + y, ""] && lines[1..][1..] == [""] && [""][1..] == [];
    assert LoopPayloads(START, [""]) == [];
    assert LoopPayloads(START, ["data:" + y, ""]) == [Payload(y, START)] + LoopPayloads(START, [""]);
  }

  /** The two data lines of one event. */
  lemma JoinedEvent(b: Buffers, x: string, y: string)
    requires PlainPayload(x) && PlainPayload(y) && b.data == "" && KindOf(b) == START
    ensures ClientPayloads(b, ["data:" + x, "data:" + y, ""]) == [Payload(Joined(x, y), START)]
  {
    var lines := ["data:" + x, "data:" + y, ""];
    var b', b'' := After(b, "data:" + x), After(After(b, "data:" + x), "data:" + y);
    JoinedIsPlain(x, y);
    MergedEvents.DataField(b, x);
    MergedEvents.DataField(b', y);
    assert b''.data == Joined(x, y) + "\n" && b''.kind == b.kind by {
      assert "" + x + "\n" == x + "\n";
    }
    NextLine(b, lines);
    NextLine(b', lines[1..]);
    assert lines[1..][1..] == [""] && [""][1..] == [];
    BlankLine(b'', START, [""]);
    OnlyBlank(After(b'', ""));
    PendingJoined(b'', x, y);
  }

  lemma PendingJoined(b: Buffers, x: string, y: string)
    requires b.data == Joined(x, y) + "\n" && KindOf(b) == START && Trim(Joined(x, y)) == Joined(x, y)
    ensures Pending(b) == [Payload(Joined(x, y), START)]
  {
    assert b.data[..|b.data| - 1] == Joined(x, y);
  }
}
