/** The loop's event type outlives the event it belongs to: streams on which loop and client meter differently. */
module Sticky {
  import opened Core
  import opened Sse
  import opened Forwarding
  import opened Meter
  import opened Metering

  const START := "message_start"
  const START_LINE := "event:" + START

  /** A message_start event, and an event without an `event:` line of its own. */
  function StickyLines(x: string, y: string): seq<string> {
    [START_LINE, "data:" + x, "", "data:" + y, ""]
  }

  predicate PlainPayload(x: string) {
    OneLine(x) && Trim(x) == x && !Inert(x) && Utf8Length(x) <= 1000
  }

  /** The type outlives the blank line that resets the client's: for every two payloads this stream meters the second
      one as a message_start although the client reads it as a plain message. */
  lemma EventTypeOutlivesItsEvent(dec: Decoder, x: string, y: string)
    requires PlainPayload(x) && PlainPayload(y)
    ensures var s := Written(StickyLines(x, y));
      && PlainStream(s) && OneDataEach(false, Tokens(s)) && !TypesAgree(Anthropic, s)
      && MeterLines(dec, Anthropic, MeterState("", NO_USAGE), Tokens(s)).usage
         == Apply(Apply(NO_USAGE, AnthropicReport(dec, x, START)), AnthropicReport(dec, y, START))
      && UsageOfEvents(dec, Anthropic, NO_USAGE, Parse(Forwarded(s))) == Apply(NO_USAGE, AnthropicReport(dec, x, START))
  {
    var s := Written(StickyLines(x, y));
    StickyReads(s, x, y);
    NotAlike(x, y);
    LoopUsage(dec, Anthropic, MeterState("", NO_USAGE), Tokens(s));
    EventUsage(dec, Anthropic, NO_USAGE, Parse(Forwarded(s)));
    UsageOfTwo(dec, x, y);
  }

  /** What the loop reads of the stream, and what the client reads. */
  function LoopReads(x: string, y: string): seq<Payload> {
    [Payload(x, START), Payload(y, START)]
  }

  function ClientReads(x: string, y: string): seq<Payload> {
    [Payload(x, START), Payload(y, "message")]
  }

  lemma NotAlike(x: string, y: string)
    requires PlainPayload(y)
    ensures !Paired(Alike(Anthropic), LoopReads(x, y), ClientReads(x, y))
  {
    assert !Alike(Anthropic)(LoopReads(x, y)[1], ClientReads(x, y)[1]);
  }

  lemma UsageOfTwo(dec: Decoder, x: string, y: string)
    requires PlainPayload(x) && PlainPayload(y)
    ensures ApplyAll(NO_USAGE, ReportsOf(dec, Anthropic, LoopReads(x, y)))
         == Apply(Apply(NO_USAGE, AnthropicReport(dec, x, START)), AnthropicReport(dec, y, START))
    ensures ApplyAll(NO_USAGE, ReportsOf(dec, Anthropic, ClientReads(x, y)))
         == Apply(NO_USAGE, AnthropicReport(dec, x, START))
  {
    TwoReports(dec, NO_USAGE, Payload(x, START), Payload(y, START));
    TwoReports(dec, NO_USAGE, Payload(x, START), Payload(y, "message"));
  }

  lemma TwoReports(dec: Decoder, u: Metered, p: Payload, q: Payload)
    ensures ApplyAll(u, ReportsOf(dec, Anthropic, [p, q]))
         == Apply(Apply(u, PayloadReport(dec, Anthropic, p.text, p.kind)),
                  PayloadReport(dec, Anthropic, q.text, q.kind))
  {
    var rs := ReportsOf(dec, Anthropic, [p, q]);
    assert rs[1..] == [rs[1]] && rs[1..][1..] == [];
    assert ApplyAll(u, rs) == ApplyAll(Apply(u, rs[0]), rs[1..]) == Apply(Apply(u, rs[0]), rs[1]);
  }

  // ---- The scanner's side ----

  /** The data line of a payload is one line that fits. */
  lemma PayloadLine(x: string)
    requires PlainPayload(x)
    ensures OneLine("data:" + x) && Utf8Length("data:" + x) < SCAN_LIMIT
  {
    LengthAdds("data:", x);
    FewBytes("data:");
    NoLineEnd("data:");
    assert forall c :: c in "data:" + x ==> c in "data:" || c in x;
  }

  lemma StickyTokens(x: string, y: string)
    requires PlainPayload(x) && PlainPayload(y)
    ensures var s := Written(StickyLines(x, y)); Tokens(s) == StickyLines(x, y) && PlainStream(s)
  {
    var lines := StickyLines(x, y);
    PayloadLine(x);
    PayloadLine(y);
    StartLineFits();
    forall line | line in lines
      ensures OneLine(line) && Utf8Length(line) < SCAN_LIMIT
    {
      assert line == START_LINE || line == "data:" + x || line == "data:" + y || line == "";
    }
    TokensOfWritten(lines);
    FirstCharacter(lines);
  }

  lemma StartLineFits()
    ensures OneLine(START_LINE) && Utf8Length(START_LINE) < SCAN_LIMIT
  {
    NoLineEnd(START);
    NoLineEnd("event:");
    FewBytes(START_LINE);
    assert forall c :: c in START_LINE ==> c in "event:" || c in START;
  }

  lemma FirstCharacter(lines: seq<string>)
    requires lines != [] && lines[0] == START_LINE
    ensures StripFirst(lines) == lines
  {
    assert START_LINE[0] == 'e';
  }

  // ---- Fields ----

  lemma DataField(x: string)
    requires PlainPayload(x)
    ensures FieldName("data:" + x) == "data" && Trim(FieldValue("data:" + x)) == x
  {
    var line := "data:" + x;
    assert "data:" <= line && line[5..] == x;
    FieldsAreLines(line);
  }

  lemma StartField()
    ensures FieldName(START_LINE) == "event" && Trim(FieldValue(START_LINE)) == START
    ensures forall last :: NextKind(last, START_LINE) == START
  {
    assert "event:" <= START_LINE && START_LINE[6..] == START;
    FieldsAreLines(START_LINE);
    NothingToTrim(START);
  }

  // ---- What both sides read ----

  /** One data line and a blank line: one event for the client, and one payload for the loop. */
  lemma EventAlone(b: Buffers, last: string, x: string, lines: seq<string>)
    requires PlainPayload(x) && b.data == "" && |lines| >= 2 && lines[0] == "data:" + x && lines[1] == ""
    ensures var b' := After(After(b, lines[0]), "");
      && LoopPayloads(last, lines) == [Payload(x, last)] + LoopPayloads(last, lines[1..][1..])
      && ClientPayloads(b, lines) == [Payload(x, KindOf(b))] + ClientPayloads(b', lines[1..][1..])
      && b'.data == "" && b'.kind == ""
  {
    DataField(x);
    DataLine(b, last, lines);
    BlankLine(After(b, lines[0]), last, lines[1..]);
  }

  lemma EventFramed(x: string, lines: seq<string>)
    requires PlainPayload(x) && |lines| >= 2 && lines[0] == "data:" + x && lines[1] == ""
    ensures OneDataEach(false, lines) <==> OneDataEach(false, lines[1..][1..])
  {
    DataField(x);
    assert FieldName("") == "";
    assert lines[1..][0] == "";
  }

  lemma StartAlone(lines: seq<string>)
    requires lines != [] && lines[0] == START_LINE
    ensures var b := After(EMPTY, START_LINE);
      && (OneDataEach(false, lines) <==> OneDataEach(false, lines[1..]))
      && LoopPayloads("", lines) == LoopPayloads(START, lines[1..])
      && ClientPayloads(EMPTY, lines) == ClientPayloads(b, lines[1..])
      && b.data == "" && KindOf(b) == START
  {
    StartField();
    OtherLine(EMPTY, "", lines);
    assert Trim("") == "";
  }

  lemma StickyPayloads(x: string, y: string)
    requires PlainPayload(x) && PlainPayload(y)
    ensures var lines := StickyLines(x, y);
      && OneDataEach(false, lines)
      && LoopPayloads("", lines) == LoopReads(x, y) && ClientPayloads(EMPTY, lines) == ClientReads(x, y)
  {
    var lines, b := StickyLines(x, y), After(EMPTY, START_LINE);
    StartAlone(lines);
    assert lines[1..] == ["data:" + x, "", "data:" + y, ""];
    TwoEvents(b, x, y);
  }

  lemma TwoEvents(b: Buffers, x: string, y: string)
    requires PlainPayload(x) && PlainPayload(y) && b.data == "" && KindOf(b) == START
    ensures var lines := ["data:" + x, "", "data:" + y, ""];
      && OneDataEach(false, lines)
      && LoopPayloads(START, lines) == LoopReads(x, y) && ClientPayloads(b, lines) == ClientReads(x, y)
  {
    var lines := ["data:" + x, "", "data:" + y, ""];
    var b' := After(After(b, lines[0]), "");
    assert lines[1..][1..] == ["data:" + y, ""];
    EventAlone(b, START, x, lines);
    EventFramed(x, lines);
    LastEvent(b', y);
  }

  lemma LastEvent(b: Buffers, y: string)
    requires PlainPayload(y) && b.data == "" && b.kind == ""
    ensures var lines := ["data:" + y, ""];
      && OneDataEach(false, lines)
      && LoopPayloads(START, lines) == [Payload(y, START)] && ClientPayloads(b, lines) == [Payload(y, "message")]
  {
    var lines := ["data:" + y, ""];
    assert lines[1..][1..] == [];
    EventAlone(b, START, y, lines);
    EventFramed(y, lines);
    OnlyBlank(After(After(b, lines[0]), ""));
    NothingToTrim("message");
  }

  lemma StickyReads(s: string, x: string, y: string)
    requires PlainPayload(x) && PlainPayload(y) && s == Written(StickyLines(x, y))
    ensures PlainStream(s) && OneDataEach(false, Tokens(s))
    ensures LoopPayloads("", Tokens(s)) == LoopReads(x, y) && EventPayloads(Parse(Forwarded(s))) == ClientReads(x, y)
  {
    StickyTokens(x, y);
    ForwardedEvents(s);
    StickyPayloads(x, y);
  }

  // ---- One of them ----

  /** With these counts the payloads "a" and "b" are metered as 2 input tokens by the loop, but as 1 event by event. */
  const STICKY := Written(StickyLines("a", "b"))
  const COUNTS := Decoder(text => Some(StartUsage("", if text == "a" then 1 else 2, 0)), _ => None, _ => None)

  lemma StickyTypeMismeters()
    ensures MeterLines(COUNTS, Anthropic, MeterState("", NO_USAGE), Tokens(STICKY)).usage == Metered("", 2, 0)
    ensures UsageOfEvents(COUNTS, Anthropic, NO_USAGE, Parse(Forwarded(STICKY))) == Metered("", 1, 0)
  {
    Letter("a");
    Letter("b");
    EventTypeOutlivesItsEvent(COUNTS, "a", "b");
  }

  lemma Letter(x: string)
    requires |x| == 1 && x[0] > '@' && !IsSpace(x[0])
    ensures PlainPayload(x)
  {
    NothingToTrim(x);
    FewBytes(x);
    NoLineEnd(x);
  }
}
