/** The streams providers ordinarily send, as the loop meters them and as the client reads them. */
module Ordinary {
  import opened Core
  import opened Sse
  import opened Forwarding
  import opened Meter
  import Metering

  /** A payload like a JSON object on one line. */
  predicate ObjectText(x: string) {
    |x| >= 2 && x[0] == '{' && x[|x| - 1] == '}' && OneLine(x) && Utf8Length(x) <= 60_000
  }

  lemma ObjectTrims(x: string)
    requires |x| >= 2 && x[0] == '{' && x[|x| - 1] == '}'
    ensures Trim(x) == x && Trim(" " + x) == x && !Inert(x)
  {
    NothingToTrim(x);
    var v := " " + x;
    assert v[0] == ' ' && v[1..] == x;
    Metering.TrimSpaceFirst(v);
  }

  lemma NextMetered(dec: Decoder, provider: Provider, st: MeterState, line: string, rest: seq<string>)
    ensures MeterLines(dec, provider, st, [line] + rest)
         == MeterLines(dec, provider, MeterLine(dec, provider, st, line), rest)
  {
    assert ([line] + rest)[1..] == rest;
  }

  lemma BlankMeansNothing(dec: Decoder, provider: Provider, st: MeterState)
    ensures MeterLine(dec, provider, st, "") == st
  {
    OtherLineMeans(dec, provider, st, "");
  }

  lemma DataLineOf(x: string)
    ensures "data: " + x == "data:" + (" " + x)
  {
  }

  predicate PlainKind(kind: string) {
    kind != "" && !IsSpace(kind[0]) && !IsSpace(kind[|kind| - 1])
  }

  lemma EventLineOf(kind: string)
    requires PlainKind(kind)
    ensures "event: " + kind == "event:" + (" " + kind) && Trim(" " + kind) == kind
  {
    var v := " " + kind;
    NothingToTrim(kind);
    assert v[0] == ' ' && v[1..] == kind;
    Metering.TrimSpaceFirst(v);
  }

  // ---- OpenAI ----

  /** A chunk, the chunk with the usage object, and the end mark. */
  function OpenAILines(first: string, last: string): seq<string> {
    ["data: " + first] + ([""] + (["data: " + last] + ([""] + (["data: [DONE]"] + ([""] + [])))))
  }

  /** The counts of the chunk with usage are metered, whatever was metered before; chunks that do not say "usage" are
      not even decoded. */
  lemma OpenAIStreamIsMetered(dec: Decoder, u: Metered, first: string, a: string, b: string, model: string,
                              input: Int32, output: Int32)
    requires ObjectText(first) && !exists i :: UsageAt(first, i)
    requires ObjectText(a + "usage" + b) && model != ""
    requires dec.chunk(a + "usage" + b) == Some(Chunk(model, Some((input, output))))
    ensures MeterLines(dec, OpenAI, MeterState("", u), OpenAILines(first, a + "usage" + b)).usage
         == Metered(model, input, output)
  {
    var last, st := a + "usage" + b, MeterState("", u);
    var end := MeterState("", Metered(model, input, output));
    FirstChunk(dec, st, first);
    UsageChunk(dec, st, a, b, model, input, output);
    EndMark(dec, end);
    var tail := [""] + (["data: [DONE]"] + ([""] + []));
    OneThenBlank(dec, st, "data: " + first, ["data: " + last] + tail);
    OneThenBlank(dec, st, "data: " + last, ["data: [DONE]"] + ([""] + []));
    OneThenBlank(dec, end, "data: [DONE]", []);
  }

  lemma OneThenBlank(dec: Decoder, st: MeterState, line: string, rest: seq<string>)
    ensures MeterLines(dec, OpenAI, st, [line] + ([""] + rest))
         == MeterLines(dec, OpenAI, MeterLine(dec, OpenAI, st, line), rest)
  {
    NextMetered(dec, OpenAI, st, line, [""] + rest);
    NextMetered(dec, OpenAI, MeterLine(dec, OpenAI, st, line), "", rest);
    BlankMeansNothing(dec, OpenAI, MeterLine(dec, OpenAI, st, line));
  }

  lemma FirstChunk(dec: Decoder, st: MeterState, first: string)
    requires ObjectText(first) && !exists i :: UsageAt(first, i)
    ensures MeterLine(dec, OpenAI, st, "data: " + first) == st
  {
    ObjectTrims(first);
    DataLineOf(first);
    OpenAILineMeans(dec, st, " " + first);
  }

  lemma UsageChunk(dec: Decoder, st: MeterState, a: string, b: string, model: string, input: Int32, output: Int32)
    requires ObjectText(a + "usage" + b) && model != ""
    requires dec.chunk(a + "usage" + b) == Some(Chunk(model, Some((input, output))))
    ensures MeterLine(dec, OpenAI, st, "data: " + (a + "usage" + b))
         == MeterState(st.last, Metered(model, input, output))
  {
    var x := a + "usage" + b;
    ObjectTrims(x);
    DataLineOf(x);
    assert UsageAt(x, |a|);
    OpenAILineMeans(dec, st, " " + x);
  }

  lemma EndMark(dec: Decoder, st: MeterState)
    ensures MeterLine(dec, OpenAI, st, "data: [DONE]") == st
  {
    var v := " " + "[DONE]";
    NothingToTrim("[DONE]");
    assert v[0] == ' ' && v[1..] == "[DONE]";
    Metering.TrimSpaceFirst(v);
    DataLineOf("[DONE]");
    EndMarkMeans(dec, OpenAI, st, v);
  }

  /** For instance this object. */
  const BEFORE := "{\"model\":\"gpt-4o\",\""
  const PROMPT := "\":{\"prompt_tokens\":10,"
  const COMPLETION := "\"completion_tokens\":5}}"
  const AFTER := PROMPT + COMPLETION
  const OBJECT := BEFORE + "usage" + AFTER
  const READER := Decoder(
    _ => None, _ => None,
    text => if text == OBJECT then Some(Chunk("gpt-4o", Some((10, 5)))) else None)

  lemma JsonChunkIsMetered()
    ensures MeterLines(READER, OpenAI, MeterState("", NO_USAGE), OpenAILines("{}", OBJECT)).usage
         == Metered("gpt-4o", 10, 5)
  {
    ObjectFits();
    assert !exists i :: UsageAt("{}", i);
    OpenAIStreamIsMetered(READER, NO_USAGE, "{}", BEFORE, AFTER, "gpt-4o", 10, 5);
  }

  lemma ObjectFits()
    ensures ObjectText("{}") && ObjectText(OBJECT)
  {
    NoLineEnd("{}");
    FewBytes("{}");
    ObjectIsOneLine();
    FewBytes(OBJECT);
    assert |BEFORE| == 19 && |PROMPT| == 22 && |COMPLETION| == 23;
    assert BEFORE[0] == '{' && COMPLETION[22] == '}';
  }

  lemma OneLineAppend(a: string, b: string)
    requires OneLine(a) && OneLine(b)
    ensures OneLine(a + b)
  {
  }

  lemma ObjectIsOneLine()
    ensures OneLine(OBJECT)
  {
    NoLineEnd(BEFORE);
    NoLineEnd("usage");
    NoLineEnd(PROMPT);
    NoLineEnd(COMPLETION);
    OneLineAppend(BEFORE, "usage");
    OneLineAppend(PROMPT, COMPLETION);
    OneLineAppend(BEFORE + "usage", AFTER);
  }

  // ---- Anthropic ----

  /** One event: its type, its data and the blank line. */
  function EventLines(kind: string, data: string, rest: seq<string>): seq<string> {
    ["event: " + kind] + (["data: " + data] + ([""] + rest))
  }

  /** The four kinds of event that every message has. */
  function AnthropicLines(start: string, block: string, delta: string, stop: string): seq<string> {
    EventLines("message_start", start,
      EventLines("content_block_delta", block,
        EventLines("message_delta", delta, EventLines("message_stop", stop, []))))
  }

  lemma EventMetered(dec: Decoder, st: MeterState, kind: string, data: string, rest: seq<string>)
    requires PlainKind(kind)
    ensures MeterLines(dec, Anthropic, st, EventLines(kind, data, rest))
         == MeterLines(dec, Anthropic, MeterLine(dec, Anthropic, MeterState(kind, st.usage), "data: " + data), rest)
  {
    var st' := MeterState(kind, st.usage);
    var st'' := MeterLine(dec, Anthropic, st', "data: " + data);
    EventLineOf(kind);
    EventLineMeans(dec, Anthropic, st, " " + kind);
    NextMetered(dec, Anthropic, st, "event: " + kind, ["data: " + data] + ([""] + rest));
    NextMetered(dec, Anthropic, st', "data: " + data, [""] + rest);
    NextMetered(dec, Anthropic, st'', "", rest);
    BlankMeansNothing(dec, Anthropic, st'');
  }

  /** An ordinary message: input and model from message_start, output from message_delta, nothing from the others. */
  lemma AnthropicStreamIsMetered(dec: Decoder, u: Metered, start: string, block: string, delta: string, stop: string,
                                 model: string, input: Int32, output: Int32)
    requires ObjectText(start) && ObjectText(block) && ObjectText(delta) && ObjectText(stop)
    requires dec.start(start) == Some(StartUsage(model, input, 0)) && dec.delta(delta) == Some(output)
    requires model != "" && output > 0
    ensures MeterLines(dec, Anthropic, MeterState("", u), AnthropicLines(start, block, delta, stop)).usage
         == Metered(model, input, output)
  {
    PlainKinds();
    var last := EventLines("message_stop", stop, []);
    var later := EventLines("message_delta", delta, last);
    StartEvent(dec, MeterState("", u), start, EventLines("content_block_delta", block, later));
    OtherEvent(dec, MeterState("message_start", Metered(model, input, u.output)), "content_block_delta", block, later);
    DeltaEvent(dec, MeterState("content_block_delta", Metered(model, input, u.output)), delta, last);
    OtherEvent(dec, MeterState("message_delta", Metered(model, input, output)), "message_stop", stop, []);
  }

  predicate Unmetered(kind: string) {
    PlainKind(kind) && kind != "message_start" && kind != "message_delta"
  }

  lemma PlainKinds()
    ensures PlainKind("message_start") && PlainKind("message_delta")
    ensures Unmetered("content_block_delta") && Unmetered("message_stop")
  {
    assert "content_block_delta"[0] == 'c';
    assert "message_stop"[8] == 's' && "message_stop"[9] == 't' && "message_stop"[10] == 'o';
    assert "message_start"[10] == 'a' && "message_delta"[8] == 'd';
  }

  lemma StartEvent(dec: Decoder, st: MeterState, x: string, rest: seq<string>)
    requires ObjectText(x) && dec.start(x).Some? && dec.start(x).value.output == 0 && dec.start(x).value.model != ""
    ensures var start := dec.start(x).value;
      var after := Metered(start.model, start.input, st.usage.output);
      MeterLines(dec, Anthropic, st, EventLines("message_start", x, rest))
      == MeterLines(dec, Anthropic, MeterState("message_start", after), rest)
  {
    PlainKinds();
    EventMetered(dec, st, "message_start", x, rest);
    Payload(dec, MeterState("message_start", st.usage), x);
  }

  lemma DeltaEvent(dec: Decoder, st: MeterState, x: string, rest: seq<string>)
    requires ObjectText(x) && dec.delta(x).Some? && dec.delta(x).value > 0
    ensures var after := Metered(st.usage.model, st.usage.input, dec.delta(x).value);
      MeterLines(dec, Anthropic, st, EventLines("message_delta", x, rest))
      == MeterLines(dec, Anthropic, MeterState("message_delta", after), rest)
  {
    PlainKinds();
    EventMetered(dec, st, "message_delta", x, rest);
    Payload(dec, MeterState("message_delta", st.usage), x);
  }

  lemma OtherEvent(dec: Decoder, st: MeterState, kind: string, x: string, rest: seq<string>)
    requires ObjectText(x) && Unmetered(kind)
    ensures MeterLines(dec, Anthropic, st, EventLines(kind, x, rest))
         == MeterLines(dec, Anthropic, MeterState(kind, st.usage), rest)
  {
    EventMetered(dec, st, kind, x, rest);
    Payload(dec, MeterState(kind, st.usage), x);
  }

  lemma Payload(dec: Decoder, st: MeterState, x: string)
    requires ObjectText(x)
    ensures var u, after := st.usage, MeterLine(dec, Anthropic, st, "data: " + x);
      && after.last == st.last
      && (st.last == "message_start" && dec.start(x).Some? ==>
            var start := dec.start(x).value;
            after.usage == Metered(if start.model != "" then start.model else u.model, start.input,
                                   if start.output > 0 then start.output else u.output))
      && (st.last == "message_delta" && dec.delta(x).Some? && dec.delta(x).value > 0 ==>
            after.usage == Metered(u.model, u.input, dec.delta(x).value))
      && (st.last != "message_start" && st.last != "message_delta" ==> after.usage == u)
  {
    ObjectTrims(x);
    DataLineOf(x);
    AnthropicLineMeans(dec, st, " " + x);
  }
}
