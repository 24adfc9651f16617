/** streamSSE: forwarding a stream line by line while folding token usage out of it. */
module Meter {
  import opened Core
  import opened Sse
  import opened Forwarding

  datatype Provider = Anthropic | OpenAI

  /** What json.Unmarshal makes of a payload; a JSON error is None, absent fields are zero values. */
  datatype StartUsage = StartUsage(model: string, input: Int32, output: Int32)
  datatype Chunk = Chunk(model: string, usage: Option<(Int32, Int32)>)
  datatype Decoder = Decoder(start: string -> Option<StartUsage>, delta: string -> Option<Int32>,
      chunk: string -> Option<Chunk>)

  /** The token counts extracted so far. */
  datatype Metered = Metered(model: string, input: Int32, output: Int32)

  const NO_USAGE := Metered("", 0, 0)

  /** What one payload overwrites: nothing, or some of the three fields. */
  datatype Report = Report(model: string, input: Option<Int32>, output: Option<Int32>)

  const NOTHING := Report("", None, None)

  function Apply(u: Metered, r: Report): Metered {
    Metered(if r.model == "" then u.model else r.model,
            if r.input.Some? then r.input.value else u.input,
            if r.output.Some? then r.output.value else u.output)
  }

  function ApplyAll(u: Metered, rs: seq<Report>): Metered
    decreases |rs|
  {
    if rs == [] then u else ApplyAll(Apply(u, rs[0]), rs[1..])
  }

  lemma {:induction false} ApplyLast(u: Metered, rs: seq<Report>)
    requires rs != []
    ensures ApplyAll(u, rs) == Apply(ApplyAll(u, rs[..|rs| - 1]), rs[|rs| - 1])
    decreases |rs|
  {
    if |rs| > 1 {
      ApplyLast(Apply(u, rs[0]), rs[1..]);
      assert rs[1..][..|rs| - 2] == rs[..|rs| - 1][1..];
    }
  }

  function IfPositive(n: Int32): Option<Int32> {
    if n > 0 then Some(n) else None
  }

  function AnthropicReport(dec: Decoder, data: string, kind: string): Report {
    if kind == "message_start" then
      match dec.start(data)
      case None => NOTHING
      case Some(s) => Report(s.model, Some(s.input), IfPositive(s.output))
    else if kind == "message_delta" then
      match dec.delta(data)
      case None => NOTHING
      case Some(n) => Report("", None, IfPositive(n))
    else NOTHING
  }

  predicate MentionsUsage(data: string) {
    data != "" && ("usage" <= data || MentionsUsage(data[1..]))
  }

  predicate UsageAt(data: string, i: nat) {
    i + 5 <= |data| && data[i..i + 5] == "usage"
  }

  /** "usage" occurs somewhere in the text. */
  lemma {:induction false} MentionsUsageIff(data: string)
    ensures MentionsUsage(data) <==> exists i :: UsageAt(data, i)
  {
    if data == "" {
      assert forall i :: !UsageAt(data, i);
    } else {
      MentionsUsageIff(data[1..]);
      assert UsageAt(data, 0) <==> "usage" <= data;
      forall i: nat
        ensures UsageAt(data[1..], i) <==> UsageAt(data, i + 1)
      {
        LaterInTail(data, i);
      }
      if i: nat :| UsageAt(data, i) && i > 0 {
        assert UsageAt(data[1..], i - 1);
      }
    }
  }

  lemma LaterInTail(data: string, i: nat)
    requires data != ""
    ensures UsageAt(data[1..], i) <==> UsageAt(data, i + 1)
  {
    if i + 6 <= |data| {
      assert data[1..][i..i + 5] == data[i + 1..i + 6];
    }
  }

  lemma MentionsUsageInside(a: string, b: string)
    ensures MentionsUsage(a + "usage" + b)
  {
    var s := a + "usage" + b;
    assert UsageAt(s, |a|);
    MentionsUsageIff(s);
  }

  function OpenAIReport(dec: Decoder, data: string): Report {
    if !MentionsUsage(data) then NOTHING
    else
      match dec.chunk(data)
      case None => NOTHING
      case Some(c) =>
        Report(c.model, if c.usage.Some? then Some(c.usage.value.0) else None,
               if c.usage.Some? then Some(c.usage.value.1) else None)
  }

  /** unicode.IsSpace. */
  predicate IsSpace(c: char) {
    || c in {'\t', '\n', '\U{0B}', '\U{0C}', '\r', ' ', '\U{85}', '\U{A0}', '\U{1680}',
             '\U{2028}', '\U{2029}', '\U{202F}', '\U{205F}', '\U{3000}'}
    || '\U{2000}' <= c <= '\U{200A}'
  }

  function TrimLeft(s: string): string {
    if s != "" && IsSpace(s[0]) then TrimLeft(s[1..]) else s
  }

  function TrimRight(s: string): string {
    if s != "" && IsSpace(s[|s| - 1]) then TrimRight(s[..|s| - 1]) else s
  }

  /** strings.TrimSpace. */
  function Trim(s: string): string {
    TrimRight(TrimLeft(s))
  }

  lemma NothingToTrim(s: string)
    requires s != "" && !IsSpace(s[0]) && !IsSpace(s[|s| - 1])
    ensures Trim(s) == s
  {
  }

  /** Payloads that are never decoded. */
  predicate Inert(data: string) {
    data == "[DONE]" || data == ""
  }

  function PayloadReport(dec: Decoder, provider: Provider, data: string, kind: string): Report {
    if Inert(data) then NOTHING
    else if provider.Anthropic? then AnthropicReport(dec, data, kind)
    else OpenAIReport(dec, data)
  }

  /** The last event type seen, which survives blank lines, and the usage so far. */
  datatype MeterState = MeterState(last: string, usage: Metered)

  function NextKind(last: string, line: string): string {
    if "event:" <= line then Trim(line[6..]) else last
  }

  function LineReport(dec: Decoder, provider: Provider, last: string, line: string): Report {
    if "data:" <= line then PayloadReport(dec, provider, Trim(line[5..]), last) else NOTHING
  }

  function MeterLine(dec: Decoder, provider: Provider, st: MeterState, line: string): MeterState {
    MeterState(NextKind(st.last, line), Apply(st.usage, LineReport(dec, provider, NextKind(st.last, line), line)))
  }

  function MeterLines(dec: Decoder, provider: Provider, st: MeterState, lines: seq<string>): MeterState
    decreases |lines|
  {
    if lines == [] then st else MeterLines(dec, provider, MeterLine(dec, provider, st, lines[0]), lines[1..])
  }

  // ---- One line, in the words of the provider ----

  /** The white space of Unicode, by code point. */
  lemma SpacesByCodePoint(c: char)
    ensures var n := c as int;
      IsSpace(c) <==>
      || 0x09 <= n <= 0x0D || n == 0x20 || n == 0x85 || n == 0xA0 || n == 0x1680 || 0x2000 <= n <= 0x200A
      || n == 0x2028 || n == 0x2029 || n == 0x202F || n == 0x205F || n == 0x3000
  {
  }

  predicate AllSpace(s: string) {
    forall i :: 0 <= i < |s| ==> IsSpace(s[i])
  }

  lemma {:induction false} LeftSpaces(s: string) returns (spaces: string)
    ensures s == spaces + TrimLeft(s) && AllSpace(spaces)
    ensures TrimLeft(s) != "" ==> !IsSpace(TrimLeft(s)[0])
  {
    spaces := "";
    if s != "" && IsSpace(s[0]) {
      var more := LeftSpaces(s[1..]);
      spaces := [s[0]] + more;
      assert s == [s[0]] + s[1..];
    }
  }

  lemma {:induction false} RightSpaces(s: string) returns (spaces: string)
    ensures s == TrimRight(s) + spaces && AllSpace(spaces)
    ensures TrimRight(s) != "" ==> !IsSpace(TrimRight(s)[|TrimRight(s)| - 1])
  {
    spaces := "";
    if s != "" && IsSpace(s[|s| - 1]) {
      var more := RightSpaces(s[..|s| - 1]);
      spaces := more + [s[|s| - 1]];
      assert s == s[..|s| - 1] + [s[|s| - 1]];
    }
  }

  /** Trimming takes spaces away at both ends, and all of them. */
  lemma TrimTakesSpaces(s: string)
    ensures exists a, b :: s == a + Trim(s) + b && AllSpace(a) && AllSpace(b)
    ensures Trim(s) != "" ==> !IsSpace(Trim(s)[0]) && !IsSpace(Trim(s)[|Trim(s)| - 1])
  {
    var a := LeftSpaces(s);
    var b := RightSpaces(TrimLeft(s));
    assert s == a + Trim(s) + b;
    assert Trim(s) != "" ==> Trim(s)[0] == TrimLeft(s)[0];
  }

  /** An `event:` line sets the type; it meters nothing. */
  lemma EventLineMeans(dec: Decoder, provider: Provider, st: MeterState, v: string)
    ensures MeterLine(dec, provider, st, "event:" + v) == MeterState(Trim(v), st.usage)
  {
    var line := "event:" + v;
    assert line[6..] == v && line[0] == 'e' && "data:"[0] == 'd';
  }

  /** Any other line that is not a data line changes nothing. */
  lemma OtherLineMeans(dec: Decoder, provider: Provider, st: MeterState, line: string)
    requires !("event:" <= line) && !("data:" <= line)
    ensures MeterLine(dec, provider, st, line) == st
  {
  }

  lemma DataLineIs(v: string)
    ensures var line := "data:" + v; "data:" <= line && !("event:" <= line) && line[5..] == v
  {
    var line := "data:" + v;
    assert line[0] == 'd' && "event:"[0] == 'e';
  }

  /** An empty payload and the end mark are not decoded. */
  lemma EndMarkMeans(dec: Decoder, provider: Provider, st: MeterState, v: string)
    requires Trim(v) == "" || Trim(v) == "[DONE]"
    ensures MeterLine(dec, provider, st, "data:" + v) == st
  {
    DataLineIs(v);
  }

  /** An Anthropic payload: message_start sets the input count, and the model and the output count if it has them;
      message_delta sets a positive output count; all else, and what does not decode, changes nothing. */
  lemma AnthropicLineMeans(dec: Decoder, st: MeterState, v: string)
    requires Trim(v) != "" && Trim(v) != "[DONE]"
    ensures var u, after := st.usage, MeterLine(dec, Anthropic, st, "data:" + v);
      && after.last == st.last
      && (st.last == "message_start" && dec.start(Trim(v)).Some? ==>
            var start := dec.start(Trim(v)).value;
            after.usage == Metered(if start.model != "" then start.model else u.model, start.input,
                                   if start.output > 0 then start.output else u.output))
      && (st.last == "message_delta" && dec.delta(Trim(v)).Some? && dec.delta(Trim(v)).value > 0 ==>
            after.usage == Metered(u.model, u.input, dec.delta(Trim(v)).value))
      && (st.last == "message_start" && dec.start(Trim(v)).None? ==> after.usage == u)
      && (st.last == "message_delta" && (dec.delta(Trim(v)).None? || dec.delta(Trim(v)).value <= 0) ==>
            after.usage == u)
      && (st.last != "message_start" && st.last != "message_delta" ==> after.usage == u)
  {
    DataLineIs(v);
  }

  /** An OpenAI payload that says "usage" and decodes sets the model if it has one, and both counts if it has usage; any
      other changes nothing. */
  lemma OpenAILineMeans(dec: Decoder, st: MeterState, v: string)
    requires Trim(v) != "" && Trim(v) != "[DONE]"
    ensures var u, after := st.usage, MeterLine(dec, OpenAI, st, "data:" + v);
      && after.last == st.last
      && ((exists i :: UsageAt(Trim(v), i)) && dec.chunk(Trim(v)).Some? ==>
            var chunk := dec.chunk(Trim(v)).value;
            && after.usage.model == (if chunk.model != "" then chunk.model else u.model)
            && (chunk.usage.Some? ==> (after.usage.input, after.usage.output) == chunk.usage.value)
            && (chunk.usage.None? ==> after.usage.input == u.input && after.usage.output == u.output))
      && (!(exists i :: UsageAt(Trim(v), i)) || dec.chunk(Trim(v)).None? ==> after.usage == u)
  {
    DataLineIs(v);
    MentionsUsageIff(Trim(v));
  }

  lemma {:induction false} MeterAppend(dec: Decoder, provider: Provider, st: MeterState, lines: seq<string>,
                                       more: seq<string>)
    ensures MeterLines(dec, provider, st, lines + more)
         == MeterLines(dec, provider, MeterLines(dec, provider, st, lines), more)
    decreases |lines|
  {
    if lines == [] {
      assert lines + more == more;
    } else {
      assert (lines + more)[1..] == lines[1..] + more;
      MeterAppend(dec, provider, MeterLine(dec, provider, st, lines[0]), lines[1..], more);
    }
  }

  lemma {:induction false} WrittenAppend(lines: seq<string>, more: seq<string>)
    ensures Written(lines + more) == Written(lines) + Written(more)
  {
    if lines == [] {
      assert lines + more == more;
    } else {
      assert (lines + more)[1..] == lines[1..] + more;
      WrittenAppend(lines[1..], more);
    }
  }

  /** One line more, written and metered. */
  lemma OneMoreLine(dec: Decoder, provider: Provider, st: MeterState, lines: seq<string>, n: nat)
    requires n < |lines|
    ensures Written(lines[..n + 1]) == Written(lines[..n]) + (lines[n] + "\n")
    ensures MeterLines(dec, provider, st, lines[..n + 1])
         == MeterLine(dec, provider, MeterLines(dec, provider, st, lines[..n]), lines[n])
  {
    assert lines[..n + 1] == lines[..n] + [lines[n]];
    WrittenAppend(lines[..n], [lines[n]]);
    MeterAppend(dec, provider, st, lines[..n], [lines[n]]);
    assert [lines[n]][1..] == [];
  }

  // ---- The imperative loop ----

  /** *proxy.Usage, filled in place while streaming. */
  class Usage {
    var provider: string
    var model: string
    var inputTokens: Int32
    var outputTokens: Int32

    constructor ()
      ensures State() == NO_USAGE
    {
      provider, model, inputTokens, outputTokens := "", "", 0, 0;
    }

    ghost function State(): Metered
      reads this
    {
      Metered(model, inputTokens, outputTokens)
    }

    method TryParseAnthropic(dec: Decoder, data: string, kind: string)
      modifies this`model, this`inputTokens, this`outputTokens
      ensures State() == Apply(old(State()), AnthropicReport(dec, data, kind))
    {
      if kind == "message_start" {
        var ms := dec.start(data);
        if ms.Some? {
          if ms.value.model != "" {
            model := ms.value.model;
          }
          inputTokens := ms.value.input;
          if ms.value.output > 0 {
            outputTokens := ms.value.output;
          }
        }
      } else if kind == "message_delta" {
        var md := dec.delta(data);
        if md.Some? && md.value > 0 {
          outputTokens := md.value;
        }
      }
    }

    method TryParseOpenAI(dec: Decoder, data: string)
      modifies this`model, this`inputTokens, this`outputTokens
      ensures State() == Apply(old(State()), OpenAIReport(dec, data))
    {
      if !MentionsUsage(data) {
        return;
      }
      var chunk := dec.chunk(data);
      if chunk.None? {
        return;
      }
      if chunk.value.model != "" {
        model := chunk.value.model;
      }
      if chunk.value.usage.Some? {
        inputTokens, outputTokens := chunk.value.usage.value.0, chunk.value.usage.value.1;
      }
    }
  }

  /** The client's side of the connection. */
  class ResponseWriter {
    var body: string

    method WriteString(s: string)
      modifies this
      ensures body == old(body) + s
    {
      body := body + s;
    }
  }

  /** bufio.Scanner over the rest of the upstream body. */
  class Scanner {
    var rest: string

    constructor (body: string)
      ensures rest == body
    {
      rest := body;
    }

    method Scan() returns (more: bool, line: string)
      modifies this
      ensures more <==> Tokens(old(rest)) != []
      ensures more ==> Tokens(old(rest)) == [line] + Tokens(rest) && |rest| < |old(rest)|
    {
      if rest == "" {
        return false, "";
      }
      var i := IndexOf(rest, '\n');
      if Utf8Length(rest[..i]) >= SCAN_LIMIT {
        return false, "";
      }
      more, line := true, DropCr(rest[..i]);
      rest := if i == |rest| then "" else rest[i + 1..];
    }
  }

  /** How many lines are processed before the client is gone. */
  function Processed(lines: seq<string>, connected: nat): nat {
    if connected < |lines| then connected else |lines|
  }

  /** What reaches the client: the processed lines, then one line feed if the upstream ended first. */
  function Sent(lines: seq<string>, connected: nat): string {
    if connected < |lines| then Written(lines[..connected]) else Written(lines) + "\n"
  }

  /** A client that stays receives the forwarded stream that the client's parser is applied to. */
  lemma AllSentIsForwarded(s: string, connected: nat)
    requires connected >= |Tokens(s)|
    ensures Sent(Tokens(s), connected) == Forwarded(s) && Processed(Tokens(s), connected) == |Tokens(s)|
  {
  }

  /** One that leaves before line `connected` receives the lines before it, and they are what is metered. */
  lemma CutIsSent(lines: seq<string>, connected: nat)
    requires connected < |lines|
    ensures Sent(lines, connected) == Written(lines[..connected]) && Processed(lines, connected) == connected
  {
  }

  /** The loop body for one line: track the event type, forward, then meter a data line. */
  method ServeLine(w: ResponseWriter, u: Usage, provider: Provider, dec: Decoder, lastEventType: string, line: string)
    returns (eventType: string)
    modifies w, u`model, u`inputTokens, u`outputTokens
    ensures w.body == old(w.body) + (line + "\n")
    ensures MeterState(eventType, u.State())
         == MeterLine(dec, provider, MeterState(lastEventType, old(u.State())), line)
  {
    eventType := lastEventType;
    if "event:" <= line {
      eventType := Trim(line[6..]);
    }
    w.WriteString(line + "\n");
    if "data:" <= line {
      var data := Trim(line[5..]);
      if data == "[DONE]" || data == "" {
        return;
      }
      match provider {
        case Anthropic => u.TryParseAnthropic(dec, data, eventType);
        case OpenAI => u.TryParseOpenAI(dec, data);
      }
    }
  }

  /** Forwards and meters; `connected` is the number of lines after which the request's context is done. Output and
      usage are exactly those of the processed lines; the extra line feed is written only at the upstream's end. */
  method StreamSSE(w: ResponseWriter, u: Usage, body: string, provider: Provider, dec: Decoder, connected: nat)
    modifies w, u`model, u`inputTokens, u`outputTokens
    ensures w.body == old(w.body) + Sent(Tokens(body), connected)
    ensures connected >= |Tokens(body)| ==> w.body == old(w.body) + Forwarded(body)
    ensures u.State() == MeterLines(dec, provider, MeterState("", old(u.State())),
                                    Tokens(body)[..Processed(Tokens(body), connected)]).usage
  {
    ghost var lines, start, base := Tokens(body), MeterState("", u.State()), w.body;
    if connected >= |Tokens(body)| {
      AllSentIsForwarded(body, connected);
    }
    var scanner := new Scanner(body);
    var lastEventType, n := "", 0;
    var more, line := scanner.Scan();
    assert lines[0..] == lines && lines[..0] == [];
    NextRemaining(lines, 0, body, more, line, scanner.rest);
    while more
      modifies scanner, w, u`model, u`inputTokens, u`outputTokens
      invariant n <= connected && Remaining(lines, n, more, line, scanner.rest)
      invariant w.body == base + Written(lines[..n])
      invariant MeterState(lastEventType, u.State()) == MeterLines(dec, provider, start, lines[..n])
      decreases |lines| - n
    {
      if n == connected {
        return;
      }
      ghost var rest := scanner.rest;
      LineWritten(base, lines, n, line, rest);
      OneMoreLine(dec, provider, start, lines, n);
      lastEventType := ServeLine(w, u, provider, dec, lastEventType, line);
      n := n + 1;
      more, line := scanner.Scan();
      NextRemaining(lines, n, rest, more, line, scanner.rest);
    }
    Exhausted(lines, n);
    Grouped(base, Written(lines), "\n");
    w.WriteString("\n");
  }

  /** The lines from n on are this line, if there is one more, and what the scanner has still to yield. */
  ghost predicate Remaining(lines: seq<string>, n: nat, more: bool, line: string, rest: string) {
    && n <= |lines| && lines[n..] == (if more then [line] + Tokens(rest) else [])
    && (more ==> n < |lines| && lines[n] == line)
  }

  lemma LineWritten(base: string, lines: seq<string>, n: nat, line: string, rest: string)
    requires Remaining(lines, n, true, line, rest)
    ensures base + Written(lines[..n]) + (line + "\n") == base + Written(lines[..n + 1])
    ensures lines[n + 1..] == Tokens(rest)
  {
    Shift(lines, n, line, Tokens(rest));
    assert lines[..n + 1] == lines[..n] + [line];
    WrittenAppend(lines[..n], [line]);
    assert [line][1..] == [];
    Grouped(base, Written(lines[..n]), line + "\n");
  }

  lemma NextRemaining(lines: seq<string>, n: nat, before: string, more: bool, line: string, rest: string)
    requires n <= |lines| && lines[n..] == Tokens(before)
    requires Tokens(before) == if more then [line] + Tokens(rest) else []
    ensures Remaining(lines, n, more, line, rest)
  {
    if more {
      Shift(lines, n, line, Tokens(rest));
    }
  }

  lemma Shift(lines: seq<string>, n: nat, line: string, rest: seq<string>)
    requires n <= |lines| && lines[n..] == [line] + rest
    ensures n < |lines| && lines[n] == line && lines[n + 1..] == rest
  {
    assert lines[n] == lines[n..][0];
    assert lines[n + 1..] == lines[n..][1..];
  }

  lemma Exhausted(lines: seq<string>, n: nat)
    requires n <= |lines| && lines[n..] == []
    ensures n == |lines| && lines[..n] == lines
  {
  }

  lemma Grouped(a: string, b: string, c: string)
    ensures a + b + c == a + (b + c)
  {
  }
}
