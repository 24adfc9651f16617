/** The rewriting streamSSE does on a stream, and what a client reads from the result. */
module Forwarding {
  import opened Sse

  function Utf8Width(c: char): nat {
    if c < '\U{80}' then 1 else if c < '\U{800}' then 2 else if c < '\U{10000}' then 3 else 4
  }

  function Utf8Length(s: string): nat {
    if s == "" then 0 else Utf8Width(s[0]) + Utf8Length(s[1..])
  }

  /** bufio.MaxScanTokenSize: a full buffer without a line feed stops the scanner. */
  const SCAN_LIMIT := 65_536

  /** bufio.ScanLines drops one carriage return at the end of a line. */
  function DropCr(line: string): string {
    if line != "" && line[|line| - 1] == '\r' then line[..|line| - 1] else line
  }

  /** The lines bufio.Scanner yields; a line too long for its buffer ends the scan. */
  function Tokens(s: string): seq<string> {
    if s == "" then []
    else
      var i := IndexOf(s, '\n');
      if Utf8Length(s[..i]) >= SCAN_LIMIT then []
      else [DropCr(s[..i])] + if i == |s| then [] else Tokens(s[i + 1..])
  }

  /** Every line fits the scanner's buffer. */
  predicate AllFit(s: string) {
    s == "" ||
    var i := IndexOf(s, '\n');
    Utf8Length(s[..i]) < SCAN_LIMIT && (i == |s| || AllFit(s[i + 1..]))
  }

  /** Each line is written with a line feed of its own. */
  function Written(lines: seq<string>): string {
    if lines == [] then "" else lines[0] + "\n" + Written(lines[1..])
  }

  /** What the client receives when the upstream ends by itself. */
  function Forwarded(s: string): string {
    Written(Tokens(s)) + "\n"
  }

  /** The stream with its last line ended. */
  function Completed(s: string): string {
    if s == "" || s[|s| - 1] == '\n' then s else s + "\n"
  }

  /** A carriage return right before a CRLF: a blank line to the client, but one line to the scanner. */
  ghost predicate DoubledCr(s: string) {
    exists k :: 0 <= k && k + 2 < |s| && s[k] == '\r' && s[k + 1] == '\r' && s[k + 2] == '\n'
  }

  datatype LineEnding = Lf | CrLf | Cr

  function Text(e: LineEnding): string {
    match e case Lf => "\n" case CrLf => "\r\n" case Cr => "\r"
  }

  predicate OneLine(line: string) {
    '\n' !in line && '\r' !in line
  }

  /** One line end of any of the three kinds is one line to the client. */
  lemma FirstLine(line: string, e: LineEnding, rest: string)
    requires OneLine(line)
    requires e.Cr? ==> rest == "" || rest[0] != '\n'
    ensures ClientLines(line + Text(e) + rest) == [line] + ClientLines(rest)
  {
    var t, i := line + Text(e) + rest, |line|;
    assert t[i] == Text(e)[0];
    assert forall k :: 0 <= k < i ==> t[k] == line[k] && line[k] in line;
    assert LineEnd(t) == i;
    assert t[..i] == line;
    assert t[i + |Text(e)|..] == rest;
  }

  lemma Assoc(a: seq<string>, b: seq<string>, c: seq<string>)
    ensures a + (b + c) == a + b + c
  {
  }

  lemma SplitAt(line: string, i: nat)
    requires i < |line| && line[i] == '\r'
    ensures line == line[..i] + Text(Cr) + line[i + 1..]
  {
  }

  lemma Regroup(a: string, b: string, c: string, d: string, e: string)
    ensures a + b + c + d + e == a + b + (c + d + e)
    ensures a + b + c + d == a + b + (c + d)
  {
  }

  /** A text without LF reads the same whichever line end follows, unless the line end would merge with what is beside
      it. */
  lemma {:induction false} LineBreaksReadAlike(line: string, e: LineEnding, rest: string)
    requires '\n' !in line
    requires e.Lf? ==> line == "" || line[|line| - 1] != '\r'
    requires e.Cr? ==> rest == "" || rest[0] != '\n'
    ensures ClientLines(line + Text(e) + rest) == ClientLines(line + Text(Cr)) + ClientLines(rest)
    decreases |line|
  {
    var i := IndexOf(line, '\r');
    if i == |line| {
      WithoutCr(line, e, rest);
    } else {
      var head, more := line[..i], line[i + 1..];
      SplitAt(line, i);
      TailOf(line, i, e);
      LineBreaksReadAlike(more, e, rest);
      AfterCr(head, more, e, rest);
    }
  }

  lemma TailOf(line: string, i: nat, e: LineEnding)
    requires i == IndexOf(line, '\r') < |line| && '\n' !in line
    requires e.Lf? ==> line[|line| - 1] != '\r'
    ensures OneLine(line[..i]) && '\n' !in line[i + 1..] && (line[i + 1..] + Text(e))[0] != '\n'
    ensures e.Lf? ==> line[i + 1..] == "" || line[i + 1..][|line| - i - 2] != '\r'
  {
    PartsWithoutLf(line, i);
    StartsWithoutLf(line[i + 1..], e);
  }

  lemma PartsWithoutLf(line: string, i: nat)
    requires i == IndexOf(line, '\r') < |line| && '\n' !in line
    ensures OneLine(line[..i]) && '\n' !in line[i + 1..]
  {
    assert forall c :: c in line[..i] ==> c in line;
    assert forall c :: c in line[i + 1..] ==> c in line;
  }

  /** What is left is followed by LF only if it is not empty. */
  lemma StartsWithoutLf(more: string, e: LineEnding)
    requires '\n' !in more && (e.Lf? ==> more != "")
    ensures (more + Text(e))[0] != '\n'
  {
    if more != "" {
      assert more[0] in more;
    }
  }

  lemma WithoutCr(line: string, e: LineEnding, rest: string)
    requires OneLine(line) && (e.Cr? ==> rest == "" || rest[0] != '\n')
    ensures ClientLines(line + Text(e) + rest) == ClientLines(line + Text(Cr)) + ClientLines(rest)
  {
    FirstLine(line, e, rest);
    FirstLine(line, Cr, "");
    assert line + Text(Cr) + "" == line + Text(Cr);
  }

  /** Prefixing a line and a bare CR puts one line in front. */
  lemma AfterCr(head: string, more: string, e: LineEnding, rest: string)
    requires OneLine(head) && (more + Text(e))[0] != '\n' && (more + Text(Cr))[0] != '\n'
    requires ClientLines(more + Text(e) + rest) == ClientLines(more + Text(Cr)) + ClientLines(rest)
    ensures ClientLines(head + Text(Cr) + more + Text(e) + rest)
         == ClientLines(head + Text(Cr) + more + Text(Cr)) + ClientLines(rest)
  {
    Regroup(head, Text(Cr), more, Text(e), rest);
    Regroup(head, Text(Cr), more, Text(Cr), "");
    FirstLine(head, Cr, more + Text(e) + rest);
    FirstLine(head, Cr, more + Text(Cr));
    Assoc([head], ClientLines(more + Text(Cr)), ClientLines(rest));
  }

  // ---- Forwarded lines ----

  lemma CompletedAt(s: string, i: nat)
    requires i < |s| && s[i] == '\n'
    ensures Completed(s) == s[..i] + Text(Lf) + Completed(s[i + 1..])
  {
    assert s == s[..i] + Text(Lf) + s[i + 1..];
    if i + 1 < |s| {
      assert s[i + 1..][|s| - i - 2] == s[|s| - 1];
    }
  }

  lemma ForwardedAt(s: string)
    requires s != "" && AllFit(s)
    ensures var i := IndexOf(s, '\n');
            Forwarded(s) == DropCr(s[..i]) + Text(Lf) + Forwarded(if i == |s| then "" else s[i + 1..])
  {
    var i := IndexOf(s, '\n');
    WrittenCons(DropCr(s[..i]), Tokens(if i == |s| then "" else s[i + 1..]));
  }

  lemma WrittenCons(line: string, lines: seq<string>)
    ensures Written([line] + lines) + "\n" == line + Text(Lf) + (Written(lines) + "\n")
  {
    assert ([line] + lines)[1..] == lines;
  }

  /** A scanned line that the client reads, upstream, as a line and a blank line. */
  predicate EndsDoubled(raw: string) {
    |raw| >= 2 && raw[|raw| - 1] == '\r' && raw[|raw| - 2] == '\r'
  }

  function Stem(raw: string): string {
    if EndsDoubled(raw) then raw[..|raw| - 2] else DropCr(raw)
  }

  /** How many of them there are. */
  function DoubledLines(s: string): nat {
    if s == "" then 0
    else
      var i := IndexOf(s, '\n');
      (if EndsDoubled(s[..i]) then 1 else 0) + if i == |s| then 0 else DoubledLines(s[i + 1..])
  }

  lemma DoubledSplits(raw: string, rest: string)
    requires '\n' !in raw
    ensures DoubledCr(raw + Text(Lf) + rest) <==> EndsDoubled(raw) || DoubledCr(rest)
  {
    var s, n := raw + Text(Lf) + rest, |raw|;
    assert s[n] == '\n';
    if EndsDoubled(raw) {
      assert s[n - 2] == '\r' && s[n - 1] == '\r';
    }
    if k :| 0 <= k && k + 2 < |rest| && rest[k] == '\r' && rest[k + 1] == '\r' && rest[k + 2] == '\n' {
      assert s[n + 1 + k] == '\r' && s[n + 1 + k + 1] == '\r' && s[n + 1 + k + 2] == '\n';
    }
    if k :| 0 <= k && k + 2 < |s| && s[k] == '\r' && s[k + 1] == '\r' && s[k + 2] == '\n' {
      DoubledInOne(raw, rest, k);
    }
  }

  lemma DoubledInOne(raw: string, rest: string, k: nat)
    requires '\n' !in raw
    requires var s := raw + Text(Lf) + rest; k + 2 < |s| && s[k] == '\r' && s[k + 1] == '\r' && s[k + 2] == '\n'
    ensures EndsDoubled(raw) || DoubledCr(rest)
  {
    var s, n := raw + Text(Lf) + rest, |raw|;
    assert forall j :: 0 <= j < n ==> s[j] == raw[j] && raw[j] in raw;
    if k > n {
      assert rest[k - n - 1] == '\r' && rest[k - n] == '\r' && rest[k - n + 1] == '\n';
    }
  }

  /** The text after the first line. */
  function AfterLf(s: string): string
    requires s != ""
  {
    var i := IndexOf(s, '\n');
    if i == |s| then "" else s[i + 1..]
  }

  lemma LineThenRest(s: string, raw: string, rest: string)
    requires s != "" && raw == s[..IndexOf(s, '\n')] && rest == AfterLf(s)
    ensures Completed(s) == raw + Text(Lf) + Completed(rest) && '\n' !in raw
  {
    CompletedSplits(s);
  }

  lemma DoubledSplitsHere(s: string, raw: string, rest: string)
    requires s != "" && raw == s[..IndexOf(s, '\n')] && rest == AfterLf(s)
    ensures DoubledCr(Completed(s)) <==> EndsDoubled(raw) || DoubledCr(Completed(rest))
  {
    LineThenRest(s, raw, rest);
    DoubledOf(Completed(s), raw, Completed(rest));
  }

  lemma DoubledOf(s: string, raw: string, rest: string)
    requires s == raw + Text(Lf) + rest && '\n' !in raw
    ensures DoubledCr(s) <==> EndsDoubled(raw) || DoubledCr(rest)
  {
    DoubledSplits(raw, rest);
  }

  lemma CountedHere(s: string)
    requires s != ""
    ensures DoubledLines(s) == (if EndsDoubled(s[..IndexOf(s, '\n')]) then 1 else 0) + DoubledLines(AfterLf(s))
  {
  }

  lemma {:induction false} DoubledIffCounted(s: string)
    ensures DoubledCr(Completed(s)) <==> DoubledLines(s) > 0
    decreases |s|
  {
    if s != "" {
      DoubledSplitsHere(s, s[..IndexOf(s, '\n')], AfterLf(s));
      CountedHere(s);
      DoubledIffCounted(AfterLf(s));
    }
  }

  lemma CrThenLf(line: string, rest: string)
    ensures line + "\r" + Text(Lf) + rest == line + Text(CrLf) + rest
    ensures line + "\r" + "\r" + Text(Lf) + rest == line + Text(Cr) + (Text(CrLf) + rest)
  {
  }

  lemma StemEndings(raw: string)
    ensures EndsDoubled(raw) ==> DropCr(raw) == Stem(raw) + "\r" && raw == Stem(raw) + "\r" + "\r"
    ensures raw != DropCr(raw) ==> raw == DropCr(raw) + "\r"
  {
  }

  /** One scanned line, as the client reads it from the forwarded stream. */
  lemma LineForwarded(raw: string, rest: string)
    requires '\n' !in raw
    ensures ClientLines(DropCr(raw) + Text(Lf) + rest) == ClientLines(Stem(raw) + Text(Cr)) + ClientLines(rest)
  {
    StemEndings(raw);
    CrThenLf(Stem(raw), rest);
    LineBreaksReadAlike(Stem(raw), if EndsDoubled(raw) then CrLf else Lf, rest);
  }

  /** The same line, as the client reads it from the upstream. */
  lemma LineUpstream(raw: string, rest: string)
    requires '\n' !in raw
    ensures ClientLines(raw + Text(Lf) + rest)
         == ClientLines(Stem(raw) + Text(Cr))
          + (if EndsDoubled(raw) then [""] + ClientLines(rest) else ClientLines(rest))
  {
    StemEndings(raw);
    CrThenLf(Stem(raw), rest);
    if EndsDoubled(raw) {
      LineBreaksReadAlike(Stem(raw), Cr, Text(CrLf) + rest);
      FirstLine("", CrLf, rest);
      assert "" + Text(CrLf) + rest == Text(CrLf) + rest;
    } else {
      LineBreaksReadAlike(Stem(raw), if raw == DropCr(raw) then Lf else CrLf, rest);
    }
  }

  /** The forwarded stream is one blank line longer, and shorter by one blank line for every doubled CR. */
  lemma {:induction false} LinesCounted(s: string)
    requires AllFit(s)
    ensures |ClientLines(Forwarded(s))| + DoubledLines(s) == |ClientLines(Completed(s))| + 1
    ensures DoubledLines(s) == 0 ==> ClientLines(Forwarded(s)) == ClientLines(Completed(s)) + [""]
    decreases |s|
  {
    if s == "" {
      NothingForwarded();
    } else {
      var i := IndexOf(s, '\n');
      var rest := if i == |s| then "" else s[i + 1..];
      ForwardedAt(s);
      CompletedSplits(s);
      LinesCounted(rest);
      LineForwarded(s[..i], Forwarded(rest));
      LineUpstream(s[..i], Completed(rest));
      Assoc(ClientLines(Stem(s[..i]) + Text(Cr)), ClientLines(Completed(rest)), [""]);
    }
  }

  /** The client reads the forwarded lines as the completed upstream lines and one blank line more, exactly when no CR
      precedes a CRLF. */
  lemma ForwardedLines(s: string)
    requires AllFit(s)
    ensures ClientLines(Forwarded(s)) == ClientLines(Completed(s)) + [""] <==> !DoubledCr(Completed(s))
    ensures |ClientLines(Forwarded(s))| == |ClientLines(Completed(s))| + 1 - DoubledLines(s)
  {
    LinesCounted(s);
    DoubledIffCounted(s);
  }

  lemma NothingForwarded()
    ensures ClientLines(Forwarded("")) == ClientLines(Completed("")) + [""]
  {
    FirstLine("", Lf, "");
    assert "" + Text(Lf) + "" == "\n";
    assert Forwarded("") == "\n";
  }

  lemma CompletedSplits(s: string)
    requires s != ""
    ensures var i := IndexOf(s, '\n');
            var rest := if i == |s| then "" else s[i + 1..];
            && Completed(s) == s[..i] + Text(Lf) + Completed(rest)
            && i + 1 <= |Completed(s)| && Completed(s)[i + 1..] == Completed(rest)
            && '\n' !in s[..i]
  {
    var i := IndexOf(s, '\n');
    if i < |s| {
      CompletedAt(s, i);
    } else {
      assert s[|s| - 1] != '\n';
      assert s[..i] == s;
    }
  }

  // ---- The end of the stream ----

  /** A byte order mark is part of the first line only. */
  function StripFirst(lines: seq<string>): seq<string> {
    if lines == [] then [] else [StripBom(lines[0])] + lines[1..]
  }

  lemma StrippedLines(s: string)
    ensures ClientLines(StripBom(s)) == StripFirst(ClientLines(s))
  {
    var i := LineEnd(s);
    if s != [] && s[0] == BOM {
      assert i == 1 + LineEnd(s[1..]);
      if i < |s| {
        WithoutFirst(s, i);
      }
    } else if i < |s| {
      assert StripBom(s[..i]) == s[..i];
    }
  }

  /** Without its first character a text has the same lines, the first one shorter. */
  lemma WithoutFirst(s: string, i: nat)
    requires s != "" && i == LineEnd(s) == 1 + LineEnd(s[1..]) < |s|
    ensures ClientLines(s[1..]) == [s[..i][1..]] + ClientLines(s)[1..]
  {
    var skip := if s[i] == '\r' && i + 1 < |s| && s[i + 1] == '\n' then 2 else 1;
    assert s[1..][..i - 1] == s[..i][1..];
    DropAfterFirst(s, i + skip);
  }

  lemma DropAfterFirst(s: string, n: nat)
    requires 1 <= n <= |s|
    ensures s[1..][n - 1..] == s[n..]
  {
  }

  /** Ending the last line changes nothing, or adds `last`, which is not blank unless there was nothing before it. */
  ghost predicate AtMostOneMore(more: seq<string>, lines: seq<string>, s: string) {
    more == lines || exists last :: OneMore(more, lines, last) && (last == "" ==> s == "")
  }

  ghost predicate OneMore(more: seq<string>, lines: seq<string>, last: string) {
    more == lines + [last]
  }

  lemma {:induction false} CompletedLines(s: string)
    requires s == "" || s[|s| - 1] != '\n'
    ensures AtMostOneMore(ClientLines(s + Text(Lf)), ClientLines(s), s)
    decreases |s|
  {
    var i := LineEnd(s);
    if i == |s| {
      LastLine(s);
    } else if s[i] == '\n' || i + 1 < |s| {
      var e := if s[i] == '\n' then Lf else if s[i + 1] == '\n' then CrLf else Cr;
      CutLine(s, i, e);
      NoEndBefore(s, i);
      CompletedLines(s[i + |Text(e)|..]);
      OneMoreInFront(s[..i], e, s[i + |Text(e)|..]);
    } else {
      EndsInCr(s, i);
    }
  }

  lemma LastLine(s: string)
    requires LineEnd(s) == |s|
    ensures AtMostOneMore(ClientLines(s + Text(Lf)), ClientLines(s), s)
  {
    FirstLine(s, Lf, "");
    assert s + Text(Lf) + "" == s + Text(Lf);
    assert OneMore(ClientLines(s + Text(Lf)), ClientLines(s), s);
  }

  lemma CutAt(s: string, i: nat, n: nat)
    requires i + n <= |s|
    ensures s == s[..i] + s[i..i + n] + s[i + n..]
  {
  }

  lemma CutLine(s: string, i: nat, e: LineEnding)
    requires i < |s| && s[|s| - 1] != '\n'
    requires if e.Lf? then s[i] == '\n' else s[i] == '\r' && i + 1 < |s| && (e.CrLf? <==> s[i + 1] == '\n')
    ensures i + |Text(e)| < |s| && s[i + |Text(e)|..] != "" && s[i + |Text(e)|..][|s| - i - |Text(e)| - 1] != '\n'
    ensures s == s[..i] + Text(e) + s[i + |Text(e)|..]
    ensures e.Cr? ==> s[i + |Text(e)|..][0] != '\n'
  {
    CutAt(s, i, |Text(e)|);
    EndingIs(s, i, e);
    Leftover(s, i + |Text(e)|);
  }

  lemma Leftover(s: string, k: nat)
    requires k < |s|
    ensures s[k..] != "" && s[k..][|s| - k - 1] == s[|s| - 1] && s[k..][0] == s[k]
  {
  }

  lemma EndingIs(s: string, i: nat, e: LineEnding)
    requires i + |Text(e)| <= |s| && forall k :: 0 <= k < |Text(e)| ==> s[i + k] == Text(e)[k]
    ensures s[i..i + |Text(e)|] == Text(e)
  {
  }

  lemma NoEndBefore(s: string, i: nat)
    requires i == LineEnd(s)
    ensures OneLine(s[..i])
  {
  }

  lemma OneMoreInFront(line: string, e: LineEnding, rest: string)
    requires OneLine(line) && rest != "" && (e.Cr? ==> rest[0] != '\n')
    requires AtMostOneMore(ClientLines(rest + Text(Lf)), ClientLines(rest), rest)
    ensures var s := line + Text(e) + rest; AtMostOneMore(ClientLines(s + Text(Lf)), ClientLines(s), s)
  {
    Regroup(line, Text(e), rest, Text(Lf), "");
    FirstLine(line, e, rest);
    FirstLine(line, e, rest + Text(Lf));
    if last :| OneMore(ClientLines(rest + Text(Lf)), ClientLines(rest), last) && (last == "" ==> rest == "") {
      Assoc([line], ClientLines(rest), [last]);
      assert OneMore(ClientLines(line + Text(e) + rest + Text(Lf)), ClientLines(line + Text(e) + rest), last);
    }
  }

  lemma EndsInCr(s: string, i: nat)
    requires i == LineEnd(s) == |s| - 1 && s[i] == '\r'
    ensures ClientLines(s + Text(Lf)) == ClientLines(s)
  {
    FirstLine(s[..i], CrLf, "");
    FirstLine(s[..i], Cr, "");
    CrAtEnd(s, i);
  }

  lemma CrAtEnd(s: string, i: nat)
    requires i == |s| - 1 && s[i] == '\r'
    ensures s + Text(Lf) == s[..i] + Text(CrLf) + ""
    ensures s == s[..i] + Text(Cr) + ""
  {
  }

  /** The lines a client would read if the upstream ended its last line. */
  function UpstreamLines(s: string): seq<string> {
    ClientLines(StripBom(Completed(s)))
  }

  /** Ending the last line dispatches nothing. */
  lemma CompletionIsSilent(s: string)
    ensures Events(EMPTY, UpstreamLines(s)) == Parse(s)
  {
    if Completed(s) != s {
      var body := StripBom(s);
      assert StripBom(Completed(s)) == body + Text(Lf);
      CompletedLines(body);
      if last :| OneMore(UpstreamLines(s), ClientLines(body), last) && (last == "" ==> body == "") {
        EventsAppend(EMPTY, ClientLines(body), last);
      }
    }
  }

  /** Forwarding preserves events: when every line fits the scanner and no CR precedes a CRLF, the client parses the
      upstream's events from the forwarded stream, plus the event that was still open at the end of the upstream, which
      the extra blank line dispatches. The two agree exactly when no data field follows the last blank line. */
  lemma ForwardingPreservesEvents(s: string)
    requires AllFit(s) && !DoubledCr(Completed(s))
    ensures Parse(Forwarded(s)) == Parse(s) + Dispatch(Final(EMPTY, UpstreamLines(s)))
    ensures Parse(Forwarded(s)) == Parse(s) <==> !OpenData(UpstreamLines(s))
  {
    var lines := UpstreamLines(s);
    ForwardedLines(s);
    StrippedLines(Completed(s));
    StrippedLines(Forwarded(s));
    StripLast(ClientLines(Completed(s)));
    EventsAppend(EMPTY, lines, "");
    CompletionIsSilent(s);
    PendingIffOpen(lines);
  }

  lemma StripLast(lines: seq<string>)
    ensures StripFirst(lines + [""]) == StripFirst(lines) + [""]
  {
    if lines != [] {
      assert (lines + [""])[1..] == lines[1..] + [""];
    }
  }

  /** A stream whose last line is blank, ended by LF or by CRLF, has nothing open. */
  predicate EndsInBlankLine(s: string) {
    |s| >= 2 && s[|s| - 1] == '\n' && (s[|s| - 2] == '\n' || (|s| >= 3 && s[|s| - 2] == '\r' && s[|s| - 3] == '\n'))
  }

  /** The corollary for well-ended streams. */
  lemma CompleteStreamsForwardFaithfully(s: string)
    requires AllFit(s) && !DoubledCr(s) && EndsInBlankLine(s)
    ensures Parse(Forwarded(s)) == Parse(s)
  {
    BlankWithoutBom(s);
    LastLineBlank(StripBom(s));
    BlankIsNotOpen(UpstreamLines(s));
    ForwardingPreservesEvents(s);
  }

  lemma BlankWithoutBom(s: string)
    requires EndsInBlankLine(s)
    ensures EndsInBlankLine(StripBom(s))
  {
  }

  lemma BlankIsNotOpen(lines: seq<string>)
    requires lines != [] && lines[|lines| - 1] == ""
    ensures !OpenData(lines)
  {
    assert FieldName("") == "";
  }

  lemma {:induction false} LastLineBlank(s: string)
    requires s == "\n" || s == "\r\n" || EndsInBlankLine(s)
    ensures ClientLines(s) != [] && ClientLines(s)[|ClientLines(s)| - 1] == ""
    decreases |s|
  {
    var n := AfterFirstLine(s);
    if n < |s| {
      BlankTail(s, n);
      LastLineBlank(s[n..]);
    }
  }

  /** Where the second line starts. */
  function AfterFirstLine(s: string): (n: nat)
    requires s == "\n" || s == "\r\n" || EndsInBlankLine(s)
    ensures 0 < n <= |s|
    ensures ClientLines(s) == [s[..LineEnd(s)]] + ClientLines(s[n..])
    ensures n < |s| ==> EndsInBlankLine(s) && (s[n - 1] == '\n' || (s[n - 1] == '\r' && s[n] != '\n'))
    ensures n == |s| ==> s[..LineEnd(s)] == ""
  {
    var i := LineEnd(s);
    if s[i] == '\r' && i + 1 < |s| && s[i + 1] == '\n' then i + 2 else i + 1
  }

  lemma BlankTail(s: string, n: nat)
    requires EndsInBlankLine(s) && 0 < n < |s| && (s[n - 1] == '\n' || (s[n - 1] == '\r' && s[n] != '\n'))
    ensures s[n..] == "\n" || s[n..] == "\r\n" || EndsInBlankLine(s[n..])
  {
    if n == |s| - 1 {
      assert s[n..] == "\n";
    } else if n == |s| - 2 {
      assert s[n..] == [s[n], '\n'];
    }
  }

  // ---- Written lines are scanned again ----

  lemma OneToken(line: string, rest: string)
    requires OneLine(line) && Utf8Length(line) < SCAN_LIMIT
    ensures Tokens(line + "\n" + rest) == [line] + Tokens(rest)
  {
    var s := line + "\n" + rest;
    EndsAt(line, rest);
    assert DropCr(line) == line by {
      if line != "" { assert line[|line| - 1] in line; }
    }
  }

  lemma EndsAt(line: string, rest: string)
    requires OneLine(line)
    ensures var s := line + "\n" + rest;
      |line| < |s| && IndexOf(s, '\n') == |line| && s[..|line|] == line && s[|line| + 1..] == rest
  {
    var s := line + "\n" + rest;
    assert s[|line|] == '\n';
    assert forall k :: 0 <= k < |line| ==> s[k] == line[k] && line[k] in line;
  }

  /** Written lines that fit the scanner and have no CR come back as they are. */
  lemma {:induction false} TokensOfWritten(lines: seq<string>)
    requires forall line :: line in lines ==> OneLine(line) && Utf8Length(line) < SCAN_LIMIT
    ensures Tokens(Written(lines)) == lines
  {
    if lines != [] {
      OneToken(lines[0], Written(lines[1..]));
      TokensOfWritten(lines[1..]);
      assert lines == [lines[0]] + lines[1..];
    }
  }

  lemma {:induction false} LengthAdds(a: string, b: string)
    ensures Utf8Length(a + b) == Utf8Length(a) + Utf8Length(b)
  {
    if a == "" {
      assert a + b == b;
    } else {
      assert (a + b)[1..] == a[1..] + b;
      LengthAdds(a[1..], b);
    }
  }

  lemma {:induction false} FewBytes(s: string)
    ensures Utf8Length(s) <= 4 * |s|
  {
    if s != "" {
      FewBytes(s[1..]);
    }
  }

  lemma NoLineEnd(s: string)
    requires forall i :: 0 <= i < |s| ==> s[i] > ' '
    ensures OneLine(s)
  {
  }


  // ---- The scanner in numbers ----

  lemma FirstEnd(line: string, rest: string)
    requires '\n' !in line
    ensures var s := line + "\n" + rest;
      |line| < |s| && IndexOf(s, '\n') == |line| && s[..|line|] == line && s[|line| + 1..] == rest
  {
    var s := line + "\n" + rest;
    assert s[|line|] == '\n';
    assert forall k :: 0 <= k < |line| ==> s[k] == line[k] && line[k] in line;
  }

  /** A line of at most 65,535 bytes is yielded, without one carriage return before its line feed; a longer one ends the
      scan. */
  lemma ScanLineInNumbers(line: string, rest: string)
    requires '\n' !in line
    ensures Utf8Length(line) <= 65_535 && (line == "" || line[|line| - 1] != '\r') ==>
      Tokens(line + "\n" + rest) == [line] + Tokens(rest)
    ensures Utf8Length(line + "\r") <= 65_535 ==> Tokens(line + "\r" + "\n" + rest) == [line] + Tokens(rest)
    ensures Utf8Length(line) > 65_535 ==> Tokens(line + "\n" + rest) == []
  {
    FirstEnd(line, rest);
    FirstEnd(line + "\r", rest);
    assert DropCr(line + "\r") == line;
  }

  /** Text after the last line feed is a line too. */
  lemma LastLineIsALine(line: string)
    requires '\n' !in line && line != "" && line[|line| - 1] != '\r' && Utf8Length(line) <= 65_535
    ensures Tokens(line) == [line] && Tokens("") == []
  {
    NoEnd(line);
  }

  lemma NoEnd(line: string)
    requires '\n' !in line
    ensures IndexOf(line, '\n') == |line| && line[..|line|] == line
  {
    assert forall k :: 0 <= k < |line| ==> line[k] in line;
  }

  /** Bytes of a character: 7, 11, 16 or 21 bits fit in one to four. */
  lemma BytesOfCharacter(c: char)
    ensures Utf8Length([c])
         == if c as int < 128 then 1 else if c as int < 2048 then 2 else if c as int < 65536 then 3 else 4
  {
    assert [c][1..] == "";
  }
}
