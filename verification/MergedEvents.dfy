/** A carriage return before a CRLF: two upstream events that reach the client as one. */
module MergedEvents {
  import opened Sse
  import opened Forwarding

  /** The blank line that the CR makes upstream is lost on the way. */
  lemma DoubledCrLosesABlankLine(line: string, rest: string)
    requires OneLine(line) && Utf8Length(line + "\r\r") < SCAN_LIMIT
    requires AllFit(rest) && !DoubledCr(Completed(rest))
    ensures var s := line + "\r" + Text(CrLf) + rest;
      && DoubledCr(Completed(s))
      && ClientLines(Completed(s)) == [line] + ([""] + ClientLines(Completed(rest)))
      && ClientLines(Forwarded(s)) == [line] + (ClientLines(Completed(rest)) + [""])
  {
    DoubledUpstream(line, rest);
    DoubledReads(line, Completed(rest));
    DoubledForwarded(line, rest);
    FirstLine(line, CrLf, Forwarded(rest));
    ForwardedLines(rest);
  }

  lemma DoubledReads(line: string, rest: string)
    requires OneLine(line)
    ensures ClientLines(line + Text(Cr) + (Text(CrLf) + rest)) == [line] + ([""] + ClientLines(rest))
  {
    FirstLine(line, Cr, Text(CrLf) + rest);
    FirstLine("", CrLf, rest);
    assert "" + Text(CrLf) + rest == Text(CrLf) + rest;
  }

  lemma DoubledUpstream(line: string, rest: string)
    ensures var s := line + "\r" + Text(CrLf) + rest;
            Completed(s) == line + Text(Cr) + (Text(CrLf) + Completed(rest)) && DoubledCr(Completed(s))
  {
    var s, k := line + "\r" + Text(CrLf) + rest, |line|;
    CompletedAt(s, k + 2);
    assert s[..k + 2] == line + "\r\r" && s[k + 3..] == rest;
    assert line + "\r\r" + Text(Lf) + Completed(rest) == line + Text(Cr) + (Text(CrLf) + Completed(rest));
    assert Completed(s)[k] == '\r' && Completed(s)[k + 1] == '\r' && Completed(s)[k + 2] == '\n';
  }

  lemma DoubledForwarded(line: string, rest: string)
    requires OneLine(line) && Utf8Length(line + "\r\r") < SCAN_LIMIT && AllFit(rest)
    ensures var s := line + "\r" + Text(CrLf) + rest;
            AllFit(s) && Forwarded(s) == line + Text(CrLf) + Forwarded(rest)
  {
    DoubledIndex(line, rest);
    ForwardedAt(line + "\r" + Text(CrLf) + rest);
    DropOneCr(line, Forwarded(rest));
  }

  lemma DropOneCr(line: string, rest: string)
    ensures DropCr(line + "\r\r") + Text(Lf) + rest == line + Text(CrLf) + rest
  {
    assert DropCr(line + "\r\r") == line + "\r";
  }

  lemma DoubledIndex(line: string, rest: string)
    requires OneLine(line)
    ensures var s := line + "\r" + Text(CrLf) + rest;
            && |s| >= |line| + 3 && IndexOf(s, '\n') == |line| + 2
            && s[..|line| + 2] == line + "\r\r" && s[|line| + 3..] == rest
  {
    var s, k := line + "\r" + Text(CrLf) + rest, |line|;
    assert s[k + 2] == '\n' && s[k] == '\r' && s[k + 1] == '\r';
    assert forall j :: 0 <= j < k ==> s[j] == line[j] && line[j] in line;
  }

  // ---- Two events become one ----

  /** A data field's text: one line that does not begin with a space. */
  predicate Value(x: string) {
    OneLine(x) && (x == "" || x[0] != ' ') && Utf8Length("data:" + x + "\r\r") < SCAN_LIMIT
  }

  /** Two events; the line end of the first data field is CR CR LF. */
  function TwoEvents(x: string, y: string): string {
    "data:" + x + "\r" + Text(CrLf) + ("data:" + y + Text(Lf) + Text(Lf))
  }

  /** For every two texts the upstream sends two events and the client receives one with both texts. */
  lemma DoubledCrMergesEvents(x: string, y: string)
    requires Value(x) && Value(y)
    ensures AllFit(TwoEvents(x, y))
    ensures Parse(TwoEvents(x, y)) == [Event("message", x, ""), Event("message", y, "")]
    ensures Parse(Forwarded(TwoEvents(x, y))) == [Event("message", x + "\n" + y, "")]
  {
    StreamLines(x, y);
    ParsedLines(TwoEvents(x, y), x, ["data:" + x, "", "data:" + y, ""]);
    ParsedLines(Forwarded(TwoEvents(x, y)), x, ["data:" + x, "data:" + y, "", ""]);
    UpstreamEvents(x, y);
    ClientEvents(x, y);
  }

  lemma StreamLines(x: string, y: string)
    requires Value(x) && Value(y)
    ensures AllFit(TwoEvents(x, y))
    ensures ClientLines(TwoEvents(x, y)) == ["data:" + x, "", "data:" + y, ""]
    ensures ClientLines(Forwarded(TwoEvents(x, y))) == ["data:" + x, "data:" + y, "", ""]
  {
    var rest := "data:" + y + Text(Lf) + Text(Lf);
    SecondEvent(y);
    DataIsOneLine(x);
    EndsInLf("data:" + x + "\r" + Text(CrLf), rest);
    DoubledCrLosesABlankLine("data:" + x, rest);
    DoubledForwarded("data:" + x, rest);
    FourLines("data:" + x, "data:" + y);
  }

  lemma EndsInLf(s: string, rest: string)
    requires rest != "" && rest[|rest| - 1] == '\n'
    ensures Completed(s + rest) == s + rest
  {
  }

  lemma DataIsOneLine(x: string)
    requires OneLine(x)
    ensures OneLine("data:" + x)
  {
    assert forall c :: c in "data:" + x ==> c in "data:" || c in x;
  }

  lemma SecondEvent(y: string)
    requires Value(y)
    ensures var rest := "data:" + y + Text(Lf) + Text(Lf);
      AllFit(rest) && !DoubledCr(Completed(rest)) && Completed(rest) == rest && ClientLines(rest) == ["data:" + y, ""]
  {
    var line := "data:" + y;
    DataIsOneLine(y);
    FirstLine(line, Lf, Text(Lf));
    FirstLine("", Lf, "");
    assert "" + Text(Lf) + "" == Text(Lf);
    OnlyLineFeeds(line);
    FitsInTwo(line);
  }

  lemma OnlyLineFeeds(line: string)
    requires OneLine(line)
    ensures var rest := line + Text(Lf) + Text(Lf); !DoubledCr(rest) && Completed(rest) == rest
  {
    DoubledSplits(line, Text(Lf));
    assert |line| > 0 ==> line[|line| - 1] in line;
  }

  lemma {:induction false} Longer(a: string, b: string)
    ensures Utf8Length(a) <= Utf8Length(a + b)
  {
    if a != "" {
      assert (a + b)[1..] == a[1..] + b;
      Longer(a[1..], b);
    }
  }

  lemma FitsInTwo(line: string)
    requires OneLine(line) && Utf8Length(line + "\r\r") < SCAN_LIMIT
    ensures AllFit(line + Text(Lf) + Text(Lf))
  {
    var s, k := line + Text(Lf) + Text(Lf), |line|;
    Longer(line, "\r\r");
    assert s[k] == '\n' && forall j :: 0 <= j < k ==> s[j] == line[j] && line[j] in line;
    assert IndexOf(s, '\n') == k && s[..k] == line && s[k + 1..] == "\n";
    assert AllFit("\n");
  }

  lemma FourLines(a: string, b: string)
    ensures [a] + ([""] + [b, ""]) == [a, "", b, ""]
    ensures [a] + ([b, ""] + [""]) == [a, b, "", ""]
  {
  }

  /** A stream that begins with a data field does not begin with a byte order mark. */
  lemma ParsedLines(s: string, x: string, lines: seq<string>)
    requires ClientLines(s) == lines && lines != [] && lines[0] == "data:" + x
    ensures Parse(s) == Events(EMPTY, lines)
  {
    StrippedLines(s);
    assert lines[0][0] == 'd';
    assert [lines[0]] + lines[1..] == lines;
  }

  lemma DataField(b: Buffers, x: string)
    requires x == "" || x[0] != ' '
    ensures "data:" + x != "" && After(b, "data:" + x) == b.(data := b.data + x + "\n")
  {
    var line := "data:" + x;
    assert line[0] == 'd' && line[1] == 'a' && line[2] == 't' && line[3] == 'a' && line[4] == ':';
    assert IndexOf(line, ':') == 4;
    assert line[..4] == "data" && line[5..] == x;
  }

  lemma OneStep(b: Buffers, lines: seq<string>)
    requires lines != []
    ensures Events(b, lines) == Emitted(b, lines[0]) + Events(After(b, lines[0]), lines[1..])
  {
  }

  lemma UpstreamEvents(x: string, y: string)
    requires Value(x) && Value(y)
    ensures Events(EMPTY, ["data:" + x, "", "data:" + y, ""]) == [Event("message", x, ""), Event("message", y, "")]
  {
    var lines := ["data:" + x, "", "data:" + y, ""];
    DataField(EMPTY, x);
    DataField(EMPTY, y);
    assert lines[1..][1..] == ["data:" + y, ""];
    BlankAfter(x, lines);
    BlankAfter(y, lines[1..][1..]);
  }

  /** A data line and a blank line make an event. */
  lemma BlankAfter(x: string, lines: seq<string>)
    requires Value(x) && |lines| >= 2 && lines[0] == "data:" + x && lines[1] == ""
    ensures Events(EMPTY, lines) == [Event("message", x, "")] + Events(EMPTY, lines[1..][1..])
  {
    DataField(EMPTY, x);
    OneStep(EMPTY, lines);
    assert EMPTY.data + x + "\n" == x + "\n";
    BlankLine(x, lines[1..]);
    assert [] + Events(Buffers(x + "\n", "", ""), lines[1..]) == Events(Buffers(x + "\n", "", ""), lines[1..]);
  }

  lemma BlankLine(data: string, lines: seq<string>)
    requires lines != [] && lines[0] == ""
    ensures Events(Buffers(data + "\n", "", ""), lines) == [Event("message", data, "")] + Events(EMPTY, lines[1..])
  {
    var b := Buffers(data + "\n", "", "");
    OneStep(b, lines);
    assert b.data[..|b.data| - 1] == data;
  }

  lemma ClientEvents(x: string, y: string)
    requires Value(x) && Value(y)
    ensures Events(EMPTY, ["data:" + x, "data:" + y, "", ""]) == [Event("message", x + "\n" + y, "")]
  {
    var lines := ["data:" + x, "data:" + y, "", ""];
    var b, b' := Buffers(x + "\n", "", ""), Buffers(x + "\n" + y + "\n", "", "");
    DataField(EMPTY, x);
    DataField(b, y);
    OneStep(EMPTY, lines);
    assert EMPTY.data + x + "\n" == x + "\n";
    OneStep(b, lines[1..]);
    assert [] + Events(b, lines[1..]) == Events(b, lines[1..]);
    assert lines[1..][1..] == ["", ""];
    assert [] + Events(b', ["", ""]) == Events(b', ["", ""]);
    BlankLine(x + "\n" + y, ["", ""]);
    assert ["", ""][1..] == [""] && [""][1..] == [];
    assert Events(EMPTY, [""]) == [];
  }

  // ---- An open event is dispatched ----

  /** A stream that stops in an event, for every text: upstream there is no event, but the extra line feed makes one. */
  lemma OpenEventIsDispatched(x: string)
    requires Value(x)
    ensures Parse("data:" + x) == []
    ensures Parse(Forwarded("data:" + x)) == [Event("message", x, "")]
  {
    DataIsOneLine(x);
    OpenLines("data:" + x);
    OpenBuffers(x);
    ForwardingPreservesEvents("data:" + x);
  }

  /** What is pending at its end. */
  lemma OpenBuffers(x: string)
    requires Value(x)
    ensures Dispatch(Final(EMPTY, ["data:" + x])) == [Event("message", x, "")]
  {
    DataField(EMPTY, x);
    FinalOfOne("data:" + x);
    var b := Final(EMPTY, ["data:" + x]);
    assert b.data == x + "\n" by {
      assert EMPTY.data + x + "\n" == x + "\n";
    }
    assert b.data[..|b.data| - 1] == x;
  }

  lemma OpenLines(s: string)
    requires OneLine(s) && s != "" && s[0] == 'd' && Utf8Length(s + "\r\r") < SCAN_LIMIT
    ensures AllFit(s) && !DoubledCr(Completed(s)) && Parse(s) == [] && UpstreamLines(s) == [s]
  {
    NoLineEndInside(s);
    Longer(s, "\r\r");
    CompletedLine(s);
    FirstLine(s, Lf, "");
    assert ClientLines(s) == [];
  }

  lemma NoLineEndInside(s: string)
    requires OneLine(s)
    ensures IndexOf(s, '\n') == |s| == LineEnd(s) && s[..IndexOf(s, '\n')] == s
  {
    assert forall k :: 0 <= k < |s| ==> s[k] in s;
  }

  lemma CompletedLine(s: string)
    requires OneLine(s) && s != ""
    ensures Completed(s) == s + Text(Lf) + "" && !DoubledCr(Completed(s))
  {
    assert s[|s| - 1] in s;
    DoubledSplits(s, "");
    assert Completed(s) == s + Text(Lf) == s + Text(Lf) + "";
  }

  lemma FinalOfOne(line: string)
    ensures Final(EMPTY, [line]) == After(EMPTY, line)
  {
    assert [line][1..] == [];
  }
}
