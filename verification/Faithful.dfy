/** Exactly when the client parses the upstream's events from the forwarded stream, carriage returns of any kind
    included. */
module Faithful {
  import opened Sse
  import opened Forwarding

  /** A line the client reads upstream: it gets through, or it is the blank line of a CR before a CRLF and is lost. */
  datatype Passed = Kept(line: string) | Lost

  function AllKept(lines: seq<string>): (ms: seq<Passed>)
    ensures |ms| == |lines|
  {
    seq(|lines|, i requires 0 <= i < |lines| => Kept(lines[i]))
  }

  /** The completed upstream's lines. */
  function Marked(s: string): seq<Passed> {
    if s == "" then []
    else
      var i := IndexOf(s, '\n');
      AllKept(ClientLines(Stem(s[..i]) + Text(Cr))) + (if EndsDoubled(s[..i]) then [Lost] else [])
        + if i == |s| then [] else Marked(s[i + 1..])
  }

  function LineOf(m: Passed): string {
    if m.Lost? then "" else m.line
  }

  function Upstream(ms: seq<Passed>): seq<string> {
    if ms == [] then [] else [LineOf(ms[0])] + Upstream(ms[1..])
  }

  function Downstream(ms: seq<Passed>): seq<string> {
    if ms == [] then [] else (if ms[0].Lost? then [] else [ms[0].line]) + Downstream(ms[1..])
  }

  lemma {:induction false} StreamsAppend(ms: seq<Passed>, more: seq<Passed>)
    ensures Upstream(ms + more) == Upstream(ms) + Upstream(more)
    ensures Downstream(ms + more) == Downstream(ms) + Downstream(more)
  {
    if ms == [] {
      assert ms + more == more;
    } else {
      assert (ms + more)[1..] == ms[1..] + more;
      StreamsAppend(ms[1..], more);
    }
  }

  lemma {:induction false} KeptPass(lines: seq<string>)
    ensures Upstream(AllKept(lines)) == lines && Downstream(AllKept(lines)) == lines
  {
    if lines != [] {
      KeptPass(lines[1..]);
      assert AllKept(lines)[1..] == AllKept(lines[1..]);
      assert lines == [lines[0]] + lines[1..];
    }
  }

  /** What one scanned line contributes. */
  lemma MarkedHere(s: string, raw: string, rest: string)
    requires s != "" && raw == s[..IndexOf(s, '\n')] && rest == AfterLf(s)
    ensures Marked(s)
         == AllKept(ClientLines(Stem(raw) + Text(Cr))) + (if EndsDoubled(raw) then [Lost] else []) + Marked(rest)
  {
  }

  lemma LinePasses(here: seq<string>, lost: seq<Passed>, rest: seq<Passed>)
    requires lost == [] || lost == [Lost]
    ensures var ms := AllKept(here) + lost + rest;
      && Upstream(ms) == here + (if lost == [] then Upstream(rest) else [""] + Upstream(rest))
      && Downstream(ms) == here + Downstream(rest)
  {
    StreamsAppend(AllKept(here) + lost, rest);
    StreamsAppend(AllKept(here), lost);
    KeptPass(here);
    LostPasses(lost);
    if lost == [] {
      assert here + [] == here;
    } else {
      Assoc(here, [""], Upstream(rest));
      assert here + [] == here;
    }
  }

  lemma LostPasses(lost: seq<Passed>)
    requires lost == [] || lost == [Lost]
    ensures Upstream(lost) == (if lost == [] then [] else [""]) && Downstream(lost) == []
  {
    if lost == [Lost] {
      assert lost[1..] == [];
    }
  }

  /** The marks tell both streams' lines. */
  lemma {:induction false} MarksAreLines(s: string)
    requires AllFit(s)
    ensures ClientLines(Completed(s)) == Upstream(Marked(s))
    ensures ClientLines(Forwarded(s)) == Downstream(Marked(s)) + [""]
    decreases |s|
  {
    if s == "" {
      NothingForwarded();
    } else {
      var raw, rest := s[..IndexOf(s, '\n')], AfterLf(s);
      RestFits(s);
      MarksAreLines(rest);
      MarksAreLinesHere(s, raw, rest);
    }
  }

  lemma RestFits(s: string)
    requires s != "" && AllFit(s)
    ensures AllFit(AfterLf(s)) && |AfterLf(s)| < |s|
  {
  }

  lemma MarksAreLinesHere(s: string, raw: string, rest: string)
    requires s != "" && raw == s[..IndexOf(s, '\n')] && rest == AfterLf(s) && AllFit(s)
    requires ClientLines(Completed(rest)) == Upstream(Marked(rest))
    requires ClientLines(Forwarded(rest)) == Downstream(Marked(rest)) + [""]
    ensures ClientLines(Completed(s)) == Upstream(Marked(s))
    ensures ClientLines(Forwarded(s)) == Downstream(Marked(s)) + [""]
  {
    var here, lost := ClientLines(Stem(raw) + Text(Cr)), if EndsDoubled(raw) then [Lost] else [];
    MarkedHere(s, raw, rest);
    LinePasses(here, lost, Marked(rest));
    LineThenRest(s, raw, rest);
    LineUpstream(raw, Completed(rest));
    ForwardedAt(s);
    LineForwarded(raw, Forwarded(rest));
    Assoc(here, Downstream(Marked(rest)), [""]);
  }

  // ---- The byte order mark ----

  function StripMarked(ms: seq<Passed>): seq<Passed> {
    if ms == [] || ms[0].Lost? then ms else [Kept(StripBom(ms[0].line))] + ms[1..]
  }

  lemma StemHasALine(raw: string)
    ensures ClientLines(Stem(raw) + Text(Cr)) != []
  {
    var t := Stem(raw) + Text(Cr);
    assert t[|t| - 1] == '\r';
  }

  lemma FirstIsKept(s: string)
    ensures Marked(s) != [] ==> Marked(s)[0].Kept?
  {
    if s != "" {
      StemHasALine(s[..IndexOf(s, '\n')]);
    }
  }

  lemma KeptFirst(line: string, rest: seq<Passed>)
    ensures Upstream([Kept(line)] + rest) == [line] + Upstream(rest)
    ensures Downstream([Kept(line)] + rest) == [line] + Downstream(rest)
  {
    assert ([Kept(line)] + rest)[1..] == rest;
  }

  lemma StripFirstOf(line: string, rest: seq<string>)
    ensures StripFirst([line] + rest) == [StripBom(line)] + rest
  {
    assert ([line] + rest)[1..] == rest;
  }

  lemma StrippedMarks(ms: seq<Passed>)
    requires ms != [] ==> ms[0].Kept?
    ensures Upstream(StripMarked(ms)) == StripFirst(Upstream(ms))
    ensures Downstream(StripMarked(ms)) + [""] == StripFirst(Downstream(ms) + [""])
  {
    if ms == [] {
      StripFirstOf("", []);
      assert [""] + [] == [""] && [] + [""] == [""];
    } else {
      var line, rest := ms[0].line, ms[1..];
      assert ms == [Kept(line)] + rest;
      StrippedMark(line, rest);
    }
  }

  lemma StrippedMark(line: string, rest: seq<Passed>)
    ensures var ms, stripped := [Kept(line)] + rest, [Kept(StripBom(line))] + rest;
      && Upstream(stripped) == StripFirst(Upstream(ms))
      && Downstream(stripped) + [""] == StripFirst(Downstream(ms) + [""])
  {
    KeptFirst(line, rest);
    KeptFirst(StripBom(line), rest);
    StripFirstOf(line, Upstream(rest));
    StripFirstOf(line, Downstream(rest) + [""]);
    Assoc([line], Downstream(rest), [""]);
    Assoc([StripBom(line)], Downstream(rest), [""]);
  }

  // ---- Both parsers side by side ----

  /** `up` and `down` are the buffers of a client of the upstream and of the client of the forwarded stream, and `es` is
      what the upstream has dispatched since the last blank line that got through. At every blank line that gets
      through, and at the closing one, the event dispatched downstream, if any, has to be just that. */
  predicate InStep(up: Buffers, down: Buffers, es: seq<Event>, ms: seq<Passed>)
    decreases |ms|
  {
    if ms == [] then es == Dispatch(down)
    else if ms[0].Lost? then InStep(After(up, ""), down, es + Dispatch(up), ms[1..])
    else if ms[0].line == "" then
      es + Dispatch(up) == Dispatch(down) && InStep(After(up, ""), After(down, ""), [], ms[1..])
    else InStep(After(up, ms[0].line), After(down, ms[0].line), es, ms[1..])
  }

  /** All the data of some events. */
  function DataOf(es: seq<Event>): string {
    if es == [] then "" else es[0].data + "\n" + DataOf(es[1..])
  }

  lemma {:induction false} DataAppend(es: seq<Event>, more: seq<Event>)
    ensures DataOf(es + more) == DataOf(es) + DataOf(more)
  {
    if es == [] {
      assert es + more == more;
    } else {
      assert (es + more)[1..] == es[1..] + more;
      DataAppend(es[1..], more);
    }
  }

  /** Buffered data ends in a line feed. */
  predicate WellBuffered(b: Buffers) {
    b.data == "" || b.data[|b.data| - 1] == '\n'
  }

  lemma DispatchedData(b: Buffers)
    requires WellBuffered(b)
    ensures DataOf(Dispatch(b)) == b.data
  {
    if b.data != "" {
      assert Dispatch(b)[1..] == [];
      assert b.data == b.data[..|b.data| - 1] + "\n";
    }
  }

  lemma StaysWellBuffered(b: Buffers, line: string)
    requires WellBuffered(b)
    ensures WellBuffered(After(b, line))
  {
  }

  /** A non-blank line adds the same data on both sides. */
  lemma SameData(up: Buffers, down: Buffers, before: string, line: string)
    requires line != "" && before + up.data == down.data
    ensures before + After(up, line).data == After(down, line).data
  {
    assert before + (up.data + FieldValue(line) + "\n") == before + up.data + FieldValue(line) + "\n";
  }

  /** Events that start two equal lists and carry the same data, one of them at most, are the same. */
  lemma EqualHeads(xs: seq<Event>, xs': seq<Event>, ys: seq<Event>, ys': seq<Event>)
    requires xs + xs' == ys + ys' && DataOf(xs) == DataOf(ys) && |ys| <= 1
    ensures xs == ys
  {
    if ys == [] {
      assert xs == [];
    } else {
      assert ys[1..] == [];
      assert xs != [];
      assert xs[0] == (xs + xs')[0] == (ys + ys')[0] == ys[0];
      assert |DataOf(xs)| == |xs[0].data| + 1 + |DataOf(xs[1..])|;
      assert xs[1..] == [];
      assert xs == [xs[0]] && ys == [ys[0]];
    }
  }

  /** From here on the two clients dispatch the same events, upstream's `es` included. */
  ghost predicate SameEvents(up: Buffers, down: Buffers, es: seq<Event>, ms: seq<Passed>) {
    es + Events(up, Upstream(ms)) == Events(down, Downstream(ms) + [""])
  }

  lemma FirstEvents(b: Buffers, line: string, rest: seq<string>)
    ensures Events(b, [line] + rest) == Emitted(b, line) + Events(After(b, line), rest)
  {
    assert ([line] + rest)[1..] == rest;
  }

  lemma AtTheEnd(up: Buffers, down: Buffers, es: seq<Event>)
    ensures SameEvents(up, down, es, []) <==> es == Dispatch(down)
  {
    FirstEvents(down, "", []);
    assert [] + [""] == [""] + [];
    assert es + [] == es && Dispatch(down) + [] == Dispatch(down);
  }

  lemma LostBlank(up: Buffers, down: Buffers, es: seq<Event>, rest: seq<Passed>)
    ensures SameEvents(up, down, es, [Lost] + rest) <==> SameEvents(After(up, ""), down, es + Dispatch(up), rest)
  {
    assert ([Lost] + rest)[1..] == rest;
    assert [] + Downstream(rest) == Downstream(rest);
    FirstEvents(up, "", Upstream(rest));
    Assoc3(es, Dispatch(up), Events(After(up, ""), Upstream(rest)));
  }

  lemma OtherLine(up: Buffers, down: Buffers, es: seq<Event>, line: string, rest: seq<Passed>)
    requires line != ""
    ensures SameEvents(up, down, es, [Kept(line)] + rest) <==> SameEvents(After(up, line), After(down, line), es, rest)
  {
    KeptFirst(line, rest);
    FirstEvents(up, line, Upstream(rest));
    Assoc([line], Downstream(rest), [""]);
    FirstEvents(down, line, Downstream(rest) + [""]);
    assert forall xs: seq<Event> :: [] + xs == xs;
  }

  lemma KeptBlank(up: Buffers, down: Buffers, es: seq<Event>, rest: seq<Passed>)
    requires DataOf(es + Dispatch(up)) == DataOf(Dispatch(down))
    ensures SameEvents(up, down, es, [Kept("")] + rest) <==>
      es + Dispatch(up) == Dispatch(down) && SameEvents(After(up, ""), After(down, ""), [], rest)
  {
    var xs, ys := es + Dispatch(up), Dispatch(down);
    var xs', ys' := Events(After(up, ""), Upstream(rest)), Events(After(down, ""), Downstream(rest) + [""]);
    KeptFirst("", rest);
    FirstEvents(up, "", Upstream(rest));
    Assoc([""], Downstream(rest), [""]);
    FirstEvents(down, "", Downstream(rest) + [""]);
    Assoc3(es, Dispatch(up), xs');
    assert [] + xs' == xs';
    if xs + xs' == ys + ys' {
      EqualHeads(xs, xs', ys, ys');
      assert (xs + xs')[|xs|..] == xs' && (ys + ys')[|ys|..] == ys';
    }
  }

  lemma Assoc3(a: seq<Event>, b: seq<Event>, c: seq<Event>)
    ensures a + b + c == a + (b + c)
  {
  }

  /** In step at every such blank line exactly when the two event sequences are the same. */
  lemma {:induction false} InStepIffSameEvents(up: Buffers, down: Buffers, es: seq<Event>, ms: seq<Passed>)
    requires WellBuffered(up) && WellBuffered(down) && DataOf(es) + up.data == down.data
    ensures InStep(up, down, es, ms) <==> SameEvents(up, down, es, ms)
    decreases |ms|
  {
    if ms == [] {
      AtTheEnd(up, down, es);
    } else {
      var line, rest := LineOf(ms[0]), ms[1..];
      assert ms == [ms[0]] + rest;
      StaysWellBuffered(up, line);
      StaysWellBuffered(down, line);
      DispatchedData(up);
      DispatchedData(down);
      DataAppend(es, Dispatch(up));
      if ms[0].Lost? {
        LostBlank(up, down, es, rest);
        InStepIffSameEvents(After(up, ""), down, es + Dispatch(up), rest);
      } else if line == "" {
        KeptBlank(up, down, es, rest);
        InStepIffSameEvents(After(up, ""), After(down, ""), [], rest);
      } else {
        OtherLine(up, down, es, line, rest);
        SameData(up, down, DataOf(es), line);
        InStepIffSameEvents(After(up, line), After(down, line), es, rest);
      }
    }
  }

  /** Forwarding is faithful, for every stream whose lines fit the scanner, exactly when the client of the forwarded
      stream is in step with a client of the upstream at every blank line that gets through and at the closing one. */
  lemma ForwardingIsFaithfulIff(s: string)
    requires AllFit(s)
    ensures Parse(Forwarded(s)) == Parse(s) <==> InStep(EMPTY, EMPTY, [], StripMarked(Marked(s)))
  {
    var ms := StripMarked(Marked(s));
    MarksAreLines(s);
    FirstIsKept(s);
    StrippedMarks(Marked(s));
    StrippedLines(Completed(s));
    StrippedLines(Forwarded(s));
    CompletionIsSilent(s);
    InStepIffSameEvents(EMPTY, EMPTY, [], ms);
    assert SameEvents(EMPTY, EMPTY, [], ms) <==> [] + Events(EMPTY, Upstream(ms)) == Events(EMPTY,
                      Downstream(ms) + [""]);
    assert [] + Events(EMPTY, Upstream(ms)) == Events(EMPTY, Upstream(ms));
  }
}
