/** Streams that name several models: exactly when leaving early can cost more than staying. */
module Switching {
  import opened Core
  import opened Forwarding
  import opened Meter
  import opened Pricing
  import opened Disconnect

  /** The stream has cumulative counts and names these models in this order. */
  ghost predicate Naming(dec: Decoder, provider: Provider, lines: seq<string>, names: seq<string>) {
    var rs := Reports(dec, provider, "", lines);
    Cumulative(rs) && Models(rs) == names
  }

  ghost predicate CutsCostNoMore(dec: Decoder, provider: Provider, lines: seq<string>, pricing: PriceTable) {
    forall k :: 0 <= k <= |lines| ==>
      Bill(UsageAfter(dec, provider, lines, k), pricing) <= Bill(UsageAfter(dec, provider, lines, |lines|), pricing)
  }

  /** For every list of names and every price table: no cut of any stream with cumulative counts that names these models
      in this order costs more than the full stream exactly when no name, the empty one included, ever costs more than
      the last one. */
  lemma CutsCostNoMoreIffLastCostsMost(provider: Provider, names: seq<string>, pricing: PriceTable)
    requires "" !in names
    ensures LastCostsMost(pricing, names) <==>
      forall dec, lines :: Naming(dec, provider, lines, names) ==> CutsCostNoMore(dec, provider, lines, pricing)
  {
    if LastCostsMost(pricing, names) {
      forall dec, lines | Naming(dec, provider, lines, names)
        ensures CutsCostNoMore(dec, provider, lines, pricing)
      {
        forall k | 0 <= k <= |lines|
          ensures Bill(UsageAfter(dec, provider, lines, k), pricing)
               <= Bill(UsageAfter(dec, provider, lines, |lines|), pricing)
        {
          UsageAfterReports(dec, provider, lines, k);
          UsageAfterReports(dec, provider, lines, |lines|);
          AllOf(Reports(dec, provider, "", lines));
          CutOfReports(Reports(dec, provider, "", lines), k, pricing);
        }
      }
    } else {
      var dec, lines := DearStream(provider, names, pricing);
    }
  }

  lemma AllOf(rs: seq<Report>)
    ensures rs[..|rs|] == rs
  {
  }

  /** In a table of whole cents without negative prices the condition is that no name is dearer than the last. */
  lemma CutsCostNoMoreIffLastIsDearest(provider: Provider, names: seq<string>, pricing: PriceTable)
    requires "" !in names && NoNegativePrices(pricing) && WholeCentTable(pricing)
    ensures LastIsDearest(pricing, names) <==>
      forall dec, lines :: Naming(dec, provider, lines, names) ==> CutsCostNoMore(dec, provider, lines, pricing)
  {
    CutsCostNoMoreIffLastCostsMost(provider, names, pricing);
    LastCostsMostIfDearest(pricing, names);
  }

  // ---- A stream for any list of names ----

  datatype Counts = Counts(input: Int32, output: Int32)

  /** Payload n names model n, the empty name first, with the low counts; the last one has the high counts and no name.
      */
  function ModelNo(names: seq<string>, n: nat): string {
    if 1 <= n <= |names| then names[n - 1] else ""
  }

  function CountsNo(names: seq<string>, low: Counts, high: Counts, n: nat): Counts {
    if n <= |names| then low else high
  }

  function PayloadNo(n: nat): (s: string)
    ensures |s| == n + 5
  {
    "usage" + seq(n, _ => 'x')
  }

  function Number(payload: string): nat {
    if |payload| < 5 then 0 else |payload| - 5
  }

  function DecoderFor(names: seq<string>, low: Counts, high: Counts): Decoder {
    Decoder(text =>
              var c := CountsNo(names, low, high, Number(text));
              Some(StartUsage(ModelNo(names, Number(text)), c.input, c.output)),
            _ => None,
            text =>
              var c := CountsNo(names, low, high, Number(text));
              Some(Chunk(ModelNo(names, Number(text)), Some((c.input, c.output)))))
  }

  const START := "message_start"

  function DataLine(n: nat): string {
    "data:" + PayloadNo(n)
  }

  function LinesFor(names: seq<string>): seq<string> {
    ["event:" + START] + seq(|names| + 2, (n: nat) => DataLine(n))
  }

  function ReportNo(provider: Provider, names: seq<string>, low: Counts, high: Counts, n: nat): Report {
    var c := CountsNo(names, low, high, n);
    Report(ModelNo(names, n), Some(c.input), if provider.Anthropic? then IfPositive(c.output) else Some(c.output))
  }

  lemma DataLineReport(provider: Provider, names: seq<string>, low: Counts, high: Counts, n: nat)
    ensures NextKind(START, DataLine(n)) == START
    ensures LineReport(DecoderFor(names, low, high), provider, START, DataLine(n))
         == ReportNo(provider, names, low, high, n)
  {
    PlainData(n);
    assert !Inert(PayloadNo(n));
    assert MentionsUsage(PayloadNo(n));
  }

  lemma PlainData(n: nat)
    ensures "data:" <= DataLine(n) && !("event:" <= DataLine(n))
    ensures Trim(DataLine(n)[5..]) == PayloadNo(n) && "usage" <= PayloadNo(n) && PayloadNo(n) != "[DONE]"
  {
    var s := PayloadNo(n);
    assert DataLine(n)[5..] == s;
    assert DataLine(n)[0] == 'd' && "event:"[0] == 'e';
    assert s[0] == 'u' && s[|s| - 1] in {'e', 'x'};
    NothingToTrim(s);
  }

  /** Lines that do not change the event type report one by one. */
  lemma {:induction false} SteadyReports(dec: Decoder, provider: Provider, kind: string, lines: seq<string>)
    requires forall line :: line in lines ==> NextKind(kind, line) == kind
    ensures var rs := Reports(dec, provider, kind, lines);
      |rs| == |lines| && forall j :: 0 <= j < |lines| ==> rs[j] == LineReport(dec, provider, kind, lines[j])
    decreases |lines|
  {
    if lines != [] {
      SteadyReports(dec, provider, kind, lines[1..]);
      assert lines[0] in lines;
      var rest := Reports(dec, provider, kind, lines[1..]);
      assert Reports(dec, provider, kind, lines) == [LineReport(dec, provider, kind, lines[0])] + rest;
      forall j | 0 <= j < |lines|
        ensures Reports(dec, provider, kind, lines)[j] == LineReport(dec, provider, kind, lines[j])
      {
        assert j > 0 ==> lines[j] == lines[1..][j - 1];
      }
    }
  }

  /** The reports of the stream: nothing for its first line, then one a payload. */
  ghost predicate AreReports(rs: seq<Report>, provider: Provider, names: seq<string>, low: Counts, high: Counts) {
    && |rs| == |names| + 3 && rs[0] == NOTHING
    && forall n :: 0 <= n < |names| + 2 ==> rs[n + 1] == ReportNo(provider, names, low, high, n)
  }

  lemma StreamReports(provider: Provider, names: seq<string>, low: Counts, high: Counts)
    ensures AreReports(Reports(DecoderFor(names, low, high), provider, "", LinesFor(names)), provider, names, low, high)
  {
    var dec, data := DecoderFor(names, low, high), seq(|names| + 2, (n: nat) => DataLine(n));
    StartLine();
    FirstLineFirst(names, data);
    forall line | line in data
      ensures NextKind(START, line) == START
    {
      var n :| 0 <= n < |data| && data[n] == line;
      PlainData(n);
    }
    SteadyReports(dec, provider, START, data);
    forall n | 0 <= n < |names| + 2
      ensures Reports(dec, provider, START, data)[n] == ReportNo(provider, names, low, high, n)
    {
      DataLineReport(provider, names, low, high, n);
    }
    assert LineReport(dec, provider, START, "event:" + START) == NOTHING;
    assert Reports(dec, provider, "", LinesFor(names)) == [NOTHING] + Reports(dec, provider, START, data);
  }

  lemma FirstLineFirst(names: seq<string>, data: seq<string>)
    requires data == seq(|names| + 2, (n: nat) => DataLine(n))
    ensures LinesFor(names) != [] && LinesFor(names)[0] == "event:" + START && LinesFor(names)[1..] == data
  {
  }

  lemma StartLine()
    ensures forall last :: NextKind(last, "event:" + START) == START
    ensures !("data:" <= "event:" + START)
  {
    var line := "event:" + START;
    assert line[6..] == START && line[0] == 'e' && "data:"[0] == 'd';
    NothingToTrim(START);
  }

  lemma ReportsAreCumulative(rs: seq<Report>, provider: Provider, names: seq<string>, low: Counts, high: Counts)
    requires AreReports(rs, provider, names, low, high)
    requires 0 <= low.input <= high.input && 0 <= low.output <= high.output
    ensures Cumulative(rs)
  {
    forall i | 0 <= i < |rs|
      ensures Plausible(rs[i])
    {
      assert i > 0 ==> rs[(i - 1) + 1] == ReportNo(provider, names, low, high, i - 1);
    }
    forall i, j | 0 <= i < j < |rs|
      ensures Later(rs[i], rs[j])
    {
      assert i > 0 ==> rs[(i - 1) + 1] == ReportNo(provider, names, low, high, i - 1);
      assert rs[(j - 1) + 1] == ReportNo(provider, names, low, high, j - 1);
    }
  }

  /** After payload n the usage is the low counts under model n. */
  lemma {:induction false} UsageAfterPayload(rs: seq<Report>, provider: Provider, names: seq<string>, low: Counts,
                                             high: Counts, n: nat)
    requires AreReports(rs, provider, names, low, high) && "" !in names && n <= |names|
    requires 0 <= low.output
    ensures ApplyAll(NO_USAGE, rs[..n + 2]) == Metered(ModelNo(names, n), low.input, low.output)
    ensures Models(rs[..n + 2]) == names[..n]
  {
    OneReportFurther(rs, n + 1, ReportNo(provider, names, low, high, n));
    if n == 0 {
      FirstIsNothing(rs);
      assert names[..0] == [];
    } else {
      UsageAfterPayload(rs, provider, names, low, high, n - 1);
      NextName(names, n);
    }
  }

  lemma NextName(names: seq<string>, n: nat)
    requires 1 <= n <= |names| && "" !in names
    ensures names[..n] == names[..n - 1] + [names[n - 1]] && names[n - 1] != ""
  {
    assert names[n - 1] in names;
  }

  lemma OneReportFurther(rs: seq<Report>, n: nat, r: Report)
    requires n < |rs| && rs[n] == r
    ensures ApplyAll(NO_USAGE, rs[..n + 1]) == Apply(ApplyAll(NO_USAGE, rs[..n]), r)
    ensures Models(rs[..n + 1]) == Models(rs[..n]) + if r.model == "" then [] else [r.model]
  {
    assert rs[..n + 1][..n] == rs[..n];
    ApplyLast(NO_USAGE, rs[..n + 1]);
  }

  lemma FirstIsNothing(rs: seq<Report>)
    requires rs != [] && rs[0] == NOTHING
    ensures ApplyAll(NO_USAGE, rs[..1]) == NO_USAGE && Models(rs[..1]) == []
  {
    assert rs[..1] == [NOTHING] && rs[..1][1..] == [] && rs[..1][..0] == [];
  }

  /** At the end it is the high counts under the last model. */
  lemma UsageAtTheEnd(rs: seq<Report>, provider: Provider, names: seq<string>, low: Counts, high: Counts)
    requires AreReports(rs, provider, names, low, high) && "" !in names
    requires 0 <= low.output <= high.output
    ensures ApplyAll(NO_USAGE, rs) == Metered(LastOf(names), high.input, high.output) && Models(rs) == names
  {
    var n := |names|;
    UsageAfterPayload(rs, provider, names, low, high, n);
    ApplyLast(NO_USAGE, rs);
    assert rs[..n + 2] == rs[..|rs| - 1] && names[..n] == names;
    assert rs[(n + 1) + 1] == ReportNo(provider, names, low, high, n + 1);
  }

  /** A stream on which the charge falls, when some name can cost more than the last. */
  lemma DearStream(provider: Provider, names: seq<string>, pricing: PriceTable)
    returns (dec: Decoder, lines: seq<string>)
    requires "" !in names && !LastCostsMost(pricing, names)
    ensures Naming(dec, provider, lines, names) && !CutsCostNoMore(dec, provider, lines, pricing)
  {
    var name :| (name == "" || name in names) && !NeverCostsMore(pricing, name, LastOf(names));
    var low, high := DearCounts(pricing, name, LastOf(names));
    var n := NumberOf(names, name);
    dec, lines := DecoderFor(names, low, high), LinesFor(names);
    StreamReports(provider, names, low, high);
    ChargeFalls(dec, provider, lines, names, low, high, n, pricing);
  }

  predicate NoMore(low: Counts, high: Counts) {
    0 <= low.input <= high.input && 0 <= low.output <= high.output
  }

  lemma DearCounts(pricing: PriceTable, a: string, b: string) returns (low: Counts, high: Counts)
    requires !NeverCostsMore(pricing, a, b)
    ensures NoMore(low, high)
    ensures ComputeCost(a, low.input, low.output, pricing) > ComputeCost(b, high.input, high.output, pricing)
  {
    var i: Int32, o: Int32, i': Int32, o': Int32 :| 0 <= i <= i' && 0 <= o <= o' &&
      ComputeCost(a, i, o, pricing) > ComputeCost(b, i', o', pricing);
    low, high := Counts(i, o), Counts(i', o');
  }

  lemma NumberOf(names: seq<string>, name: string) returns (n: nat)
    requires name == "" || name in names
    ensures n <= |names| && ModelNo(names, n) == name
  {
    n := 0;
    if name in names {
      var i :| 0 <= i < |names| && names[i] == name;
      n := i + 1;
    }
  }

  lemma ChargeFalls(dec: Decoder, provider: Provider, lines: seq<string>, names: seq<string>, low: Counts, high: Counts,
                    n: nat, pricing: PriceTable)
    requires "" !in names && n <= |names| && NoMore(low, high) && |lines| == |names| + 3
    requires AreReports(Reports(dec, provider, "", lines), provider, names, low, high)
    requires ComputeCost(ModelNo(names, n), low.input, low.output, pricing)
           > ComputeCost(LastOf(names), high.input, high.output, pricing)
    ensures Naming(dec, provider, lines, names) && !CutsCostNoMore(dec, provider, lines, pricing)
  {
    ReportsAreCumulative(Reports(dec, provider, "", lines), provider, names, low, high);
    UsageAtTheEnd(Reports(dec, provider, "", lines), provider, names, low, high);
    UsageAtPayload(dec, provider, lines, names, low, high, n);
    Dearer(UsageAfter(dec, provider, lines, n + 2), UsageAfter(dec, provider, lines, |lines|), pricing);
  }

  lemma UsageAtPayload(dec: Decoder, provider: Provider, lines: seq<string>, names: seq<string>, low: Counts,
                       high: Counts, n: nat)
    requires "" !in names && n <= |names| && NoMore(low, high) && |lines| == |names| + 3
    requires AreReports(Reports(dec, provider, "", lines), provider, names, low, high)
    ensures UsageAfter(dec, provider, lines, n + 2) == Metered(ModelNo(names, n), low.input, low.output)
    ensures UsageAfter(dec, provider, lines, |lines|) == Metered(LastOf(names), high.input, high.output)
  {
    var rs := Reports(dec, provider, "", lines);
    UsageAfterPayload(rs, provider, names, low, high, n);
    UsageAtTheEnd(rs, provider, names, low, high);
    UsageAfterReports(dec, provider, lines, n + 2);
    UsageAfterReports(dec, provider, lines, |lines|);
    AllOf(rs);
  }

  lemma Dearer(a: Metered, b: Metered, pricing: PriceTable)
    requires ComputeCost(a.model, a.input, a.output, pricing) > ComputeCost(b.model, b.input, b.output, pricing)
    ensures Bill(a, pricing) > Bill(b, pricing)
  {
    BillIsCost(a, pricing);
    BillIsCost(b, pricing);
  }

  // ---- One of them ----

  /** Ten tokens under gpt-4o, then the same ten under gpt-4o-mini. */
  const FIRST := "usage of gpt-4o"
  const SECOND := "usage of gpt-4o-mini"
  const SWITCH := ["data:" + FIRST, "data:" + SECOND]
  const TEN := Decoder(
    _ => None, _ => None,
    text => Some(Chunk(if text == FIRST then "gpt-4o" else "gpt-4o-mini", Some((10, 0)))))

  /** Under the default prices a client that leaves after the first line pays 5000 units, one that stays pays 150. */
  lemma SwitchingDownCostsLess()
    ensures Tokens(Written(SWITCH)) == SWITCH
    ensures Naming(TEN, OpenAI, SWITCH, ["gpt-4o", "gpt-4o-mini"])
    ensures Bill(UsageAfter(TEN, OpenAI, SWITCH, 1), DEFAULT_PRICING) == 5000
    ensures Bill(UsageAfter(TEN, OpenAI, SWITCH, 2), DEFAULT_PRICING) == 150
  {
    var rs := [Report("gpt-4o", Some(10), Some(0)), Report("gpt-4o-mini", Some(10), Some(0))];
    SwitchLines();
    SwitchReports();
    TwoReports(rs[0], rs[1]);
    UsageAfterReports(TEN, OpenAI, SWITCH, 1);
    UsageAfterReports(TEN, OpenAI, SWITCH, 2);
    TenTokens();
  }

  lemma TenTokens()
    ensures ComputeCost("gpt-4o", 10, 0, DEFAULT_PRICING) == 5000
    ensures ComputeCost("gpt-4o-mini", 10, 0, DEFAULT_PRICING) == 150
  {
    CostOfCents(DEFAULT_PRICING["gpt-4o"], (500, 1500), 10, 0);
    CostOfCents(DEFAULT_PRICING["gpt-4o-mini"], (15, 60), 10, 0);
  }

  lemma TwoReports(a: Report, b: Report)
    requires a.model != "" && b.model != "" && a.input == b.input == Some(10) && a.output == b.output == Some(0)
    ensures Cumulative([a, b]) && Models([a, b]) == [a.model, b.model]
    ensures ApplyAll(NO_USAGE, [a, b][..1]) == Metered(a.model, 10, 0)
    ensures ApplyAll(NO_USAGE, [a, b][..2]) == Metered(b.model, 10, 0)
  {
    assert [a, b][..1] == [a] && [a, b][..2] == [a, b] && [a, b][1..] == [b] && [a][1..] == [] && [b][1..] == [];
    assert [a][..0] == [];
    assert Models([a]) == Models([]) + [a.model];
    assert Models([a, b]) == Models([a]) + [b.model];
    assert ApplyAll(NO_USAGE, [a]) == Apply(NO_USAGE, a);
    assert ApplyAll(NO_USAGE, [a, b]) == ApplyAll(Apply(NO_USAGE, a), [b]) == Apply(Apply(NO_USAGE, a), b);
  }

  /** A data line with usage is decoded as a chunk. */
  lemma UsageLine(dec: Decoder, last: string, x: string)
    requires "usage" <= x && !IsSpace(x[|x| - 1])
    ensures NextKind(last, "data:" + x) == last && LineReport(dec, OpenAI, last, "data:" + x) == OpenAIReport(dec, x)
  {
    var line := "data:" + x;
    assert line[5..] == x && line[0] == 'd' && "event:"[0] == 'e' && x[0] == 'u' && "[DONE]"[0] == '[';
    NothingToTrim(x);
  }

  lemma SwitchReports()
    ensures Reports(TEN, OpenAI, "", SWITCH)
         == [Report("gpt-4o", Some(10), Some(0)), Report("gpt-4o-mini", Some(10), Some(0))]
  {
    EndsPlainly();
    UsageLine(TEN, "", FIRST);
    UsageLine(TEN, "", SECOND);
    SteadyReports(TEN, OpenAI, "", SWITCH);
    assert |FIRST| != |SECOND|;
  }

  lemma EndsPlainly()
    ensures "usage" <= FIRST && "usage" <= SECOND && |FIRST| == 15 && |SECOND| == 20
    ensures FIRST[14] == 'o' && SECOND[19] == 'i'
  {
  }

  lemma SwitchLines()
    ensures Tokens(Written(SWITCH)) == SWITCH
  {
    forall line | line in SWITCH
      ensures OneLine(line) && Utf8Length(line) < SCAN_LIMIT
    {
      FewBytes(line);
    }
    TokensOfWritten(SWITCH);
  }
}
