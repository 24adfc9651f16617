/** Exactly when the usage of the line loop is the usage of a sequence of events, for streams of any shape. */
module Agreement {
  import opened Core
  import opened Sse
  import opened Forwarding
  import opened Meter
  import opened Metering

  /** What of a payload matters: nothing if it is never decoded, and for OpenAI not its type. */
  function Decoded(provider: Provider, p: Payload): seq<Payload> {
    if Inert(p.text) then []
    else if provider.Anthropic? then (if IsMetered(p.kind) then [p] else [])
    else if MentionsUsage(p.text) then [Payload(p.text, "")]
    else []
  }

  function AllDecoded(provider: Provider, ps: seq<Payload>): seq<Payload> {
    if ps == [] then [] else Decoded(provider, ps[0]) + AllDecoded(provider, ps[1..])
  }

  /** Each payload at its last occurrence. */
  function LastOnly(ps: seq<Payload>): seq<Payload> {
    if ps == [] then []
    else if ps[0] in ps[1..] then LastOnly(ps[1..])
    else [ps[0]] + LastOnly(ps[1..])
  }

  function Essence(provider: Provider, ps: seq<Payload>): seq<Payload> {
    LastOnly(AllDecoded(provider, ps))
  }

  // ---- Only the essence matters ----

  function UsageOf(dec: Decoder, provider: Provider, u: Metered, ps: seq<Payload>): Metered {
    ApplyAll(u, ReportsOf(dec, provider, ps))
  }

  lemma FirstUsage(dec: Decoder, provider: Provider, u: Metered, ps: seq<Payload>)
    requires ps != []
    ensures UsageOf(dec, provider, u, ps)
         == UsageOf(dec, provider, Apply(u, PayloadReport(dec, provider, ps[0].text, ps[0].kind)), ps[1..])
  {
    assert ps == [ps[0]] + ps[1..];
    FirstReport(dec, provider, ps[0], ps[1..]);
  }

  lemma {:induction false} DecodedIsEnough(dec: Decoder, provider: Provider, u: Metered, ps: seq<Payload>)
    ensures UsageOf(dec, provider, u, ps) == UsageOf(dec, provider, u, AllDecoded(provider, ps))
    decreases |ps|
  {
    if ps != [] {
      var r, now, later := PayloadReport(dec, provider, ps[0].text, ps[0].kind), Decoded(provider, ps[0]),
          AllDecoded(provider, ps[1..]);
      FirstUsage(dec, provider, u, ps);
      DecodedIsEnough(dec, provider, Apply(u, r), ps[1..]);
      if now == [] {
        assert r == NOTHING && now + later == later;
      } else {
        FirstUsage(dec, provider, u, now + later);
        assert (now + later)[1..] == later;
      }
    }
  }

  /** Two usages that differ at most in what r overwrites. */
  predicate UpTo(u: Metered, v: Metered, r: Report) {
    && (r.model == "" ==> u.model == v.model)
    && (r.input.None? ==> u.input == v.input)
    && (r.output.None? ==> u.output == v.output)
  }

  /** A report that comes again forgets what was there. */
  lemma {:induction false} Overwritten(u: Metered, v: Metered, r: Report, rs: seq<Report>)
    requires UpTo(u, v, r) && r in rs
    ensures ApplyAll(u, rs) == ApplyAll(v, rs)
    decreases |rs|
  {
    if rs[0] == r {
      assert Apply(u, r) == Apply(v, r);
    } else {
      Overwritten(Apply(u, rs[0]), Apply(v, rs[0]), r, rs[1..]);
    }
  }

  lemma {:induction false} LastIsEnough(dec: Decoder, provider: Provider, u: Metered, ps: seq<Payload>)
    ensures UsageOf(dec, provider, u, ps) == UsageOf(dec, provider, u, LastOnly(ps))
    decreases |ps|
  {
    if ps != [] {
      var r, rest := PayloadReport(dec, provider, ps[0].text, ps[0].kind), ps[1..];
      FirstUsage(dec, provider, u, ps);
      if ps[0] in rest {
        var i :| 0 <= i < |rest| && rest[i] == ps[0];
        assert ReportsOf(dec, provider, rest)[i] == r;
        Overwritten(Apply(u, r), u, r, ReportsOf(dec, provider, rest));
        LastIsEnough(dec, provider, u, rest);
      } else {
        LastIsEnough(dec, provider, Apply(u, r), rest);
        FirstUsage(dec, provider, u, [ps[0]] + LastOnly(rest));
        assert ([ps[0]] + LastOnly(rest))[1..] == LastOnly(rest);
      }
    }
  }

  lemma EssenceIsEnough(dec: Decoder, provider: Provider, u: Metered, ps: seq<Payload>)
    ensures UsageOf(dec, provider, u, ps) == UsageOf(dec, provider, u, Essence(provider, ps))
  {
    DecodedIsEnough(dec, provider, u, ps);
    LastIsEnough(dec, provider, u, AllDecoded(provider, ps));
  }

  // ---- All of the essence matters ----

  /** A payload as Decoded leaves it. */
  predicate IsDecoded(provider: Provider, p: Payload) {
    !Inert(p.text) && if provider.Anthropic? then IsMetered(p.kind) else MentionsUsage(p.text) && p.kind == ""
  }

  ghost predicate Distinct(ps: seq<Payload>) {
    forall i, j :: 0 <= i < j < |ps| ==> ps[i] != ps[j]
  }

  lemma {:induction false} DecodedAre(provider: Provider, ps: seq<Payload>)
    ensures forall p :: p in AllDecoded(provider, ps) ==> IsDecoded(provider, p)
  {
    if ps != [] {
      DecodedAre(provider, ps[1..]);
    }
  }

  lemma {:induction false} LastOnlyIsDistinct(ps: seq<Payload>)
    ensures Distinct(LastOnly(ps)) && forall p :: p in LastOnly(ps) <==> p in ps
  {
    if ps != [] {
      LastOnlyIsDistinct(ps[1..]);
      assert ps == [ps[0]] + ps[1..];
    }
  }

  /** Output counts for payloads. */
  type Counter = Payload -> Int32

  /** A decoder that reports just these counts. */
  function DecoderOf(count: Counter): Decoder {
    Decoder(text => Some(StartUsage("", 0, count(Payload(text, "message_start")))),
            text => Some(count(Payload(text, "message_delta"))),
            text =>
              var n := count(Payload(text, ""));
              if n > 0 then Some(Chunk("", Some((0, n)))) else None)
  }

  /** The count of the last payload that has a positive one. */
  function LastCount(count: Counter, ps: seq<Payload>): int {
    if ps == [] then 0
    else if count(ps[|ps| - 1]) > 0 then count(ps[|ps| - 1])
    else LastCount(count, ps[..|ps| - 1])
  }

  lemma DecodedCount(provider: Provider, count: Counter, u: Metered, p: Payload)
    requires IsDecoded(provider, p)
    ensures var r := PayloadReport(DecoderOf(count), provider, p.text, p.kind);
      Apply(u, r).output == if count(p) > 0 then count(p) else u.output
  {
  }

  lemma {:induction false} OutputIsLastCount(provider: Provider, count: Counter, ps: seq<Payload>)
    requires forall p :: p in ps ==> IsDecoded(provider, p)
    ensures UsageOf(DecoderOf(count), provider, NO_USAGE, ps).output == LastCount(count, ps)
    decreases |ps|
  {
    if ps != [] {
      var before, p := ps[..|ps| - 1], ps[|ps| - 1];
      var u := UsageOf(DecoderOf(count), provider, NO_USAGE, before);
      OutputIsLastCount(provider, count, before);
      LastUsage(DecoderOf(count), provider, ps);
      DecodedCount(provider, count, u, p);
    }
  }

  lemma LastUsage(dec: Decoder, provider: Provider, ps: seq<Payload>)
    requires ps != []
    ensures var p := ps[|ps| - 1];
      UsageOf(dec, provider, NO_USAGE, ps)
      == Apply(UsageOf(dec, provider, NO_USAGE, ps[..|ps| - 1]), PayloadReport(dec, provider, p.text, p.kind))
  {
    var rs := ReportsOf(dec, provider, ps);
    assert rs[..|rs| - 1] == ReportsOf(dec, provider, ps[..|ps| - 1]);
    ApplyLast(NO_USAGE, rs);
  }

  /** The counter without one payload. */
  function Without(count: Counter, p: Payload): Counter {
    (q: Payload) => if q == p then 0 else count(q)
  }

  lemma {:induction false} WithoutAbsent(count: Counter, p: Payload, ps: seq<Payload>)
    requires p !in ps
    ensures LastCount(Without(count, p), ps) == LastCount(count, ps)
    decreases |ps|
  {
    if ps != [] {
      WithoutAbsent(count, p, ps[..|ps| - 1]);
    }
  }

  ghost predicate CountAlike(ps: seq<Payload>, qs: seq<Payload>) {
    forall count: Counter :: LastCount(count, ps) == LastCount(count, qs)
  }

  /** Lists without repetitions that no counter tells apart are the same list. */
  lemma {:induction false} CountersTellListsApart(ps: seq<Payload>, qs: seq<Payload>)
    requires Distinct(ps) && Distinct(qs) && CountAlike(ps, qs)
    ensures ps == qs
    decreases |ps| + |qs|
  {
    if ps != [] || qs != [] {
      SameLast(ps, qs);
      var p, ps', qs' := ps[|ps| - 1], ps[..|ps| - 1], qs[..|qs| - 1];
      forall count: Counter
        ensures LastCount(count, ps') == LastCount(count, qs')
      {
        assert LastCount(Without(count, p), ps) == LastCount(Without(count, p), qs);
        WithoutAbsent(count, p, ps');
        WithoutAbsent(count, p, qs');
      }
      CountersTellListsApart(ps', qs');
      assert ps == ps' + [p] && qs == qs' + [p];
    }
  }

  lemma SameLast(ps: seq<Payload>, qs: seq<Payload>)
    requires CountAlike(ps, qs) && (ps != [] || qs != [])
    ensures ps != [] && qs != [] && ps[|ps| - 1] == qs[|qs| - 1]
  {
    var p := if ps == [] then qs[|qs| - 1] else ps[|ps| - 1];
    var q := if qs == [] then ps[|ps| - 1] else qs[|qs| - 1];
    var count: Counter := (x: Payload) => if x == p then 1 else if x == q then 2 else 0;
    assert LastCount(count, ps) == LastCount(count, qs);
  }

  lemma EssencesAgreeIff(provider: Provider, ps: seq<Payload>, qs: seq<Payload>)
    ensures Essence(provider, ps) == Essence(provider, qs) <==>
      forall dec :: UsageOf(dec, provider, NO_USAGE, ps) == UsageOf(dec, provider, NO_USAGE, qs)
  {
    forall dec
      ensures UsageOf(dec, provider, NO_USAGE, ps) == UsageOf(dec, provider, NO_USAGE, Essence(provider, ps))
      ensures UsageOf(dec, provider, NO_USAGE, qs) == UsageOf(dec, provider, NO_USAGE, Essence(provider, qs))
    {
      EssenceIsEnough(dec, provider, NO_USAGE, ps);
      EssenceIsEnough(dec, provider, NO_USAGE, qs);
    }
    if forall dec :: UsageOf(dec, provider, NO_USAGE, ps) == UsageOf(dec, provider, NO_USAGE, qs) {
      forall count: Counter
        ensures LastCount(count, Essence(provider, ps)) == LastCount(count, Essence(provider, qs))
      {
        EssenceCount(provider, count, ps);
        EssenceCount(provider, count, qs);
      }
      LastOnlyIsDistinct(AllDecoded(provider, ps));
      LastOnlyIsDistinct(AllDecoded(provider, qs));
      CountersTellListsApart(Essence(provider, ps), Essence(provider, qs));
    }
  }

  lemma EssenceCount(provider: Provider, count: Counter, ps: seq<Payload>)
    ensures UsageOf(DecoderOf(count), provider, NO_USAGE, Essence(provider, ps)).output
         == LastCount(count, Essence(provider, ps))
  {
    DecodedAre(provider, ps);
    LastOnlyIsDistinct(AllDecoded(provider, ps));
    OutputIsLastCount(provider, count, Essence(provider, ps));
  }

  // ---- The loop and the events ----

  /** For any lines and any events: the loop's usage is the usage of the events under every decoder exactly when the
      decoded payloads of both, each at its last occurrence, are the same in the same order. */
  lemma UsageAgreesIff(provider: Provider, lines: seq<string>, es: seq<Event>)
    ensures Essence(provider, LoopPayloads("", lines)) == Essence(provider, EventPayloads(es)) <==>
      forall dec :: MeterLines(dec, provider, MeterState("", NO_USAGE), lines).usage
                 == UsageOfEvents(dec, provider, NO_USAGE, es)
  {
    var loop, client := LoopPayloads("", lines), EventPayloads(es);
    EssencesAgreeIff(provider, loop, client);
    if forall dec :: UsageOf(dec, provider, NO_USAGE, loop) == UsageOf(dec, provider, NO_USAGE, client) {
      forall dec
        ensures MeterLines(dec, provider, MeterState("", NO_USAGE), lines).usage
             == UsageOfEvents(dec, provider, NO_USAGE, es)
      {
        BothUsages(dec, provider, lines, es);
        assert UsageOf(dec, provider, NO_USAGE, loop) == UsageOf(dec, provider, NO_USAGE, client);
      }
    } else {
      var dec :| UsageOf(dec, provider, NO_USAGE, loop) != UsageOf(dec, provider, NO_USAGE, client);
      BothUsages(dec, provider, lines, es);
    }
  }

  lemma BothUsages(dec: Decoder, provider: Provider, lines: seq<string>, es: seq<Event>)
    ensures MeterLines(dec, provider, MeterState("", NO_USAGE), lines).usage
         == UsageOf(dec, provider, NO_USAGE, LoopPayloads("", lines))
    ensures UsageOfEvents(dec, provider, NO_USAGE, es) == UsageOf(dec, provider, NO_USAGE, EventPayloads(es))
  {
    LoopUsage(dec, provider, MeterState("", NO_USAGE), lines);
    EventUsage(dec, provider, NO_USAGE, es);
  }

  /** The exact condition for every stream, against the events the client parses and against those the provider sent. */
  lemma StreamUsageAgreesIff(provider: Provider, s: string)
    ensures Essence(provider, LoopPayloads("", Tokens(s))) == Essence(provider, EventPayloads(Parse(Forwarded(s)))) <==>
      forall dec :: MeterLines(dec, provider, MeterState("", NO_USAGE), Tokens(s)).usage
                 == UsageOfEvents(dec, provider, NO_USAGE, Parse(Forwarded(s)))
    ensures Essence(provider, LoopPayloads("", Tokens(s))) == Essence(provider, EventPayloads(Parse(s))) <==>
      forall dec :: MeterLines(dec, provider, MeterState("", NO_USAGE), Tokens(s)).usage
                 == UsageOfEvents(dec, provider, NO_USAGE, Parse(s))
  {
    UsageAgreesIff(provider, Tokens(s), Parse(Forwarded(s)));
    UsageAgreesIff(provider, Tokens(s), Parse(s));
  }
}
