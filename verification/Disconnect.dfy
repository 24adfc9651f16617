/** What a client that leaves early has received, and what it is charged. */
module Disconnect {
  import opened Core
  import opened Forwarding
  import opened Meter
  import opened Pricing

  /** A disconnect leaves a prefix of the full output that ends at a line end, and is itself what a full
      run over the processed lines writes without the closing line feed. */
  lemma DisconnectSendsAPrefix(lines: seq<string>, connected: nat)
    ensures Sent(lines, connected) <= Sent(lines, |lines|)
    ensures Sent(lines, connected) != "" ==> Sent(lines, connected)[|Sent(lines, connected)| - 1] == '\n'
  {
    var n := Processed(lines, connected);
    assert lines == lines[..n] + lines[n..];
    WrittenAppend(lines[..n], lines[n..]);
    EndsInLineFeed(lines[..n]);
    Prefix(Written(lines[..n]), Written(lines[n..]), "\n");
  }

  lemma Prefix(a: string, b: string, c: string)
    ensures a <= a + b + c
  {
    assert a + b + c == a + (b + c);
  }

  lemma {:induction false} EndsInLineFeed(lines: seq<string>)
    ensures Written(lines) != "" ==> Written(lines)[|Written(lines)| - 1] == '\n'
  {
    if lines != [] {
      EndsInLineFeed(lines[1..]);
    }
  }

  /** What the provider reported, line by line. */
  function Reports(dec: Decoder, provider: Provider, last: string, lines: seq<string>): seq<Report>
    decreases |lines|
  {
    if lines == [] then []
    else
      var kind := NextKind(last, lines[0]);
      [LineReport(dec, provider, kind, lines[0])] + Reports(dec, provider, kind, lines[1..])
  }

  lemma {:induction false} UsageIsReports(dec: Decoder, provider: Provider, st: MeterState, lines: seq<string>)
    ensures MeterLines(dec, provider, st, lines).usage == ApplyAll(st.usage, Reports(dec, provider, st.last, lines))
    ensures |Reports(dec, provider, st.last, lines)| == |lines|
    decreases |lines|
  {
    if lines != [] {
      var kind := NextKind(st.last, lines[0]);
      UsageIsReports(dec, provider, MeterLine(dec, provider, st, lines[0]), lines[1..]);
      assert Reports(dec, provider, st.last, lines)[1..] == Reports(dec, provider, kind, lines[1..]);
    }
  }

  lemma {:induction false} ReportsOfPrefix(dec: Decoder, provider: Provider, last: string, lines: seq<string>, k: nat)
    requires k <= |lines|
    ensures |Reports(dec, provider, last, lines)| == |lines|
    ensures Reports(dec, provider, last, lines[..k]) == Reports(dec, provider, last, lines)[..k]
    decreases |lines|
  {
    if lines != [] {
      var kind := NextKind(last, lines[0]);
      ReportsOfPrefix(dec, provider, kind, lines[1..], if k == 0 then 0 else k - 1);
      if k > 0 {
        assert lines[..k][1..] == lines[1..][..k - 1];
        FirstOfPrefix(LineReport(dec, provider, kind, lines[0]), Reports(dec, provider, kind, lines[1..]), k);
      }
    }
  }

  lemma FirstOfPrefix(r: Report, rs: seq<Report>, k: nat)
    requires 1 <= k <= |rs| + 1
    ensures ([r] + rs)[..k] == [r] + rs[..k - 1]
  {
  }

  predicate NoLess(a: Option<Int32>, b: Option<Int32>) {
    a.Some? && b.Some? ==> a.value <= b.value
  }

  predicate Plausible(r: Report) {
    (r.input.Some? ==> r.input.value >= 0) && (r.output.Some? ==> r.output.value >= 0)
  }

  /** Counts are totals so far: never negative and never falling. */
  ghost predicate Cumulative(rs: seq<Report>) {
    && (forall i :: 0 <= i < |rs| ==> Plausible(rs[i]))
    && forall i, j :: 0 <= i < j < |rs| ==> Later(rs[i], rs[j])
  }

  predicate Later(a: Report, b: Report) {
    NoLess(a.input, b.input) && NoLess(a.output, b.output)
  }

  /** What has been applied so far comes before a report that all the reports so far come before. */
  lemma {:induction false} AppliedComesBefore(rs: seq<Report>, r: Report)
    requires Plausible(r) && forall i :: 0 <= i < |rs| ==> Plausible(rs[i]) && Later(rs[i], r)
    ensures var u := ApplyAll(NO_USAGE, rs);
      u.input >= 0 && u.output >= 0 && Later(Report("", Some(u.input), Some(u.output)), r)
  {
    if rs != [] {
      AppliedComesBefore(rs[..|rs| - 1], r);
      ApplyLast(NO_USAGE, rs);
    }
  }

  /** The models that are named, in order. */
  function Models(rs: seq<Report>): seq<string> {
    if rs == [] then []
    else Models(rs[..|rs| - 1]) + if rs[|rs| - 1].model == "" then [] else [rs[|rs| - 1].model]
  }

  /** A stream starts with the empty name. */
  function LastOf(names: seq<string>): string {
    if names == [] then "" else names[|names| - 1]
  }

  lemma {:induction false} AppliedModel(rs: seq<Report>)
    ensures ApplyAll(NO_USAGE, rs).model == LastOf(Models(rs))
  {
    if rs != [] {
      AppliedModel(rs[..|rs| - 1]);
      ApplyLast(NO_USAGE, rs);
    }
  }

  lemma {:induction false} ModelsOfPrefix(rs: seq<Report>, k: nat)
    requires k <= |rs|
    ensures Models(rs[..k]) <= Models(rs)
    decreases |rs|
  {
    if k == |rs| {
      assert rs[..k] == rs;
    } else {
      assert rs[..|rs| - 1][..k] == rs[..k];
      ModelsOfPrefix(rs[..|rs| - 1], k);
    }
  }

  predicate NoMoreTokens(a: Metered, b: Metered) {
    0 <= a.input <= b.input && 0 <= a.output <= b.output
  }

  lemma {:induction false} CountsGrow(rs: seq<Report>, k: nat)
    requires Cumulative(rs) && k <= |rs|
    ensures NoMoreTokens(ApplyAll(NO_USAGE, rs[..k]), ApplyAll(NO_USAGE, rs))
    decreases |rs|
  {
    if k == |rs| {
      assert rs[..k] == rs;
      AppliedComesBefore(rs, NOTHING);
    } else {
      var before, r := rs[..|rs| - 1], rs[|rs| - 1];
      assert before[..k] == rs[..k];
      CountsGrow(before, k);
      assert forall i :: 0 <= i < |before| ==> Later(rs[i], rs[|rs| - 1]);
      AppliedComesBefore(before, r);
      ApplyLast(NO_USAGE, rs);
    }
  }

  /** What accounting charges for a metered stream: nothing when no tokens were seen. */
  function Bill(u: Metered, pricing: PriceTable): int {
    if u.input == 0 && u.output == 0 then 0 else ComputeCost(u.model, u.input, u.output, pricing)
  }

  /** Which is the cost, since no tokens cost nothing. */
  lemma BillIsCost(u: Metered, pricing: PriceTable)
    ensures Bill(u, pricing) == ComputeCost(u.model, u.input, u.output, pricing)
  {
    if u.model in pricing && u.input == 0 && u.output == 0 {
      NoUnits(pricing[u.model], u.input, u.output);
    }
  }

  lemma NoUnits(p: Price, input: int, output: int)
    requires input == 0 && output == 0
    ensures Round(ExactUnits(p, input, output)) == 0
  {
    var x, y := input as real * (100.0 * p.input), output as real * (100.0 * p.output);
    ZeroTimes(input as real, 100.0 * p.input, x);
    ZeroTimes(output as real, 100.0 * p.output, y);
    assert ExactUnits(p, input, output) == x + y;
    RoundOfZero(x + y);
  }

  lemma RoundOfZero(x: real)
    requires x == 0.0
    ensures Round(x) == 0
  {
  }

  /** The product is named, which keeps the arithmetic linear. */
  lemma ZeroTimes(zero: real, x: real, product: real)
    requires zero == 0.0 && product == zero * x
    ensures product == 0.0
  {
  }

  // ---- The models of a stream ----

  /** No counts of model a cost more than counts of model b that are no smaller; counts are int32. */
  ghost predicate NeverCostsMore(pricing: PriceTable, a: string, b: string) {
    forall i: Int32, o: Int32, i': Int32, o': Int32 :: 0 <= i <= i' && 0 <= o <= o' ==>
      ComputeCost(a, i, o, pricing) <= ComputeCost(b, i', o', pricing)
  }

  /** Neither the empty name nor any name in the list ever costs more than the last one. */
  ghost predicate LastCostsMost(pricing: PriceTable, names: seq<string>) {
    forall name :: name == "" || name in names ==> NeverCostsMore(pricing, name, LastOf(names))
  }

  ghost predicate NoNegativePrices(pricing: PriceTable) {
    forall m :: m in pricing ==> pricing[m].input >= 0.0 && pricing[m].output >= 0.0
  }

  lemma NeverNegative(u: Metered, pricing: PriceTable)
    requires NoNegativePrices(pricing) && 0 <= u.input && 0 <= u.output
    ensures Bill(u, pricing) >= 0
  {
    CostIsMonotone(u.model, 0, 0, u.input, u.output, pricing);
  }

  lemma CutOfReports(rs: seq<Report>, k: nat, pricing: PriceTable)
    requires Cumulative(rs) && LastCostsMost(pricing, Models(rs)) && k <= |rs|
    ensures Bill(ApplyAll(NO_USAGE, rs[..k]), pricing) <= Bill(ApplyAll(NO_USAGE, rs), pricing)
  {
    var cut, full := ApplyAll(NO_USAGE, rs[..k]), ApplyAll(NO_USAGE, rs);
    CountsGrow(rs, k);
    AppliedModel(rs);
    AppliedModel(rs[..k]);
    ModelsOfPrefix(rs, k);
    LastOfPrefix(Models(rs[..k]), Models(rs));
    LastBillsMost(cut, full, Models(rs), pricing);
  }

  lemma LastOfPrefix(names: seq<string>, all: seq<string>)
    requires names <= all
    ensures LastOf(names) == "" || LastOf(names) in all
  {
  }

  lemma LastBillsMost(cut: Metered, full: Metered, names: seq<string>, pricing: PriceTable)
    requires LastCostsMost(pricing, names) && NoMoreTokens(cut, full)
    requires (cut.model == "" || cut.model in names) && full.model == LastOf(names)
    ensures Bill(cut, pricing) <= Bill(full, pricing)
  {
    assert NeverCostsMore(pricing, cut.model, full.model);
    BillIsCost(cut, pricing);
    BillIsCost(full, pricing);
  }

  /** The usage after k lines. */
  function UsageAfter(dec: Decoder, provider: Provider, lines: seq<string>, k: nat): Metered
    requires k <= |lines|
  {
    MeterLines(dec, provider, MeterState("", NO_USAGE), lines[..k]).usage
  }

  lemma UsageAfterReports(dec: Decoder, provider: Provider, lines: seq<string>, k: nat)
    requires k <= |lines|
    ensures var rs := Reports(dec, provider, "", lines);
      |rs| == |lines| && UsageAfter(dec, provider, lines, k) == ApplyAll(NO_USAGE, rs[..k])
  {
    UsageIsReports(dec, provider, MeterState("", NO_USAGE), lines[..k]);
    ReportsOfPrefix(dec, provider, "", lines, k);
  }

  /** A disconnect never costs more than staying: when the provider's counts are cumulative and no model it names costs
      more than the last one, the charge for any cut is at most the charge for the full stream. */
  lemma CutNeverCostsMore(dec: Decoder, provider: Provider, lines: seq<string>, connected: nat, pricing: PriceTable)
    requires var rs := Reports(dec, provider, "", lines); Cumulative(rs) && LastCostsMost(pricing, Models(rs))
    ensures var cut, full := UsageAfter(dec, provider, lines, Processed(lines, connected)),
                             UsageAfter(dec, provider, lines, |lines|);
      Bill(cut, pricing) <= Bill(full, pricing) && (NoNegativePrices(pricing) ==> 0 <= Bill(cut, pricing))
  {
    var rs, k := Reports(dec, provider, "", lines), Processed(lines, connected);
    UsageAfterReports(dec, provider, lines, k);
    UsageAfterReports(dec, provider, lines, |lines|);
    assert rs[..|lines|] == rs;
    CutOfReports(rs, k, pricing);
    CountsGrow(rs, k);
    if NoNegativePrices(pricing) {
      NeverNegative(ApplyAll(NO_USAGE, rs[..k]), pricing);
    }
  }

  // ---- The condition in prices ----

  /** A model that the table does not price is free. */
  function PriceOf(pricing: PriceTable, model: string): Price {
    if model in pricing then pricing[model] else Price(0.0, 0.0)
  }

  predicate NoCheaper(pricing: PriceTable, a: string, b: string) {
    PriceOf(pricing, a).input <= PriceOf(pricing, b).input && PriceOf(pricing, a).output <= PriceOf(pricing, b).output
  }

  lemma CostByPrice(model: string, input: int, output: int, pricing: PriceTable)
    ensures ComputeCost(model, input, output, pricing) == Round(ExactUnits(PriceOf(pricing, model), input, output))
  {
    if model !in pricing {
      FreeUnits(Price(0.0, 0.0), input, output);
    }
  }

  lemma FreeUnits(p: Price, input: int, output: int)
    requires p.input == 0.0 && p.output == 0.0
    ensures Round(ExactUnits(p, input, output)) == 0
  {
    var x, y := input as real * (100.0 * p.input), output as real * (100.0 * p.output);
    TimesZero(input as real, 100.0 * p.input, x);
    TimesZero(output as real, 100.0 * p.output, y);
    assert ExactUnits(p, input, output) == x + y;
    RoundOfZero(x + y);
  }

  lemma TimesZero(x: real, zero: real, product: real)
    requires zero == 0.0 && product == x * zero
    ensures product == 0.0
  {
  }

  lemma DearerUnits(p: Price, q: Price, i: nat, o: nat)
    requires p.input <= q.input && p.output <= q.output
    ensures ExactUnits(p, i, o) <= ExactUnits(q, i, o)
  {
    Product(i, 100.0 * p.input, 100.0 * q.input);
    Product(o, 100.0 * p.output, 100.0 * q.output);
  }

  lemma Product(n: nat, x: real, y: real)
    requires x <= y
    ensures n as real * x <= n as real * y
  {
  }

  /** A model that is not cheaper never costs less. */
  lemma NoCheaperNeverCostsLess(a: string, b: string, pricing: PriceTable)
    requires NoNegativePrices(pricing) && NoCheaper(pricing, a, b)
    ensures NeverCostsMore(pricing, a, b)
  {
    var p, q := PriceOf(pricing, a), PriceOf(pricing, b);
    forall i: Int32, o: Int32, i': Int32, o': Int32 | 0 <= i <= i' && 0 <= o <= o'
      ensures ComputeCost(a, i, o, pricing) <= ComputeCost(b, i', o', pricing)
    {
      CostByPrice(a, i, o, pricing);
      CostByPrice(b, i', o', pricing);
      DearerUnits(p, q, i, o);
      ExactIsMonotone(q, i, o, i', o');
      RoundIsMonotone(ExactUnits(p, i, o), ExactUnits(q, i', o'));
    }
  }

  /** Every price is a whole number of cents per million tokens, as the default ones are. */
  ghost predicate WholeCentTable(pricing: PriceTable) {
    forall m :: m in pricing ==> exists cents :: WholeCents(pricing[m], cents)
  }

  /** What one token costs. */
  lemma OneTokenCosts(model: string, pricing: PriceTable)
    requires WholeCentTable(pricing)
    ensures ComputeCost(model, 1, 0, pricing) as real == 100.0 * PriceOf(pricing, model).input
    ensures ComputeCost(model, 0, 1, pricing) as real == 100.0 * PriceOf(pricing, model).output
  {
    if model in pricing {
      var cents :| WholeCents(pricing[model], cents);
      CostOfCents(pricing[model], cents, 1, 0);
      CostOfCents(pricing[model], cents, 0, 1);
    }
  }

  /** In a table of whole cents one token tells two prices apart, so the condition is one on the prices. */
  lemma WholeCentsNeverCostMoreIff(a: string, b: string, pricing: PriceTable)
    requires NoNegativePrices(pricing) && WholeCentTable(pricing)
    ensures NeverCostsMore(pricing, a, b) <==> NoCheaper(pricing, a, b)
  {
    if NoCheaper(pricing, a, b) {
      NoCheaperNeverCostsLess(a, b, pricing);
    }
    if NeverCostsMore(pricing, a, b) {
      OneTokenCosts(a, pricing);
      OneTokenCosts(b, pricing);
      assert ComputeCost(a, 1, 0, pricing) <= ComputeCost(b, 1, 0, pricing);
      assert ComputeCost(a, 0, 1, pricing) <= ComputeCost(b, 0, 1, pricing);
    }
  }

  /** The last name is no cheaper, in either price, than any name before it and than the empty name. */
  ghost predicate LastIsDearest(pricing: PriceTable, names: seq<string>) {
    forall name :: name == "" || name in names ==> NoCheaper(pricing, name, LastOf(names))
  }

  lemma LastCostsMostIfDearest(pricing: PriceTable, names: seq<string>)
    requires NoNegativePrices(pricing)
    ensures LastIsDearest(pricing, names) ==> LastCostsMost(pricing, names)
    ensures WholeCentTable(pricing) && LastCostsMost(pricing, names) ==> LastIsDearest(pricing, names)
  {
    forall name | name == "" || name in names
      ensures NoCheaper(pricing, name, LastOf(names)) ==> NeverCostsMore(pricing, name, LastOf(names))
      ensures WholeCentTable(pricing) && NeverCostsMore(pricing, name, LastOf(names)) ==>
        NoCheaper(pricing, name, LastOf(names))
    {
      if NoCheaper(pricing, name, LastOf(names)) {
        NoCheaperNeverCostsLess(name, LastOf(names), pricing);
      } else if WholeCentTable(pricing) {
        WholeCentsNeverCostMoreIff(name, LastOf(names), pricing);
      }
    }
  }

  /** The usual case: one model a stream, and no price for the empty name. */
  lemma OneModelIsDearest(pricing: PriceTable, names: seq<string>, model: string)
    requires NoNegativePrices(pricing) && "" !in pricing
    requires forall name :: name in names ==> name == model
    ensures LastIsDearest(pricing, names) && LastCostsMost(pricing, names)
  {
    if names != [] {
      assert LastOf(names) in names;
    }
    LastCostsMostIfDearest(pricing, names);
  }

  /** Where a price is so small that no int32 count costs a unit, a dearer name is harmless. */
  lemma TinyPricesNeverShow()
    ensures var tiny: PriceTable := map["a" := Price(0.000000000000001, 0.0)];
      !NoCheaper(tiny, "a", "b") && NeverCostsMore(tiny, "a", "b")
  {
    var tiny: PriceTable := map["a" := Price(0.000000000000001, 0.0)];
    forall i: Int32, o: Int32 | 0 <= i && 0 <= o
      ensures ComputeCost("a", i, o, tiny) == 0
    {
      ZeroTimes(100.0 * 0.0, o as real, 100.0 * 0.0 * o as real);
      assert ExactUnits(tiny["a"], i, o) == i as real * 0.0000000000001;
    }
  }
}
