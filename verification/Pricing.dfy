/** Cost of a request in units of 1e-8 USD: exact rationals, rounded once to eight decimals. */
module Pricing {
  /** USD per million tokens. */
  datatype Price = Price(input: real, output: real)

  type PriceTable = map<string, Price>

  /** One million tokens at one USD cost 1e8 units, so a token costs 100 units per USD of price. */
  function ExactUnits(p: Price, input: int, output: int): real {
    input as real * (100.0 * p.input) + output as real * (100.0 * p.output)
  }

  /** `%.8f`: the nearest whole unit, ties to the even one. */
  function Round(x: real): (n: int)
    ensures -0.5 <= n as real - x <= 0.5
    ensures x == x.Floor as real ==> n == x.Floor
    ensures x - x.Floor as real == 0.5 ==> n % 2 == 0
  {
    var below := x.Floor;
    var rest := x - below as real;
    if rest < 0.5 || (rest == 0.5 && below % 2 == 0) then below else below + 1
  }

  /** Unknown models are free. */
  function ComputeCost(model: string, input: int, output: int, pricing: PriceTable): int {
    if model !in pricing then 0 else Round(ExactUnits(pricing[model], input, output))
  }

  /** A price that is a whole number of cents per million tokens, so of units per token. */
  predicate WholeCents(p: Price, cents: (int, int)) {
    100.0 * p.input == cents.0 as real && 100.0 * p.output == cents.1 as real
  }

  /** Whole-cent prices make rounding lossless and charging additive: splitting a request changes nothing. */
  lemma WholeCentsAreExact(model: string, cents: (int, int), pricing: PriceTable, i: int, o: int, i': int, o': int)
    requires model in pricing && WholeCents(pricing[model], cents)
    ensures ComputeCost(model, i, o, pricing) as real == ExactUnits(pricing[model], i, o)
    ensures ComputeCost(model, i, o, pricing) == i * cents.0 + o * cents.1
    ensures ComputeCost(model, i + i', o + o', pricing)
         == ComputeCost(model, i, o, pricing) + ComputeCost(model, i', o', pricing)
  {
    CostOfCents(pricing[model], cents, i, o);
    CostOfCents(pricing[model], cents, i', o');
    CostOfCents(pricing[model], cents, i + i', o + o');
    assert (i + i') * cents.0 == i * cents.0 + i' * cents.0;
    assert (o + o') * cents.1 == o * cents.1 + o' * cents.1;
  }

  lemma CostOfCents(p: Price, cents: (int, int), input: int, output: int)
    requires WholeCents(p, cents)
    ensures Round(ExactUnits(p, input, output)) == input * cents.0 + output * cents.1
    ensures ExactUnits(p, input, output) == (input * cents.0 + output * cents.1) as real
  {
    assert input as real * cents.0 as real == (input * cents.0) as real;
    assert output as real * cents.1 as real == (output * cents.1) as real;
    assert ExactUnits(p, input, output) == (input * cents.0 + output * cents.1) as real;
  }

  /** One priced request. */
  datatype Priced = Priced(model: string, input: int, output: int)

  function Charged(rs: seq<Priced>, pricing: PriceTable): int {
    if rs == [] then 0
    else ComputeCost(rs[0].model, rs[0].input, rs[0].output, pricing) + Charged(rs[1..], pricing)
  }

  function Exact(rs: seq<Priced>, pricing: PriceTable): real {
    if rs == [] then 0.0
    else
      (if rs[0].model in pricing then ExactUnits(pricing[rs[0].model], rs[0].input, rs[0].output) else 0.0)
      + Exact(rs[1..], pricing)
  }

  /** Under any price table the charges of a window drift from their exact cost by at most half a unit each. */
  lemma {:induction false} RoundingDriftIsBounded(rs: seq<Priced>, pricing: PriceTable)
    ensures -(|rs| as real) / 2.0 <= Charged(rs, pricing) as real - Exact(rs, pricing) <= |rs| as real / 2.0
  {
    if rs != [] {
      RoundingDriftIsBounded(rs[1..], pricing);
    }
  }

  lemma RoundIsMonotone(x: real, y: real)
    requires x <= y
    ensures Round(x) <= Round(y)
  {
  }

  lemma Scale(m: int, n: int, x: real)
    requires m <= n && x >= 0.0
    ensures m as real * x <= n as real * x
  {
  }

  lemma ExactIsMonotone(p: Price, i: int, o: int, i': int, o': int)
    requires i <= i' && o <= o' && p.input >= 0.0 && p.output >= 0.0
    ensures ExactUnits(p, i, o) <= ExactUnits(p, i', o')
  {
    Scale(i, i', 100.0 * p.input);
    Scale(o, o', 100.0 * p.output);
  }

  /** More tokens of the same model never cost less when prices are not negative. */
  lemma CostIsMonotone(model: string, i: int, o: int, i': int, o': int, pricing: PriceTable)
    requires i <= i' && o <= o'
    requires model in pricing ==> pricing[model].input >= 0.0 && pricing[model].output >= 0.0
    ensures ComputeCost(model, i, o, pricing) <= ComputeCost(model, i', o', pricing)
    ensures 0 <= i && 0 <= o ==> 0 <= ComputeCost(model, i, o, pricing)
  {
    if model in pricing {
      ExactIsMonotone(pricing[model], i, o, i', o');
      RoundIsMonotone(ExactUnits(pricing[model], i, o), ExactUnits(pricing[model], i', o'));
      if 0 <= i && 0 <= o {
        ExactIsMonotone(pricing[model], 0, 0, i, o);
        RoundIsMonotone(0.0, ExactUnits(pricing[model], i, o));
      }
    }
  }

  // ---- The default table ----

  const DEFAULT_PRICING: PriceTable := map[
    "claude-3-5-sonnet-20241022" := Price(3.0, 15.0),
    "claude-3-haiku-20240307" := Price(0.25, 1.25),
    "gpt-4o" := Price(5.0, 15.0),
    "gpt-4o-mini" := Price(0.15, 0.6)]

  function DefaultCents(model: string): (int, int) {
    if model == "claude-3-5-sonnet-20241022" then (300, 1500)
    else if model == "claude-3-haiku-20240307" then (25, 125)
    else if model == "gpt-4o" then (500, 1500)
    else (15, 60)
  }

  /** NUMERIC(12, 8) holds less than 10^4 USD. */
  predicate FitsEventColumn(units: int) {
    -1_000_000_000_000 < units < 1_000_000_000_000
  }

  /** Four digits before the point and eight after: 9999.99999999 USD fits, 10000 does not, nor do their opposites. */
  lemma EventColumnInDigits(units: int)
    ensures FitsEventColumn(units) <==> -10_000.0 < units as real / 100_000_000.0 < 10_000.0
  {
  }

  lemma DefaultCost(model: string, input: nat, output: nat)
    ensures model in DEFAULT_PRICING ==> WholeCents(DEFAULT_PRICING[model], DefaultCents(model))
    ensures 0 <= ComputeCost(model, input, output, DEFAULT_PRICING) <= 1500 * (input + output)
  {
    if model in DEFAULT_PRICING {
      CostOfCents(DEFAULT_PRICING[model], DefaultCents(model), input, output);
    }
  }

  /** The dearest tokens are gpt-4o's output. */
  lemma DearestTokens(n: nat)
    ensures ComputeCost("gpt-4o", 0, n, DEFAULT_PRICING) == 1500 * n
  {
    CostOfCents(DEFAULT_PRICING["gpt-4o"], (500, 1500), 0, n);
  }

  /** By default every price is whole cents, and every request of at most `total` tokens fits usage_events exactly when
      `total` is at most 666,666,666. */
  lemma DefaultCostsFit(total: nat)
    ensures forall model :: model in DEFAULT_PRICING ==> WholeCents(DEFAULT_PRICING[model], DefaultCents(model))
    ensures total <= 666_666_666 <==>
      forall model, input: nat, output: nat :: input + output <= total ==>
        FitsEventColumn(ComputeCost(model, input, output, DEFAULT_PRICING))
  {
    forall model, input: nat, output: nat
      ensures model in DEFAULT_PRICING ==> WholeCents(DEFAULT_PRICING[model], DefaultCents(model))
      ensures 0 <= ComputeCost(model, input, output, DEFAULT_PRICING) <= 1500 * (input + output)
    {
      DefaultCost(model, input, output);
    }
    DearestTokens(total);
  }

  /** What a million tokens cost by default, in units of 1e-8 USD. */
  lemma DefaultMillions()
    ensures ComputeCost("claude-3-5-sonnet-20241022", 1_000_000, 0, DEFAULT_PRICING) == 300_000_000
    ensures ComputeCost("claude-3-5-sonnet-20241022", 0, 1_000_000, DEFAULT_PRICING) == 1_500_000_000
    ensures ComputeCost("claude-3-haiku-20240307", 1_000_000, 0, DEFAULT_PRICING) == 25_000_000
    ensures ComputeCost("claude-3-haiku-20240307", 0, 1_000_000, DEFAULT_PRICING) == 125_000_000
    ensures ComputeCost("gpt-4o", 1_000_000, 0, DEFAULT_PRICING) == 500_000_000
    ensures ComputeCost("gpt-4o", 0, 1_000_000, DEFAULT_PRICING) == 1_500_000_000
    ensures ComputeCost("gpt-4o-mini", 1_000_000, 0, DEFAULT_PRICING) == 15_000_000
    ensures ComputeCost("gpt-4o-mini", 0, 1_000_000, DEFAULT_PRICING) == 60_000_000
  {
    Million("claude-3-5-sonnet-20241022", (300, 1500));
    Million("claude-3-haiku-20240307", (25, 125));
    Million("gpt-4o", (500, 1500));
    Million("gpt-4o-mini", (15, 60));
  }

  lemma Million(model: string, cents: (int, int))
    requires model in DEFAULT_PRICING && WholeCents(DEFAULT_PRICING[model], cents)
    ensures ComputeCost(model, 1_000_000, 0, DEFAULT_PRICING) == 1_000_000 * cents.0
    ensures ComputeCost(model, 0, 1_000_000, DEFAULT_PRICING) == 1_000_000 * cents.1
  {
    CostOfCents(DEFAULT_PRICING[model], cents, 1_000_000, 0);
    CostOfCents(DEFAULT_PRICING[model], cents, 0, 1_000_000);
  }
}
