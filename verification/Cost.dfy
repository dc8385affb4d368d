/**
 Usage and its price: the token mapping of the OpenAI adapter and the single cost
 formula. Money is a real number; rounding is not the point.
 */
module Cost {
  /** Per-token USD rates. */
  datatype CostRates = CostRates(input: real, output: real, thinking: real, cached: real)

  datatype Usage = Usage(inputTokens: nat, outputTokens: nat, thinkingTokens: nat, cachedTokens: nat)

  /** One or more Responses turns, as the API counts them: reasoning inside output, cached inside input. */
  datatype OpenAiUsage = OpenAiUsage(inputTokens: nat, outputTokens: nat, cachedTokens: nat, reasoningTokens: nat)

  function Positive(x: int): nat {
    if x < 0 then 0 else x
  }

  /** Tokens of the four kinds, each at its rate. */
  function Weighted(rates: CostRates, uncached: nat, cached: nat, output: nat, thinking: nat): real {
    uncached as real * rates.input + cached as real * rates.cached
    + output as real * rates.output + thinking as real * rates.thinking
  }

  function ComputeCost(rates: CostRates, u: Usage): real {
    Weighted(rates, Positive(u.inputTokens - u.cachedTokens), u.cachedTokens, u.outputTokens, u.thinkingTokens)
  }

  function FromOpenAi(u: OpenAiUsage): Usage {
    Usage(u.inputTokens, Positive(u.outputTokens - u.reasoningTokens), u.reasoningTokens, u.cachedTokens)
  }

  function Add(a: OpenAiUsage, b: OpenAiUsage): OpenAiUsage {
    OpenAiUsage(a.inputTokens + b.inputTokens, a.outputTokens + b.outputTokens,
                a.cachedTokens + b.cachedTokens, a.reasoningTokens + b.reasoningTokens)
  }

  const NO_USAGE: OpenAiUsage := OpenAiUsage(0, 0, 0, 0)

  /** The first `n` turns summed up. */
  function Sum(us: seq<OpenAiUsage>, n: nat): OpenAiUsage
    requires n <= |us|
  {
    if n == 0 then NO_USAGE else Add(Sum(us, n - 1), us[n - 1])
  }

  function Price(rates: CostRates, u: OpenAiUsage): real {
    ComputeCost(rates, FromOpenAi(u))
  }

  function TotalPrice(rates: CostRates, us: seq<OpenAiUsage>, n: nat): real
    requires n <= |us|
  {
    if n == 0 then 0.0 else TotalPrice(rates, us, n - 1) + Price(rates, us[n - 1])
  }

  // ----- Pricing the sum against summing the prices --------------------------------------------------------

  /** Tokens beyond the cached ones, and output beyond reasoning; the API promises both are not negative. */
  function Surplus(u: OpenAiUsage, visible: bool): int {
    if visible then u.outputTokens - u.reasoningTokens else u.inputTokens - u.cachedTokens
  }

  function ClampedSum(us: seq<OpenAiUsage>, n: nat, visible: bool): nat
    requires n <= |us|
  {
    if n == 0 then 0 else ClampedSum(us, n - 1, visible) + Positive(Surplus(us[n - 1], visible))
  }

  lemma WeightedAdds(rates: CostRates, f: nat, c: nat, o: nat, t: nat, f': nat, c': nat, o': nat, t': nat)
    ensures Weighted(rates, f + f', c + c', o + o', t + t') ==
            Weighted(rates, f, c, o, t) + Weighted(rates, f', c', o', t')
  {
    Distribute(f, f', rates.input);
    Distribute(c, c', rates.cached);
    Distribute(o, o', rates.output);
    Distribute(t, t', rates.thinking);
  }

  lemma Distribute(x: nat, y: nat, r: real)
    ensures (x + y) as real * r == x as real * r + y as real * r
  {
    assert (x + y) as real == x as real + y as real;
  }

  lemma AtRate(n: nat, rate: real)
    ensures (n + 1) as real * rate == n as real * rate + rate
  {
    Distribute(n, 1, rate);
    assert 1 as real * rate == rate;
  }

  /**
   What one more token costs: its kind's rate; and a token read from the cache
   trades the input rate for the cached one, as long as there is an input token to trade.
   */
  lemma TokenPrices(rates: CostRates, u: Usage)
    ensures ComputeCost(rates, Usage(0, 0, 0, 0)) == 0.0
    ensures u.cachedTokens <= u.inputTokens ==>
              ComputeCost(rates, u.(inputTokens := u.inputTokens + 1)) == ComputeCost(rates, u) + rates.input
    ensures ComputeCost(rates, u.(outputTokens := u.outputTokens + 1)) == ComputeCost(rates, u) + rates.output
    ensures ComputeCost(rates, u.(thinkingTokens := u.thinkingTokens + 1)) == ComputeCost(rates, u) + rates.thinking
    ensures u.cachedTokens < u.inputTokens ==>
              ComputeCost(rates, u.(cachedTokens := u.cachedTokens + 1)) ==
              ComputeCost(rates, u) + rates.cached - rates.input
  {
    AtRate(u.outputTokens, rates.output);
    AtRate(u.thinkingTokens, rates.thinking);
    AtRate(u.cachedTokens, rates.cached);
    if u.cachedTokens <= u.inputTokens {
      AtRate(u.inputTokens - u.cachedTokens, rates.input);
    }
    if u.cachedTokens < u.inputTokens {
      AtRate(u.inputTokens - u.cachedTokens - 1, rates.input);
    }
  }

  /** A turn of the OpenAI count, priced kind by kind: reasoning apart from output, cached apart from the rest. */
  lemma TurnPrice(rates: CostRates, u: OpenAiUsage)
    requires u.reasoningTokens <= u.outputTokens && u.cachedTokens <= u.inputTokens
    ensures Price(rates, u) ==
            (u.inputTokens - u.cachedTokens) as real * rates.input + u.cachedTokens as real * rates.cached
            + (u.outputTokens - u.reasoningTokens) as real * rates.output + u.reasoningTokens as real * rates.thinking
  {
  }

  /** A reasoning token of the OpenAI count is billed as thinking instead of output, and only once. */
  lemma ReasoningPrices(rates: CostRates, u: OpenAiUsage)
    requires u.reasoningTokens < u.outputTokens
    ensures Price(rates, u.(reasoningTokens := u.reasoningTokens + 1)) ==
            Price(rates, u) + rates.thinking - rates.output
    ensures Price(rates, u.(outputTokens := u.outputTokens + 1)) == Price(rates, u) + rates.output
  {
    var more, fewer := FromOpenAi(u), FromOpenAi(u.(reasoningTokens := u.reasoningTokens + 1));
    TokenPrices(rates, more);
    TokenPrices(rates, fewer.(thinkingTokens := more.thinkingTokens));
    assert fewer == fewer.(thinkingTokens := more.thinkingTokens).(thinkingTokens := more.thinkingTokens + 1);
    assert more == fewer.(thinkingTokens := more.thinkingTokens).(outputTokens := fewer.outputTokens + 1);
  }

  /** Turn by turn, both clamps are taken before the sum. */
  lemma {:induction false} TotalPriceParts(rates: CostRates, us: seq<OpenAiUsage>, n: nat)
    requires n <= |us|
    ensures TotalPrice(rates, us, n) ==
            Weighted(rates, ClampedSum(us, n, false), Sum(us, n).cachedTokens,
                     ClampedSum(us, n, true), Sum(us, n).reasoningTokens)
  {
    if n > 0 {
      TotalPriceParts(rates, us, n - 1);
      var s, u := Sum(us, n - 1), us[n - 1];
      WeightedAdds(rates, ClampedSum(us, n - 1, false), s.cachedTokens, ClampedSum(us, n - 1, true), s.reasoningTokens,
                   Positive(Surplus(u, false)), u.cachedTokens, Positive(Surplus(u, true)), u.reasoningTokens);
    }
  }

  ghost predicate NoneBelow(us: seq<OpenAiUsage>, n: nat, visible: bool)
    requires n <= |us|
  {
    forall i :: 0 <= i < n ==> Surplus(us[i], visible) >= 0
  }

  ghost predicate NoneAbove(us: seq<OpenAiUsage>, n: nat, visible: bool)
    requires n <= |us|
  {
    forall i :: 0 <= i < n ==> Surplus(us[i], visible) <= 0
  }

  /** All of one sign: then, and only then, the clamp of the sum is the sum of the clamps. */
  lemma {:induction false} ClampIff(us: seq<OpenAiUsage>, n: nat, visible: bool)
    requires n <= |us|
    ensures ClampedSum(us, n, visible) >= Positive(Surplus(Sum(us, n), visible))
    ensures ClampedSum(us, n, visible) == Surplus(Sum(us, n), visible) <==> NoneBelow(us, n, visible)
    ensures ClampedSum(us, n, visible) == 0 <==> NoneAbove(us, n, visible)
  {
    if n > 0 {
      ClampIff(us, n - 1, visible);
      assert NoneBelow(us, n, visible) <==> NoneBelow(us, n - 1, visible) && Surplus(us[n - 1], visible) >= 0;
      assert NoneAbove(us, n, visible) <==> NoneAbove(us, n - 1, visible) && Surplus(us[n - 1], visible) <= 0;
    }
  }

  /** More tokens of a kind with a positive rate cost strictly more. */
  lemma MoreCostsMore(fewer: nat, more: nat, rate: real)
    requires fewer <= more && rate > 0.0
    ensures fewer as real * rate <= more as real * rate
    ensures fewer as real * rate == more as real * rate <==> fewer == more
  {
    if fewer < more {
      var gap: nat := more - fewer;
      Distribute(fewer, gap, rate);
      assert gap as real >= 1.0;
      assert gap as real * rate >= rate;
    }
  }

  lemma WeightedGap(rates: CostRates, f: nat, f': nat, o: nat, o': nat, c: nat, t: nat)
    requires rates.input > 0.0 && rates.output > 0.0 && f <= f' && o <= o'
    ensures Weighted(rates, f, c, o, t) <= Weighted(rates, f', c, o', t)
    ensures Weighted(rates, f, c, o, t) == Weighted(rates, f', c, o', t) <==> f == f' && o == o'
  {
    MoreCostsMore(f, f', rates.input);
    MoreCostsMore(o, o', rates.output);
  }

  /** No turn is short of tokens that another has to spare. */
  ghost predicate Exactly(us: seq<OpenAiUsage>, visible: bool) {
    NoneBelow(us, |us|, visible) || NoneAbove(us, |us|, visible)
  }

  /**
   Main result: with positive input and output rates, pricing the summed usage
   gives the sum of the per-turn prices exactly when no turn's surplus hides
   another's deficit, and it never gives more.
   */
  lemma PriceAddsUpIff(rates: CostRates, us: seq<OpenAiUsage>)
    requires rates.input > 0.0 && rates.output > 0.0
    ensures Price(rates, Sum(us, |us|)) <= TotalPrice(rates, us, |us|)
    ensures Price(rates, Sum(us, |us|)) == TotalPrice(rates, us, |us|) <==>
            Exactly(us, false) && Exactly(us, true)
  {
    var s := Sum(us, |us|);
    TotalPriceParts(rates, us, |us|);
    ClampIff(us, |us|, false);
    ClampIff(us, |us|, true);
    WeightedGap(rates, Positive(Surplus(s, false)), ClampedSum(us, |us|, false),
                Positive(Surplus(s, true)), ClampedSum(us, |us|, true), s.cachedTokens, s.reasoningTokens);
    assert Price(rates, s) ==
           Weighted(rates, Positive(Surplus(s, false)), s.cachedTokens, Positive(Surplus(s, true)), s.reasoningTokens);
    assert Exactly(us, false) <==> ClampedSum(us, |us|, false) == Positive(Surplus(s, false));
    assert Exactly(us, true) <==> ClampedSum(us, |us|, true) == Positive(Surplus(s, true));
  }

  lemma HiddenDeficit(us: seq<OpenAiUsage>, rates: CostRates)
    requires rates.input > 0.0 && rates.output > 0.0
    requires |us| == 2 && Surplus(us[0], false) < 0 < Surplus(us[1], false)
    ensures Price(rates, Sum(us, 2)) < TotalPrice(rates, us, 2)
  {
    PriceAddsUpIff(rates, us);
    assert !NoneBelow(us, 2, false) && !NoneAbove(us, 2, false);
  }

  /** Two turns, one with more cached than input tokens: their sum is always priced below the sum of their prices. */
  lemma PricedBelow(rates: CostRates)
    requires rates.input > 0.0 && rates.output > 0.0
    ensures var us := [OpenAiUsage(0, 0, 1, 0), OpenAiUsage(2, 0, 0, 0)];
            Price(rates, Sum(us, 2)) < TotalPrice(rates, us, 2)
  {
    HiddenDeficit([OpenAiUsage(0, 0, 1, 0), OpenAiUsage(2, 0, 0, 0)], rates);
  }

  /** Whatever the rates: with cached <= input and reasoning <= output in every turn, the prices add up. */
  lemma PriceAddsUp(rates: CostRates, us: seq<OpenAiUsage>)
    requires forall i :: 0 <= i < |us| ==>
               us[i].cachedTokens <= us[i].inputTokens && us[i].reasoningTokens <= us[i].outputTokens
    ensures Price(rates, Sum(us, |us|)) == TotalPrice(rates, us, |us|)
  {
    TotalPriceParts(rates, us, |us|);
    ClampIff(us, |us|, false);
    ClampIff(us, |us|, true);
  }
}
