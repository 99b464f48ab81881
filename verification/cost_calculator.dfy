/** Costs from token counts, and estimates made before a call. */
module CostCalculator {
  import opened Wrappers
  import CostTracking

  datatype Rates = Rates(input: real, output: real)

  function Max(x: real): real {
    if x > 0.0 then x else 0.0
  }

  function CalculateCost(promptTokens: int, completionTokens: int, rates: Option<Rates>): real {
    if rates.None? then 0.0
    else
      Max(promptTokens as real) * Max(rates.value.input) + Max(completionTokens as real) * Max(rates.value.output)
  }

  /** Rates are not clamped here, as they are in `CalculateCost`. */
  function EstimateCost(promptLength: nat, maxTokens: Option<int>, rates: Option<Rates>, defaultTokens: int): real {
    if rates.None? then 0.0
    else
      promptLength as real / 4.0 * rates.value.input + maxTokens.GetOr(defaultTokens) as real * rates.value.output
  }

  lemma ProductOrder(x: real, y: real, z: real)
    requires x <= y && z >= 0.0
    ensures x * z <= y * z
  {
  }

  lemma CostNotNegative(promptTokens: int, completionTokens: int, rates: Option<Rates>)
    ensures CalculateCost(promptTokens, completionTokens, rates) >= 0.0
  {
    if rates.Some? {
      ProductOrder(0.0, Max(promptTokens as real), Max(rates.value.input));
      ProductOrder(0.0, Max(completionTokens as real), Max(rates.value.output));
    }
  }

  /** A call that keeps to its token limit, with a prompt of at most a token for every four characters,
      does not cost more than its estimate: it adds nothing to the overrun. */
  lemma EstimateCovers(
    promptLength: nat, promptTokens: int, maxTokens: Option<int>, completionTokens: int, rates: Option<Rates>,
    defaultTokens: int)
    requires rates.Some? ==> rates.value.input >= 0.0 && rates.value.output >= 0.0
    requires 4 * promptTokens <= promptLength && 0 <= completionTokens <= maxTokens.GetOr(defaultTokens)
    ensures var cost := CalculateCost(promptTokens, completionTokens, rates);
            var estimate := EstimateCost(promptLength, maxTokens, rates, defaultTokens);
            0.0 <= cost <= estimate && CostTracking.Over(estimate, cost) == 0.0
  {
    CostNotNegative(promptTokens, completionTokens, rates);
    if rates.Some? {
      var prompt, answer := Max(promptTokens as real), Max(completionTokens as real);
      var input, output := rates.value.input, rates.value.output;
      assert prompt <= promptLength as real / 4.0 && Max(input) == input && Max(output) == output;
      ProductOrder(prompt, promptLength as real / 4.0, input);
      ProductOrder(answer, maxTokens.GetOr(defaultTokens) as real, output);
      SumOrder(prompt * input, answer * output, promptLength as real / 4.0 * input,
               maxTokens.GetOr(defaultTokens) as real * output);
    }
  }

  lemma SumOrder(a: real, b: real, c: real, d: real)
    requires a <= c && b <= d
    ensures a + b <= c + d
  {
  }

  lemma OneMore(tokens: int, rate: real)
    ensures Max((tokens + 1) as real) * rate == Max(tokens as real) * rate + if tokens >= 0 then rate else 0.0
  {
    if tokens >= 0 { Distribute(tokens as real, 1.0, rate); }
  }

  lemma Distribute(x: real, y: real, rate: real)
    ensures (x + y) * rate == x * rate + y * rate
  {
  }

  /** One more prompt token adds the input rate, one more completion token the output rate; counts below zero
      and rates below zero add nothing. */
  lemma OneMoreToken(promptTokens: int, completionTokens: int, rates: Rates)
    ensures var cost := CalculateCost(promptTokens, completionTokens, Some(rates));
            && CalculateCost(promptTokens + 1, completionTokens, Some(rates))
               == cost + (if promptTokens >= 0 && rates.input > 0.0 then rates.input else 0.0)
            && CalculateCost(promptTokens, completionTokens + 1, Some(rates))
               == cost + (if completionTokens >= 0 && rates.output > 0.0 then rates.output else 0.0)
  {
    OneMore(promptTokens, Max(rates.input));
    OneMore(completionTokens, Max(rates.output));
  }

  /** No tokens cost nothing, and neither does a provider without rates. */
  lemma NothingCostsNothing(promptTokens: int, completionTokens: int, rates: Option<Rates>)
    requires rates.None? || (promptTokens <= 0 && completionTokens <= 0)
    ensures CalculateCost(promptTokens, completionTokens, rates) == 0.0
  {
    if rates.Some? {
      ProductOrder(0.0, Max(promptTokens as real), Max(rates.value.input));
    }
  }

  /** The estimate is no more than it has to be: a prompt of a token for every four characters that uses all
      its tokens costs exactly that. */
  lemma EstimateIsReached(promptTokens: nat, allowed: nat, rates: Option<Rates>, defaultTokens: int)
    requires rates.Some? ==> rates.value.input >= 0.0 && rates.value.output >= 0.0
    ensures CalculateCost(promptTokens, allowed, rates)
         == EstimateCost(4 * promptTokens, Some(allowed), rates, defaultTokens)
    ensures CalculateCost(promptTokens, defaultTokens, rates)
         == EstimateCost(4 * promptTokens, None, rates, defaultTokens)
        || defaultTokens < 0
  {
    assert (4 * promptTokens) as real / 4.0 == promptTokens as real;
  }

  /** A negative output rate makes the estimate negative, while the cost is never negative: such a call
      is reserved below what it costs. */
  lemma NegativeRateUnderestimates(promptLength: nat, tokens: int, output: real)
    requires output < 0.0 && tokens > 0
    ensures EstimateCost(promptLength, Some(tokens), Some(Rates(0.0, output)), 0) < 0.0
            <= CalculateCost(promptLength, tokens, Some(Rates(0.0, output)))
  {
    CostNotNegative(promptLength, tokens, Some(Rates(0.0, output)));
    NegativeProduct(tokens as real, output);
  }

  lemma NegativeProduct(x: real, y: real)
    requires x > 0.0 && y < 0.0
    ensures x * y < 0.0
  {
  }
}
