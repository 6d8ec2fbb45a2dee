/** Per-call cost from a fixed rate table, in dollars per thousand tokens.
    Amounts are exact rationals (`real`). */
module CostEstimator {

  datatype Rates = Rates(prompt: real, completion: real)

  /** The `COSTS` table. */
  const Costs: map<string, Rates> := map[
    "gpt-4" := Rates(0.03, 0.06),
    "gpt-3.5-turbo" := Rates(0.0015, 0.002)
  ]

  /** `estimateCost`: an unknown model costs nothing; otherwise each token
      count is charged at its per-thousand rate. */
  function EstimateCost(model: string, promptTokens: nat, completionTokens: nat): (cost: real)
    ensures model !in Costs ==> cost == 0.0
    ensures cost >= 0.0
    ensures promptTokens == 0 && completionTokens == 0 ==> cost == 0.0
  {
    if model !in Costs then 0.0
    else
      var rates := Costs[model];
      (promptTokens as real * rates.prompt) / 1000.0 + (completionTokens as real * rates.completion) / 1000.0
  }

  lemma Gpt4Pricing(p: nat, c: nat)
    ensures EstimateCost("gpt-4", p, c) == p as real * 0.03 / 1000.0 + c as real * 0.06 / 1000.0
  {
  }

  lemma Gpt35TurboPricing(p: nat, c: nat)
    ensures EstimateCost("gpt-3.5-turbo", p, c) == p as real * 0.0015 / 1000.0 + c as real * 0.002 / 1000.0
  {
  }

  /** More tokens never cost less. */
  lemma CostMonotone(model: string, p1: nat, c1: nat, p2: nat, c2: nat)
    requires p1 <= p2 && c1 <= c2
    ensures EstimateCost(model, p1, c1) <= EstimateCost(model, p2, c2)
  {
  }

  /** Charging two calls separately costs the same as charging their
      combined token counts once. */
  lemma CostAdditive(model: string, p1: nat, c1: nat, p2: nat, c2: nat)
    ensures EstimateCost(model, p1 + p2, c1 + c2) == EstimateCost(model, p1, c1) + EstimateCost(model, p2, c2)
  {
  }
}
