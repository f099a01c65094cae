/** `RikudenAPI`: Hokuriku's configuration; its per-row expression is the unguarded clipped
    one. */
module Rikuden {
  import opened Factors
  import opened ClippedQuery

  /** `config_rikuden`: the LNG share and the oil and coal station capacities summed. */
  const RikudenConfig: UtilityConfig := UtilityConfig(80.07, FuelWeights(
    0.4247,
    0.25 + 0.5 + 0.5,
    0.5 + 0.7 + 0.25 + 0.5 + 0.7 + 0.25 + 0.25))

  /** The configured totals: pumped storage 80.07, lng 0.4247, oil 1.25, coal 3.15, usable
      as weights of a mean. */
  lemma RikudenConfigTotals()
    ensures RikudenConfig == UtilityConfig(80.07, FuelWeights(0.4247, 1.25, 3.15))
    ensures ValidWeights(RikudenConfig.fuelTypeTotals)
  {
  }
}
