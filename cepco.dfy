/** `CepcoAPI`: Chugoku's configuration; its per-row expression is the unguarded clipped one. */
module Cepco {
  import opened Factors
  import opened ClippedQuery

  /** `config_cepco`: station capacities summed per fuel. */
  const CepcoConfig: UtilityConfig := UtilityConfig(19.75, FuelWeights(
    0.285 + 1.4,
    0.35 + 0.35 + 0.50 + 0.35 + 0.5 + 0.7 + 0.4,
    1.0 + 0.156 + 0.259 + 0.5 + 0.5 + 0.175))

  /** The configured totals: pumped storage 19.75, lng 1.685, oil 3.15, coal 2.59, usable
      as weights of a mean. */
  lemma CepcoConfigTotals()
    ensures CepcoConfig == UtilityConfig(19.75, FuelWeights(1.685, 3.15, 2.59))
    ensures ValidWeights(CepcoConfig.fuelTypeTotals)
  {
  }
}
