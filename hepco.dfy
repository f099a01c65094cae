/** `HepcoAPI`: Hokkaido's configuration and its zero-guarded per-row expression. A row whose
    total generation is not positive (an hour recorded as 0 after an earthquake) yields 0
    instead of failing the query. */
module Hepco {
  import opened Generation
  import opened Factors
  import opened Intensity
  import opened ClippedQuery

  /** `config_hepco`. */
  const HepcoConfig: UtilityConfig := UtilityConfig(0.06, FuelWeights(6.5, 23.8, 25.9))

  /** The clipped expression under `IF(MWh_total_generation > 0, ratio, 0)`. */
  const HepcoFormula: Formula := Formula(AllSources, PositiveOnly, PositiveOnly, SumOfContributions, true)

  /** `_carbon_intensity_query_string` over the rows of the contributions subquery: one value
      per row for every input, 0 exactly where the guard fails. */
  lemma HepcoSeries(rows: seq<GenerationRow>, factors: FactorMap)
    requires HasAllSources(factors)
    ensures ClippedShape(HepcoFormula)
    ensures var rs := PerRowIntensities(HepcoFormula, rows, factors);
      && |rs| == |rows|
      && forall i :: 0 <= i < |rows| ==>
           (PumpedStorageCalc(rows[i]).totalGeneration <= 0.0 ==> rs[i] == 0.0)
           && (PumpedStorageCalc(rows[i]).totalGeneration > 0.0 ==>
                 rs[i] * PumpedStorageCalc(rows[i]).totalGeneration == Numerator(HepcoFormula, rows[i], factors))
  {
    PerRowValues(HepcoFormula, rows, factors);
  }

  /** A negative pumped-storage or interconnector volume gives the same value as a zero one,
      whatever the total: the divisor and the guard see the same clipped sum. */
  lemma HepcoNegativeFlowsAsZero(row: GenerationRow, factors: FactorMap, s: Source, v: real)
    requires HasAllSources(factors)
    requires (s == PumpedStorage || s == Interconnectors) && v <= 0.0
    ensures RowIntensity(HepcoFormula, WithVolume(row, s, v), factors)
         == RowIntensity(HepcoFormula, WithVolume(row, s, 0.0), factors)
  {
    NineCoefficients(factors);
    ClippedNegativeAsZero(HepcoFormula, row, factors, s, v);
  }
}
