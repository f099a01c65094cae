/** `TohokudenAPI`: Tohoku's factors (fuel shares lng 24, oil 2, coal 23; pumped storage 0;
    interconnectors 500) fed into the clipped expression. */
module Tohokuden {
  import opened Wrappers
  import opened Generation
  import opened Factors
  import opened Intensity
  import opened UtilityApi
  import opened ClippedQuery

  const TohokuWeights: FuelWeights := FuelWeights(24.0, 2.0, 23.0)

  /** Pumped storage fixed at 0, interconnectors at 500. */
  const TohokuPolicy: FactorPolicy := FactorPolicy(TohokuWeights, Fixed(0.0), 500.0)

  function CarbonIntensityFactors(feed: Feed): Option<FactorMap> {
    Resolve(feed, TohokuPolicy)
  }

  /** Tohoku's resolution reads eight feed entries and fails when one is missing; fossil is
      (23 coal + 2 oil + 24 gas) / 49, pumped storage 0, interconnectors 500 and geothermal 0;
      the other five are copied from the feed. */
  lemma TohokuFactors(feed: Feed)
    ensures CarbonIntensityFactors(feed).Some? <==>
      {"Nuclear", "Coal", "Oil", "Gas (Open Cycle)", "Hydro", "Biomass", "Solar", "Wind"} <= feed.Keys
    ensures CarbonIntensityFactors(feed).Some? ==>
      var m := CarbonIntensityFactors(feed).value;
      && HasAllSources(m)
      && m[Fossil] * 49.0 == 23.0 * feed["Coal"] + 2.0 * feed["Oil"] + 24.0 * feed["Gas (Open Cycle)"]
      && m[PumpedStorage] == 0.0 && m[Interconnectors] == 500.0 && m[Geothermal] == 0.0
      && m[Nuclear] == feed["Nuclear"] && m[Hydro] == feed["Hydro"] && m[Biomass] == feed["Biomass"]
      && m[Solar] == feed["Solar"] && m[Wind] == feed["Wind"]
  {
    if RequiredKeys(TohokuPolicy) <= feed.Keys {
      ResolvedFactors(feed, TohokuPolicy);
      ResolvedHasAllSources(CarbonIntensityFactors(feed).value);
    }
  }

  /** With Tohoku's factors, pumped-storage output adds to the total generation but nothing to
      the numerator, so it never raises a non-negative intensity. */
  lemma TohokuPumpedOutputNeverRaises(feed: Feed, row: GenerationRow, v: real)
    requires CarbonIntensityFactors(feed).Some? && v >= 0.0
    requires Denominator(ClippedFormula, WithVolume(row, PumpedStorage, 0.0)) > 0.0
    requires Numerator(ClippedFormula, WithVolume(row, PumpedStorage, 0.0), CarbonIntensityFactors(feed).value) >= 0.0
    ensures var m := CarbonIntensityFactors(feed).value;
      && Denominator(ClippedFormula, WithVolume(row, PumpedStorage, v)) > 0.0
      && RowIntensity(ClippedFormula, WithVolume(row, PumpedStorage, v), m)
         <= RowIntensity(ClippedFormula, WithVolume(row, PumpedStorage, 0.0), m)
  {
    TohokuFactors(feed);
    ZeroPumpedStorageNeverRaises(row, CarbonIntensityFactors(feed).value, v);
  }
}
