/** `YondenAPI`: Yonden's factors (station capacities summed per fuel; pumped storage 8.57;
    interconnectors 500) fed into the clipped expression. */
module Yonden {
  import opened Wrappers
  import opened Generation
  import opened Factors
  import opened Intensity
  import opened UtilityApi

  /** Yonden's thermal stations: LNG, oil and coal capacities summed per fuel. */
  const YondenWeights: FuelWeights :=
    FuelWeights(0.296 + 0.289 + 0.35, 0.45 + 0.45 + 0.45, 0.156 + 0.25 + 0.7)

  /** Pumped storage fixed at 8.57, interconnectors at 500. */
  const YondenPolicy: FactorPolicy := FactorPolicy(YondenWeights, Fixed(8.57), 500.0)

  function CarbonIntensityFactors(feed: Feed): Option<FactorMap> {
    Resolve(feed, YondenPolicy)
  }

  /** Yonden's resolution reads eight feed entries and fails when one is missing; fossil is
      weighted lng 0.935, oil 1.35, coal 1.106; pumped storage is 8.57, interconnectors 500
      and geothermal 0; the other five are copied from the feed. */
  lemma YondenFactors(feed: Feed)
    ensures YondenWeights == FuelWeights(0.935, 1.35, 1.106)
    ensures CarbonIntensityFactors(feed).Some? <==>
      {"Nuclear", "Coal", "Oil", "Gas (Open Cycle)", "Hydro", "Biomass", "Solar", "Wind"} <= feed.Keys
    ensures CarbonIntensityFactors(feed).Some? ==>
      var m := CarbonIntensityFactors(feed).value;
      && HasAllSources(m)
      && m[Fossil] * 3.391 == 1.106 * feed["Coal"] + 1.35 * feed["Oil"] + 0.935 * feed["Gas (Open Cycle)"]
      && m[PumpedStorage] == 8.57 && m[Interconnectors] == 500.0 && m[Geothermal] == 0.0
      && m[Nuclear] == feed["Nuclear"] && m[Hydro] == feed["Hydro"] && m[Biomass] == feed["Biomass"]
      && m[Solar] == feed["Solar"] && m[Wind] == feed["Wind"]
  {
    assert YondenWeights == FuelWeights(0.935, 1.35, 1.106);
    if RequiredKeys(YondenPolicy) <= feed.Keys {
      ResolvedFactors(feed, YondenPolicy);
      ResolvedHasAllSources(CarbonIntensityFactors(feed).value);
    }
  }
}
