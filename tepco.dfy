/** `TepcoAPI`: TEPCO's factors (the station weights of the base class, pumped storage fixed at
    80.07, interconnectors at 500) fed into the clipped expression. */
module Tepco {
  import opened Wrappers
  import opened Generation
  import opened Factors
  import opened Intensity
  import opened UtilityApi

  /** Pumped storage fixed at 80.07, interconnectors at 500. */
  const TepcoPolicy: FactorPolicy := FactorPolicy(StationWeights, Fixed(80.07), 500.0)

  function CarbonIntensityFactors(feed: Feed): Option<FactorMap> {
    Resolve(feed, TepcoPolicy)
  }

  /** TEPCO's resolution reads eight feed entries (not "Pumped Storage") and fails when one is
      missing; fossil is weighted 2 : 11.11 : 27.991 over coal, oil and open-cycle gas,
      pumped storage is 80.07, interconnectors 500 and geothermal 0; the other five are
      copied from the feed. */
  lemma TepcoFactors(feed: Feed)
    ensures CarbonIntensityFactors(feed).Some? <==>
      {"Nuclear", "Coal", "Oil", "Gas (Open Cycle)", "Hydro", "Biomass", "Solar", "Wind"} <= feed.Keys
    ensures CarbonIntensityFactors(feed).Some? ==>
      var m := CarbonIntensityFactors(feed).value;
      && HasAllSources(m)
      && m[Fossil] * 41.101 == 2.0 * feed["Coal"] + 11.11 * feed["Oil"] + 27.991 * feed["Gas (Open Cycle)"]
      && m[PumpedStorage] == 80.07 && m[Interconnectors] == 500.0 && m[Geothermal] == 0.0
      && m[Nuclear] == feed["Nuclear"] && m[Hydro] == feed["Hydro"] && m[Biomass] == feed["Biomass"]
      && m[Solar] == feed["Solar"] && m[Wind] == feed["Wind"]
  {
    StationWeightTotals();
    if RequiredKeys(TepcoPolicy) <= feed.Keys {
      ResolvedFactors(feed, TepcoPolicy);
      ResolvedHasAllSources(CarbonIntensityFactors(feed).value);
    }
  }
}
