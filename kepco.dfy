/** `KepcoAPI`: Kansai's factors (fuel shares lng 37, oil 9, coal 18; pumped storage from the
    feed; interconnectors 850) and its expression, which clips interconnectors only. */
module Kepco {
  import opened Wrappers
  import opened Generation
  import opened Factors
  import opened Intensity
  import opened UtilityApi

  const KepcoWeights: FuelWeights := FuelWeights(37.0, 9.0, 18.0)

  /** Pumped storage copied from the feed, interconnectors fixed at 850. */
  const KepcoPolicy: FactorPolicy := FactorPolicy(KepcoWeights, FromFeed, 850.0)

  function CarbonIntensityFactors(feed: Feed): Option<FactorMap> {
    Resolve(feed, KepcoPolicy)
  }

  /** Kansai's resolution reads nine feed entries, "Pumped Storage" among them, and fails when
      one is missing; fossil is (18 coal + 9 oil + 37 gas) / 64, interconnectors 850,
      geothermal 0; the other six are copied from the feed. */
  lemma KepcoFactors(feed: Feed)
    ensures CarbonIntensityFactors(feed).Some? <==>
      {"Nuclear", "Coal", "Oil", "Gas (Open Cycle)", "Hydro", "Biomass", "Solar", "Wind",
       "Pumped Storage"} <= feed.Keys
    ensures CarbonIntensityFactors(feed).Some? ==>
      var m := CarbonIntensityFactors(feed).value;
      && HasAllSources(m)
      && m[Fossil] * 64.0 == 18.0 * feed["Coal"] + 9.0 * feed["Oil"] + 37.0 * feed["Gas (Open Cycle)"]
      && m[PumpedStorage] == feed["Pumped Storage"] && m[Interconnectors] == 850.0 && m[Geothermal] == 0.0
      && m[Nuclear] == feed["Nuclear"] && m[Hydro] == feed["Hydro"] && m[Biomass] == feed["Biomass"]
      && m[Solar] == feed["Solar"] && m[Wind] == feed["Wind"]
  {
    if RequiredKeys(KepcoPolicy) <= feed.Keys {
      ResolvedFactors(feed, KepcoPolicy);
      ResolvedHasAllSources(CarbonIntensityFactors(feed).value);
    }
  }

  /** Interconnectors clipped, pumped storage as stored, divided by the summed contributions. */
  const KepcoFormula: Formula := Formula(AllSources, Raw, PositiveOnly, SumOfContributions, false)

  /** The Kansai expression written out: pumped storage enters as stored, the interconnector
      flow as its positive part, in the products and in the divisor. */
  lemma KepcoExpression(row: GenerationRow, factors: FactorMap)
    requires HasAllSources(factors)
    ensures var ic := if row.interconnectors > 0.0 then row.interconnectors else 0.0;
      && Numerator(KepcoFormula, row, factors)
         == row.nuclear * factors[Nuclear] + row.fossil * factors[Fossil] + row.hydro * factors[Hydro]
          + row.geothermal * factors[Geothermal] + row.biomass * factors[Biomass]
          + row.solar * factors[Solar] + row.wind * factors[Wind]
          + row.pumpedStorage * factors[PumpedStorage] + ic * factors[Interconnectors]
      && Denominator(KepcoFormula, row)
         == row.nuclear + row.fossil + row.hydro + row.geothermal + row.biomass + row.solar + row.wind
          + row.pumpedStorage + ic
  {
    NineSourceNumerator(KepcoFormula, row, factors);
    NineSourceTotal(KepcoFormula, row);
  }

  /** Pumped storage is not clipped: a volume `v` (negative while pumping) moves the numerator
      by `v` times its coefficient and the divisor by `v` itself, so pumping lowers both. */
  lemma KepcoPumpingLowersBoth(row: GenerationRow, factors: FactorMap, v: real)
    requires HasAllSources(factors)
    ensures Numerator(KepcoFormula, WithVolume(row, PumpedStorage, v), factors)
         == Numerator(KepcoFormula, WithVolume(row, PumpedStorage, 0.0), factors) + v * factors[PumpedStorage]
    ensures Denominator(KepcoFormula, WithVolume(row, PumpedStorage, v))
         == Denominator(KepcoFormula, WithVolume(row, PumpedStorage, 0.0)) + v
  {
    NineCoefficients(factors);
    AllSourcesDistinct();
    assert PumpedStorage in AllSources by { assert AllSources[7] == PumpedStorage; }
    RawVolumeIsLinear(KepcoFormula, row, factors, PumpedStorage, v);
  }

  /** A negative interconnector flow gives exactly the intensity of a zero flow. */
  lemma KepcoNegativeInterconnectorsAsZero(row: GenerationRow, factors: FactorMap, v: real)
    requires HasAllSources(factors) && v <= 0.0
    requires Denominator(KepcoFormula, WithVolume(row, Interconnectors, 0.0)) != 0.0
    ensures Denominator(KepcoFormula, WithVolume(row, Interconnectors, v)) != 0.0
    ensures RowIntensity(KepcoFormula, WithVolume(row, Interconnectors, v), factors)
         == RowIntensity(KepcoFormula, WithVolume(row, Interconnectors, 0.0), factors)
  {
    NineCoefficients(factors);
    ClippedNegativeAsZero(KepcoFormula, row, factors, Interconnectors, v);
  }
}
