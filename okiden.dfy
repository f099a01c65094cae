/** `OkidenAPI`: Okinawa reports no nuclear, pumped storage or interconnectors. Its factors
    come from a local table (no feed is fetched) and its expression lists five sources,
    none clipped, divided by their plain sum. */
module Okiden {
  import opened Generation
  import opened Factors
  import opened Intensity
  import opened Sums

  /** Fuel shares lng 21, oil 13, coal 61. */
  const OkidenWeights: FuelWeights := FuelWeights(21.0, 13.0, 61.0)

  /** The local baseline table ("For Japan" factors, biomass from the UK feed). */
  const OkidenTable: Feed := map[
    "Nuclear" := 19.0, "Hydro" := 11.0, "Wind" := 26.0, "Solar" := 38.0,
    "Gas (Open Cycle)" := 599.0, "Gas (Combined Cycle)" := 474.0, "Oil" := 738.0,
    "Coal" := 943.0, "Geothermal" := 13.0, "Biomass" := 120.0]

  /** `get_carbon_intensity_factors`: six coefficients, none for nuclear, pumped storage or
      interconnectors. */
  function CarbonIntensityFactors(): (m: FactorMap)
    ensures m.Keys == {Fossil, Hydro, Geothermal, Biomass, Solar, Wind}
  {
    map[
      Fossil := FossilFactor(OkidenTable["Coal"], OkidenTable["Oil"], OkidenTable["Gas (Open Cycle)"], OkidenWeights),
      Hydro := OkidenTable["Hydro"],
      Geothermal := OkidenTable["Geothermal"],
      Biomass := OkidenTable["Biomass"],
      Solar := OkidenTable["Solar"],
      Wind := OkidenTable["Wind"]]
  }

  /** Fossil is (61 * 943 + 13 * 738 + 21 * 599) / 95 = 79696 / 95; hydro 11, geothermal 13,
      biomass 120, solar 38, wind 26; and no coefficient at all for nuclear, pumped storage or
      interconnectors. */
  lemma OkidenFactorValues()
    ensures var m := CarbonIntensityFactors();
      && m[Fossil] == 79696.0 / 95.0
      && m[Hydro] == 11.0 && m[Geothermal] == 13.0 && m[Biomass] == 120.0
      && m[Solar] == 38.0 && m[Wind] == 26.0
      && Nuclear !in m && PumpedStorage !in m && Interconnectors !in m
  {
    var m := CarbonIntensityFactors();
    assert OkidenTable["Coal"] == 943.0 && OkidenTable["Oil"] == 738.0 && OkidenTable["Gas (Open Cycle)"] == 599.0;
    assert m[Fossil] == (943.0 * 61.0 + 738.0 * 13.0 + 599.0 * 21.0) / 95.0;
  }

  /** The five sources of the Okinawa expression. */
  const OkidenSources: seq<Source> := [Fossil, Hydro, Biomass, Solar, Wind]

  /** Five sources, nothing clipped, divided by their sum, unguarded. */
  const OkidenFormula: Formula := Formula(OkidenSources, Raw, Raw, SumOfContributions, false)

  /** The terms and coefficients of the Okinawa expression, position by position. */
  lemma OkidenTerms(row: GenerationRow)
    ensures Covers(CarbonIntensityFactors(), OkidenSources)
    ensures var t := Terms(OkidenFormula, OkidenSources, row);
      |t| == 5 && t[0] == row.fossil && t[1] == row.hydro && t[2] == row.biomass
      && t[3] == row.solar && t[4] == row.wind
    ensures var y := Coefficients(OkidenSources, CarbonIntensityFactors());
      |y| == 5 && y[0] == 79696.0 / 95.0 && y[1] == 11.0 && y[2] == 120.0 && y[3] == 38.0 && y[4] == 26.0
  {
    OkidenFactorValues();
    TermsAt(OkidenFormula, OkidenSources, row);
  }

  /** The Okinawa expression written out: fossil, hydro, biomass, solar and wind volumes times
      their coefficients, over the sum of the same five volumes. */
  lemma OkidenExpression(row: GenerationRow)
    ensures Covers(CarbonIntensityFactors(), OkidenFormula.sources)
    ensures Numerator(OkidenFormula, row, CarbonIntensityFactors())
         == row.fossil * (79696.0 / 95.0) + row.hydro * 11.0 + row.biomass * 120.0
          + row.solar * 38.0 + row.wind * 26.0
    ensures Denominator(OkidenFormula, row) == row.fossil + row.hydro + row.biomass + row.solar + row.wind
  {
    OkidenTerms(row);
    var t := Terms(OkidenFormula, OkidenSources, row);
    DotFive(t, Coefficients(OkidenSources, CarbonIntensityFactors()));
    SumFive(t);
  }

  /** Nuclear, geothermal, pumped storage, interconnectors and the stored totals play no
      part: two rows that agree on the five listed volumes have the same intensity. */
  lemma OkidenIgnoresOtherColumns(row1: GenerationRow, row2: GenerationRow)
    requires row1.fossil == row2.fossil && row1.hydro == row2.hydro && row1.biomass == row2.biomass
    requires row1.solar == row2.solar && row1.wind == row2.wind
    requires Denominator(OkidenFormula, row1) != 0.0
    ensures Covers(CarbonIntensityFactors(), OkidenFormula.sources)
    ensures Denominator(OkidenFormula, row2) != 0.0
    ensures RowIntensity(OkidenFormula, row1, CarbonIntensityFactors())
         == RowIntensity(OkidenFormula, row2, CarbonIntensityFactors())
  {
    OkidenExpression(row1);
    OkidenExpression(row2);
  }

  /** With non-negative volumes and a positive total, the Okinawa intensity lies between the
      hydro coefficient (11) and the fossil one (79696 / 95). */
  lemma OkidenWithinFactorRange(row: GenerationRow)
    requires row.fossil >= 0.0 && row.hydro >= 0.0 && row.biomass >= 0.0 && row.solar >= 0.0 && row.wind >= 0.0
    requires Denominator(OkidenFormula, row) > 0.0
    ensures Covers(CarbonIntensityFactors(), OkidenFormula.sources)
    ensures 11.0 <= RowIntensity(OkidenFormula, row, CarbonIntensityFactors()) <= 79696.0 / 95.0
  {
    OkidenCoefficientRange();
    OkidenContributionsNonNegative(row);
    IntensityWithinFactorRange(OkidenFormula, row, CarbonIntensityFactors(), 11.0, 79696.0 / 95.0);
  }

  /** Nothing is clipped, so non-negative volumes give non-negative contributions. */
  lemma OkidenContributionsNonNegative(row: GenerationRow)
    requires row.fossil >= 0.0 && row.hydro >= 0.0 && row.biomass >= 0.0 && row.solar >= 0.0 && row.wind >= 0.0
    ensures forall s :: s in OkidenSources ==> SourceContribution(OkidenFormula, row, s) >= 0.0
  {
    forall s | s in OkidenSources
      ensures SourceContribution(OkidenFormula, row, s) >= 0.0
    {
      assert s == Fossil || s == Hydro || s == Biomass || s == Solar || s == Wind;
    }
  }

  /** Every listed coefficient lies between hydro's and fossil's. */
  lemma OkidenCoefficientRange()
    ensures forall s :: s in OkidenSources ==>
      s in CarbonIntensityFactors() && 11.0 <= CarbonIntensityFactors()[s] <= 79696.0 / 95.0
  {
    OkidenFactorValues();
  }
}
