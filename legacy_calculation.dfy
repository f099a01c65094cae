/** The pandas-era calculation shared by the TEPCO scraper and the two analysis scripts: a
    factor map with the TEPCO station weights and interconnectors at 850, and a per-row
    `carbonCalculation` that multiplies the nine stored volumes by their coefficients, with
    no clipping, and divides by the stored `kWh_total`. The Kansai analysis reads its columns
    with a suffix (`kWh_nuclear_x`, ...), and adds the result to every row of a frame. */
module LegacyCalculation {
  import opened Wrappers
  import opened Generation
  import opened Factors
  import opened Intensity
  import opened UtilityApi

  /** Pumped storage copied from the feed, interconnectors fixed at 850. */
  const LegacyPolicy: FactorPolicy := FactorPolicy(StationWeights, FromFeed, 850.0)

  /** `getCarbonIntensityFactors` (and the analysis script's `addCarbonIntensityFactors`). */
  function LegacyCarbonIntensityFactors(feed: Feed): Option<FactorMap> {
    StationWeightTotals();
    Resolve(feed, LegacyPolicy)
  }

  /** The legacy factor map reads the same nine feed entries as the base class and fails when
      one is missing; fossil is the TEPCO weighted mean (2 coal, 11.11 oil, 27.991 gas over
      41.101), geothermal 0, interconnectors 850, and the other six come from the feed. */
  lemma LegacyFactors(feed: Feed)
    ensures LegacyCarbonIntensityFactors(feed).Some? <==>
      {"Nuclear", "Coal", "Oil", "Gas (Open Cycle)", "Hydro", "Biomass", "Solar", "Wind",
       "Pumped Storage"} <= feed.Keys
    ensures LegacyCarbonIntensityFactors(feed).Some? ==>
      var m := LegacyCarbonIntensityFactors(feed).value;
      && HasAllSources(m)
      && m[Fossil] * 41.101 == 2.0 * feed["Coal"] + 11.11 * feed["Oil"] + 27.991 * feed["Gas (Open Cycle)"]
      && m[Geothermal] == 0.0 && m[Interconnectors] == 850.0
      && m[Nuclear] == feed["Nuclear"] && m[Hydro] == feed["Hydro"] && m[Biomass] == feed["Biomass"]
      && m[Solar] == feed["Solar"] && m[Wind] == feed["Wind"]
      && m[PumpedStorage] == feed["Pumped Storage"]
  {
    StationWeightTotals();
    if RequiredKeys(LegacyPolicy) <= feed.Keys {
      ResolvedFactors(feed, LegacyPolicy);
      ResolvedHasAllSources(LegacyCarbonIntensityFactors(feed).value);
    }
  }

  /** A resolved legacy map has a coefficient for every source. */
  lemma LegacyFactorsComplete(feed: Feed)
    requires LegacyCarbonIntensityFactors(feed).Some?
    ensures HasAllSources(LegacyCarbonIntensityFactors(feed).value)
  {
    ResolvedHasAllSources(LegacyCarbonIntensityFactors(feed).value);
  }

  /** The legacy map is the base class's map with the interconnector coefficient raised from
      500 to 850; both succeed on the same feeds. */
  lemma LegacyIsBaseWithInterconnectorsAt850(feed: Feed)
    ensures LegacyCarbonIntensityFactors(feed).Some? <==> UtilityApi.CarbonIntensityFactors(feed).Some?
    ensures LegacyCarbonIntensityFactors(feed).Some? ==>
      LegacyCarbonIntensityFactors(feed).value == UtilityApi.CarbonIntensityFactors(feed).value[Interconnectors := 850.0]
  {
    StationWeightTotals();
  }

  /** No clipping, and the stored `kWh_total` as divisor. */
  const LegacyFormula: Formula := Formula(AllSources, Raw, Raw, StoredTotal, false)

  /** The legacy expression written out: all nine volumes as stored, over the stored total. */
  lemma LegacyExpression(row: GenerationRow, factors: FactorMap)
    requires HasAllSources(factors)
    ensures Numerator(LegacyFormula, row, factors)
         == row.nuclear * factors[Nuclear] + row.fossil * factors[Fossil] + row.hydro * factors[Hydro]
          + row.geothermal * factors[Geothermal] + row.biomass * factors[Biomass]
          + row.solar * factors[Solar] + row.wind * factors[Wind]
          + row.pumpedStorage * factors[PumpedStorage] + row.interconnectors * factors[Interconnectors]
    ensures Denominator(LegacyFormula, row) == row.total
  {
    NineSourceNumerator(LegacyFormula, row, factors);
  }

  /** Unlike the clipped queries, an interconnector flow of `v` (negative when exporting)
      moves the numerator by `v` times the coefficient while the stored total stays, so with
      a positive coefficient and total an export lowers the intensity. */
  lemma LegacyExportLowersIntensity(row: GenerationRow, factors: FactorMap, v: real)
    requires HasAllSources(factors)
    ensures Numerator(LegacyFormula, WithVolume(row, Interconnectors, v), factors)
         == Numerator(LegacyFormula, WithVolume(row, Interconnectors, 0.0), factors) + v * factors[Interconnectors]
    ensures v < 0.0 && factors[Interconnectors] > 0.0 && row.total > 0.0 ==>
      RowIntensity(LegacyFormula, WithVolume(row, Interconnectors, v), factors)
      < RowIntensity(LegacyFormula, WithVolume(row, Interconnectors, 0.0), factors)
  {
    NineCoefficients(factors);
    AllSourcesDistinct();
    assert Interconnectors in AllSources by { assert AllSources[8] == Interconnectors; }
    RawVolumeIsLinear(LegacyFormula, row, factors, Interconnectors, v);
    WithVolumeVolume(row, Interconnectors, v, Nuclear);
    WithVolumeVolume(row, Interconnectors, 0.0, Nuclear);
    if v < 0.0 && factors[Interconnectors] > 0.0 && row.total > 0.0 {
      var n0 := Numerator(LegacyFormula, WithVolume(row, Interconnectors, 0.0), factors);
      var d := v * factors[Interconnectors];
      assert d < 0.0 by { NegativeTimesPositive(v, factors[Interconnectors]); }
      SmallerNumerator(n0 + d, n0, row.total);
    }
  }

  lemma NegativeTimesPositive(a: real, b: real)
    requires a < 0.0 && b > 0.0
    ensures a * b < 0.0
  {
  }

  lemma SmallerNumerator(n1: real, n0: real, t: real)
    requires n1 < n0 && t > 0.0
    ensures n1 / t < n0 / t
  {
  }

  /** Multiplying the nine volumes and `kWh_total` by the same positive constant leaves the
      result unchanged. */
  lemma LegacyScaleInvariant(row: GenerationRow, factors: FactorMap, c: real)
    requires HasAllSources(factors) && c > 0.0 && row.total != 0.0
    ensures Scaled(row, c).total != 0.0
    ensures RowIntensity(LegacyFormula, Scaled(row, c), factors) == RowIntensity(LegacyFormula, row, factors)
  {
    NineCoefficients(factors);
    ScaleInvariant(LegacyFormula, row, factors, c);
  }

  // ---------------------------------------------------------------------------------------
  // Frames: rows as column-name maps, read with a column suffix.

  /** One row of a pandas frame: column name to value. */
  type FrameRow = map<string, real>

  /** The column each source is read from. */
  function ColumnName(s: Source): string {
    match s
    case Nuclear => "kWh_nuclear"
    case Fossil => "kWh_fossil"
    case Hydro => "kWh_hydro"
    case Geothermal => "kWh_geothermal"
    case Biomass => "kWh_biomass"
    case Solar => "kWh_solar_output"
    case Wind => "kWh_wind_output"
    case PumpedStorage => "kWh_pumped_storage"
    case Interconnectors => "kWh_interconnectors"
  }

  const TotalColumn := "kWh_total"

  /** The column the result is written to. */
  const IntensityColumn := "carbon_intensity"

  /** The ten columns the calculation reads, with the suffix appended. */
  function ReadColumns(suffix: string): set<string> {
    {ColumnName(Nuclear) + suffix, ColumnName(Fossil) + suffix, ColumnName(Hydro) + suffix,
     ColumnName(Geothermal) + suffix, ColumnName(Biomass) + suffix, ColumnName(Solar) + suffix,
     ColumnName(Wind) + suffix, ColumnName(PumpedStorage) + suffix, ColumnName(Interconnectors) + suffix,
     TotalColumn + suffix}
  }

  /** The volumes of a frame row, read from the suffixed columns; `None` when one of them is
      missing (the source's `KeyError`). The calculation does not read demand; the model sets
      it to 0. */
  function ReadRow(row: FrameRow, suffix: string): (r: Option<GenerationRow>)
    ensures r.Some? <==> ReadColumns(suffix) <= row.Keys
    ensures r.Some? ==> r.value.total == row[TotalColumn + suffix]
  {
    if ReadColumns(suffix) <= row.Keys then
      Some(GenerationRow(
        row[ColumnName(Nuclear) + suffix], row[ColumnName(Fossil) + suffix], row[ColumnName(Hydro) + suffix],
        row[ColumnName(Geothermal) + suffix], row[ColumnName(Biomass) + suffix], row[ColumnName(Solar) + suffix],
        row[ColumnName(Wind) + suffix], row[ColumnName(PumpedStorage) + suffix],
        row[ColumnName(Interconnectors) + suffix], row[TotalColumn + suffix], 0.0))
    else None
  }

  /** The calculation depends on the ten suffixed columns only: two rows that agree on them
      are read alike, whatever their other columns hold. */
  lemma ReadsOnlySuffixedColumns(row1: FrameRow, row2: FrameRow, suffix: string)
    requires forall c :: c in ReadColumns(suffix) ==> (c in row1 <==> c in row2)
    requires forall c :: c in ReadColumns(suffix) && c in row1 ==> row1[c] == row2[c]
    ensures ReadRow(row1, suffix) == ReadRow(row2, suffix)
  {
  }

  /** A row whose result the calculation can produce: all ten columns present and a non-zero
      stored total. */
  predicate Computable(row: FrameRow, suffix: string) {
    ReadColumns(suffix) <= row.Keys && row[TotalColumn + suffix] != 0.0
  }

  /** `carbonCalculation(row, carbonIntensity, suffix)`: the legacy expression on the
      suffixed columns; `None` when one of them is missing. */
  function CarbonCalculation(row: FrameRow, factors: FactorMap, suffix: string): (r: Option<real>)
    requires HasAllSources(factors)
    requires ReadColumns(suffix) <= row.Keys ==> row[TotalColumn + suffix] != 0.0
    ensures r.Some? <==> ReadColumns(suffix) <= row.Keys
  {
    match ReadRow(row, suffix)
    case None => None
    case Some(g) => Some(RowIntensity(LegacyFormula, g, factors))
  }

  /** What the calculation computes: its value times the row's stored total is the sum of the
      nine suffixed volumes times their coefficients, none of them clipped. */
  lemma CarbonCalculationExpression(row: FrameRow, factors: FactorMap, suffix: string)
    requires HasAllSources(factors) && Computable(row, suffix)
    ensures CarbonCalculation(row, factors, suffix).Some?
    ensures CarbonCalculation(row, factors, suffix).value * row[TotalColumn + suffix]
      == row[ColumnName(Nuclear) + suffix] * factors[Nuclear] + row[ColumnName(Fossil) + suffix] * factors[Fossil]
       + row[ColumnName(Hydro) + suffix] * factors[Hydro] + row[ColumnName(Geothermal) + suffix] * factors[Geothermal]
       + row[ColumnName(Biomass) + suffix] * factors[Biomass] + row[ColumnName(Solar) + suffix] * factors[Solar]
       + row[ColumnName(Wind) + suffix] * factors[Wind]
       + row[ColumnName(PumpedStorage) + suffix] * factors[PumpedStorage]
       + row[ColumnName(Interconnectors) + suffix] * factors[Interconnectors]
  {
    var g := ReadRow(row, suffix).value;
    NineCoefficients(factors);
    LegacyExpression(g, factors);
  }

  /** With an empty suffix the calculation reads the plain `kWh_*` columns, as the scraper's
      and the TEPCO analysis script's unsuffixed `carbonCalculation` does. */
  lemma EmptySuffixReadsPlainColumns()
    ensures ReadColumns("") == {"kWh_nuclear", "kWh_fossil", "kWh_hydro", "kWh_geothermal", "kWh_biomass",
                                "kWh_solar_output", "kWh_wind_output", "kWh_pumped_storage",
                                "kWh_interconnectors", "kWh_total"}
  {
    assert forall t: string :: t + "" == t;
  }

  /** A row with its `carbon_intensity` column set: that column holds the row's result and
      every other column is kept. */
  function WithIntensity(row: FrameRow, factors: FactorMap, suffix: string): (r: FrameRow)
    requires HasAllSources(factors) && Computable(row, suffix)
    ensures r.Keys == row.Keys + {IntensityColumn}
    ensures Some(r[IntensityColumn]) == CarbonCalculation(row, factors, suffix)
    ensures forall c :: c in row && c != IntensityColumn ==> r[c] == row[c]
  {
    row[IntensityColumn := CarbonCalculation(row, factors, suffix).value]
  }

  /** A pandas frame to which a `carbon_intensity` column is added in place. */
  class Frame {
    var rows: seq<FrameRow>

    constructor(rows: seq<FrameRow>)
      ensures this.rows == rows
    {
      this.rows := rows;
    }

    /** `addCarbonIntensityFactors(df, row_suffix)`: resolves the factors once, then applies
        the calculation with that one map; a missing feed entry leaves the frame as it was. */
    method AddCarbonIntensity(feed: Feed, suffix: string) returns (ok: bool)
      requires forall i :: 0 <= i < |rows| && ReadColumns(suffix) <= rows[i].Keys ==> Computable(rows[i], suffix)
      modifies this
      ensures ok <==> (LegacyCarbonIntensityFactors(feed).Some?
        && forall i :: 0 <= i < |old(rows)| ==> ReadColumns(suffix) <= old(rows)[i].Keys)
      ensures !ok ==> rows == old(rows)
      ensures ok ==>
        var factors := LegacyCarbonIntensityFactors(feed).value;
        && HasAllSources(factors)
        && |rows| == |old(rows)|
        && forall i :: 0 <= i < |rows| ==>
             Computable(old(rows)[i], suffix) && rows[i] == WithIntensity(old(rows)[i], factors, suffix)
    {
      var resolved := LegacyCarbonIntensityFactors(feed);
      if resolved.None? {
        return false;
      }
      LegacyFactorsComplete(feed);
      ok := ApplyCalculation(resolved.value, suffix);
    }

    /** `df["carbon_intensity"] = df.apply(lambda row: carbonCalculation(...), axis=1)`:
        computes every row's value, and only then assigns the column, so a row missing a
        column leaves the frame as it was. Every row receives exactly one value. */
    method ApplyCalculation(factors: FactorMap, suffix: string) returns (ok: bool)
      requires HasAllSources(factors)
      requires forall i :: 0 <= i < |rows| && ReadColumns(suffix) <= rows[i].Keys ==> Computable(rows[i], suffix)
      modifies this
      ensures ok <==> (forall i :: 0 <= i < |old(rows)| ==> ReadColumns(suffix) <= old(rows)[i].Keys)
      ensures !ok ==> rows == old(rows)
      ensures ok ==>
        && |rows| == |old(rows)|
        && forall i :: 0 <= i < |rows| ==>
             Computable(old(rows)[i], suffix) && rows[i] == WithIntensity(old(rows)[i], factors, suffix)
    {
      var source := rows;
      var computed: seq<FrameRow> := [];
      var i := 0;
      while i < |source|
        invariant 0 <= i <= |source|
        invariant |computed| == i
        invariant forall j :: 0 <= j < i ==>
          Computable(source[j], suffix) && computed[j] == WithIntensity(source[j], factors, suffix)
      {
        if !(ReadColumns(suffix) <= source[i].Keys) {
          assert !(ReadColumns(suffix) <= old(rows)[i].Keys);
          return false;
        }
        assert Computable(source[i], suffix);
        computed := computed + [WithIntensity(source[i], factors, suffix)];
        i := i + 1;
      }
      rows := computed;
      ok := true;
    }
  }
}
