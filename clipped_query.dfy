/** The expression shared by the TEPCO, Tohoku, Yonden, Hepco, Cepco and Rikuden queries:
    pumped storage and interconnectors enter as `if(v > 0, v, 0)`, and the divisor is the
    sum of the nine contributions (`*_total_generation`), so numerator and divisor use the
    same clipped values. */
module ClippedQuery {
  import opened Generation
  import opened Factors
  import opened Intensity

  /** Both net flows clipped, divided by the summed contributions, unguarded. */
  const ClippedFormula: Formula := Formula(AllSources, PositiveOnly, PositiveOnly, SumOfContributions, false)

  /** A `config_<utility>` dictionary: the pumped-storage coefficient and the lng/oil/coal
      totals of the utility's thermal plant. */
  datatype UtilityConfig = UtilityConfig(pumpedStorageFactor: real, fuelTypeTotals: FuelWeights)

  /** The clipped expression written out: seven ordinary volumes as stored, pumped storage and
      interconnectors replaced by their positive parts, in the products and in the divisor. */
  lemma ClippedExpression(row: GenerationRow, factors: FactorMap)
    requires HasAllSources(factors)
    ensures var ps := if row.pumpedStorage > 0.0 then row.pumpedStorage else 0.0;
      var ic := if row.interconnectors > 0.0 then row.interconnectors else 0.0;
      && Numerator(ClippedFormula, row, factors)
         == row.nuclear * factors[Nuclear] + row.fossil * factors[Fossil] + row.hydro * factors[Hydro]
          + row.geothermal * factors[Geothermal] + row.biomass * factors[Biomass]
          + row.solar * factors[Solar] + row.wind * factors[Wind]
          + ps * factors[PumpedStorage] + ic * factors[Interconnectors]
      && Denominator(ClippedFormula, row)
         == row.nuclear + row.fossil + row.hydro + row.geothermal + row.biomass + row.solar + row.wind
          + ps + ic
  {
    NineSourceNumerator(ClippedFormula, row, factors);
    NineSourceTotal(ClippedFormula, row);
  }

  /** A negative pumped-storage or interconnector volume gives exactly the intensity of a zero
      one: the clip removes it from the numerator and from the divisor alike. */
  lemma ClippedNegativeFlowsAsZero(row: GenerationRow, factors: FactorMap, s: Source, v: real)
    requires HasAllSources(factors)
    requires (s == PumpedStorage || s == Interconnectors) && v <= 0.0
    requires Denominator(ClippedFormula, WithVolume(row, s, 0.0)) != 0.0
    ensures Denominator(ClippedFormula, WithVolume(row, s, v)) != 0.0
    ensures RowIntensity(ClippedFormula, WithVolume(row, s, v), factors)
         == RowIntensity(ClippedFormula, WithVolume(row, s, 0.0), factors)
  {
    NineCoefficients(factors);
    ClippedNegativeAsZero(ClippedFormula, row, factors, s, v);
  }

  /** Multiplying every volume by the same positive constant leaves the intensity unchanged:
      both sides are linear in the volumes and the clip commutes with positive scaling. */
  lemma ClippedScaleInvariant(row: GenerationRow, factors: FactorMap, c: real)
    requires HasAllSources(factors) && c > 0.0
    requires Denominator(ClippedFormula, row) != 0.0
    ensures Denominator(ClippedFormula, Scaled(row, c)) != 0.0
    ensures RowIntensity(ClippedFormula, Scaled(row, c), factors) == RowIntensity(ClippedFormula, row, factors)
  {
    NineCoefficients(factors);
    ScaleInvariant(ClippedFormula, row, factors, c);
  }

  /** With non-negative ordinary volumes and a positive total, the intensity is a weighted
      mean of the coefficients: it lies between the smallest and the largest of them. */
  lemma ClippedWithinFactorRange(row: GenerationRow, factors: FactorMap, lo: real, hi: real)
    requires HasAllSources(factors)
    requires forall s :: s in factors ==> lo <= factors[s] <= hi
    requires row.nuclear >= 0.0 && row.fossil >= 0.0 && row.hydro >= 0.0 && row.geothermal >= 0.0
    requires row.biomass >= 0.0 && row.solar >= 0.0 && row.wind >= 0.0
    requires Denominator(ClippedFormula, row) > 0.0
    ensures lo <= RowIntensity(ClippedFormula, row, factors) <= hi
  {
    NineCoefficients(factors);
    var f := ClippedFormula;
    forall s | s in f.sources
      ensures SourceContribution(f, row, s) >= 0.0
    {
    }
    IntensityWithinFactorRange(f, row, factors, lo, hi);
  }

  /** With a zero coefficient, pumped-storage output only enlarges the divisor, so it never
      raises a non-negative intensity. */
  lemma ZeroPumpedStorageNeverRaises(row: GenerationRow, factors: FactorMap, v: real)
    requires HasAllSources(factors) && factors[PumpedStorage] == 0.0 && v >= 0.0
    requires Denominator(ClippedFormula, WithVolume(row, PumpedStorage, 0.0)) > 0.0
    requires Numerator(ClippedFormula, WithVolume(row, PumpedStorage, 0.0), factors) >= 0.0
    ensures Denominator(ClippedFormula, WithVolume(row, PumpedStorage, v)) > 0.0
    ensures RowIntensity(ClippedFormula, WithVolume(row, PumpedStorage, v), factors)
         <= RowIntensity(ClippedFormula, WithVolume(row, PumpedStorage, 0.0), factors)
  {
    NineCoefficients(factors);
    ZeroFactorSourceNeverRaises(ClippedFormula, row, factors, PumpedStorage, v);
  }

  // ---------------------------------------------------------------------------------------
  // The per-row form of Hepco, Cepco and Rikuden: a contributions subquery, then one value
  // per row (no `AVG`).

  /** A formula of the clipped shape, guarded or not. */
  predicate ClippedShape(f: Formula) {
    && f.sources == AllSources && f.pumpedStorage == PositiveOnly && f.interconnectors == PositiveOnly
    && f.total == SumOfContributions
  }

  /** The columns `_pumped_storage_calc_query_string` adds to a row. */
  datatype ContributionColumns = ContributionColumns(
    pumpedStorageContribution: real,
    interconnectorContribution: real,
    totalGeneration: real)

  /** `_pumped_storage_calc_query_string` on one row: both net flows clipped at zero, and the
      total generation summed from the seven ordinary volumes and the two contributions. */
  function PumpedStorageCalc(row: GenerationRow): (c: ContributionColumns)
    ensures c.pumpedStorageContribution >= 0.0 && c.interconnectorContribution >= 0.0
    ensures row.pumpedStorage > 0.0 ==> c.pumpedStorageContribution == row.pumpedStorage
    ensures row.interconnectors > 0.0 ==> c.interconnectorContribution == row.interconnectors
  {
    var ps := if row.pumpedStorage > 0.0 then row.pumpedStorage else 0.0;
    var ic := if row.interconnectors > 0.0 then row.interconnectors else 0.0;
    ContributionColumns(ps, ic,
      row.nuclear + row.fossil + row.hydro + row.geothermal + row.biomass + row.solar + row.wind + ps + ic)
  }

  /** The subquery's total generation is exactly the divisor of the clipped expression. */
  lemma CalcTotalIsDivisor(f: Formula, row: GenerationRow)
    requires ClippedShape(f)
    ensures Denominator(f, row) == PumpedStorageCalc(row).totalGeneration
  {
    NineSourceTotal(f, row);
  }

  /** The per-row expression on one row of the subquery. A guarded formula
      (`IF(total > 0, ratio, 0)`) gives 0 when the row's total is not positive and is never a
      division by zero; an unguarded one needs the total to be non-zero. Otherwise the value
      times the row's total generation is the row's numerator. */
  function RowValue(f: Formula, row: GenerationRow, factors: FactorMap): (r: real)
    requires ClippedShape(f) && HasAllSources(factors)
    requires !f.zeroGuard ==> PumpedStorageCalc(row).totalGeneration != 0.0
    ensures Covers(factors, f.sources)
    ensures f.zeroGuard && PumpedStorageCalc(row).totalGeneration <= 0.0 ==> r == 0.0
    ensures !(f.zeroGuard && PumpedStorageCalc(row).totalGeneration <= 0.0) ==>
      r * PumpedStorageCalc(row).totalGeneration == Numerator(f, row, factors)
  {
    NineCoefficients(factors);
    CalcTotalIsDivisor(f, row);
    RowIntensity(f, row, factors)
  }

  /** The per-row expression over every row of the subquery, one value per row. */
  function PerRowIntensities(f: Formula, rows: seq<GenerationRow>, factors: FactorMap): (rs: seq<real>)
    requires ClippedShape(f) && HasAllSources(factors)
    requires !f.zeroGuard ==> forall i :: 0 <= i < |rows| ==> PumpedStorageCalc(rows[i]).totalGeneration != 0.0
    ensures |rs| == |rows|
  {
    seq(|rows|, i requires 0 <= i < |rows| => RowValue(f, rows[i], factors))
  }

  /** What the subquery's rows receive: 0 where a guarded formula's total generation is not
      positive, and elsewhere the value that times the row's total generation gives the row's
      numerator. */
  lemma PerRowValues(f: Formula, rows: seq<GenerationRow>, factors: FactorMap)
    requires ClippedShape(f) && HasAllSources(factors)
    requires !f.zeroGuard ==> forall i :: 0 <= i < |rows| ==> PumpedStorageCalc(rows[i]).totalGeneration != 0.0
    ensures Covers(factors, f.sources)
    ensures var rs := PerRowIntensities(f, rows, factors);
      && |rs| == |rows|
      && forall i :: 0 <= i < |rows| ==>
           (f.zeroGuard && PumpedStorageCalc(rows[i]).totalGeneration <= 0.0 ==> rs[i] == 0.0)
           && (!(f.zeroGuard && PumpedStorageCalc(rows[i]).totalGeneration <= 0.0) ==>
                 rs[i] * PumpedStorageCalc(rows[i]).totalGeneration == Numerator(f, rows[i], factors))
  {
    NineCoefficients(factors);
    forall i | 0 <= i < |rows| {
      PerRowValueAt(f, rows, factors, i);
    }
  }

  lemma PerRowValueAt(f: Formula, rows: seq<GenerationRow>, factors: FactorMap, i: nat)
    requires ClippedShape(f) && HasAllSources(factors) && i < |rows|
    requires !f.zeroGuard ==> forall i :: 0 <= i < |rows| ==> PumpedStorageCalc(rows[i]).totalGeneration != 0.0
    ensures Covers(factors, f.sources)
    ensures var v := PerRowIntensities(f, rows, factors)[i];
      && (f.zeroGuard && PumpedStorageCalc(rows[i]).totalGeneration <= 0.0 ==> v == 0.0)
      && (!(f.zeroGuard && PumpedStorageCalc(rows[i]).totalGeneration <= 0.0) ==>
            v * PumpedStorageCalc(rows[i]).totalGeneration == Numerator(f, rows[i], factors))
  {
    RowValueAt(f, rows[i], factors, PerRowIntensities(f, rows, factors)[i]);
  }

  lemma RowValueAt(f: Formula, row: GenerationRow, factors: FactorMap, v: real)
    requires ClippedShape(f) && HasAllSources(factors)
    requires !f.zeroGuard ==> PumpedStorageCalc(row).totalGeneration != 0.0
    requires v == RowValue(f, row, factors)
    ensures Covers(factors, f.sources)
    ensures f.zeroGuard && PumpedStorageCalc(row).totalGeneration <= 0.0 ==> v == 0.0
    ensures !(f.zeroGuard && PumpedStorageCalc(row).totalGeneration <= 0.0) ==>
      v * PumpedStorageCalc(row).totalGeneration == Numerator(f, row, factors)
  {
  }
}
