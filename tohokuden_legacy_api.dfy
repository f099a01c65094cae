/** The older Tohoku API module (`utilities/tohokuden/api.py`). Its shared query string
    multiplies eight volumes (every source but the interconnectors) by their coefficients and
    divides by area demand plus interconnector inflow, averaged per hour. The three routes
    append their own `GROUP BY`; the month routes group and nest by columns that the shared
    query never selects. */
module TohokudenLegacyApi {
  import opened Wrappers
  import opened Sums
  import opened Generation
  import opened Factors
  import opened Intensity
  import opened Aggregation
  import opened UtilityApi
  import opened LegacyApi

  // ---------------------------------------------------------------------------------------
  // The per-row expression.

  /** The sources the query multiplies: no interconnector term. */
  const EightSources: seq<Source> := [Nuclear, Fossil, Hydro, Geothermal, Biomass, Solar, Wind, PumpedStorage]

  /** Every volume as stored, over `MWh_area_demand + MWh_interconnectors`, unguarded. */
  const OldTohokuFormula: Formula := Formula(EightSources, Raw, Raw, DemandPlusInterconnectors, false)

  lemma EightCovered(factors: FactorMap)
    requires HasAllSources(factors)
    ensures Covers(factors, EightSources)
    ensures Interconnectors !in EightSources
  {
  }

  /** The expression written out: eight volumes times their coefficients, over demand plus
      interconnector inflow. */
  lemma OldTohokuExpression(row: GenerationRow, factors: FactorMap)
    requires HasAllSources(factors)
    ensures Covers(factors, OldTohokuFormula.sources)
    ensures Numerator(OldTohokuFormula, row, factors)
         == row.nuclear * factors[Nuclear] + row.fossil * factors[Fossil] + row.hydro * factors[Hydro]
          + row.geothermal * factors[Geothermal] + row.biomass * factors[Biomass]
          + row.solar * factors[Solar] + row.wind * factors[Wind]
          + row.pumpedStorage * factors[PumpedStorage]
    ensures Denominator(OldTohokuFormula, row) == row.demand + row.interconnectors
  {
    var f := OldTohokuFormula;
    EightCovered(factors);
    var t, y := Terms(f, f.sources, row), Coefficients(f.sources, factors);
    TermsAt(f, f.sources, row);
    assert EightSources[0] == Nuclear && EightSources[1] == Fossil && EightSources[2] == Hydro;
    assert EightSources[3] == Geothermal && EightSources[4] == Biomass && EightSources[5] == Solar;
    assert EightSources[6] == Wind && EightSources[7] == PumpedStorage;
    DotEight(t, y);
  }

  /** The interconnector coefficient is formatted into the query but never used: any value
      gives the same numerator. */
  lemma InterconnectorFactorUnused(row: GenerationRow, factors: FactorMap, x: real)
    requires HasAllSources(factors)
    ensures Covers(factors[Interconnectors := x], OldTohokuFormula.sources)
    ensures Numerator(OldTohokuFormula, row, factors[Interconnectors := x])
         == Numerator(OldTohokuFormula, row, factors)
  {
    EightCovered(factors);
    EightCovered(factors[Interconnectors := x]);
    assert Coefficients(EightSources, factors[Interconnectors := x]) == Coefficients(EightSources, factors);
  }

  /** The interconnector volume enters the divisor only: the numerator does not depend on it. */
  lemma {:induction false} TermsIgnoreInterconnectors(row: GenerationRow, v: real)
    ensures Terms(OldTohokuFormula, EightSources, WithVolume(row, Interconnectors, v))
         == Terms(OldTohokuFormula, EightSources, row)
  {
    var f := OldTohokuFormula;
    TermsAt(f, EightSources, WithVolume(row, Interconnectors, v));
    TermsAt(f, EightSources, row);
    forall i | 0 <= i < |EightSources|
      ensures SourceContribution(f, WithVolume(row, Interconnectors, v), EightSources[i])
           == SourceContribution(f, row, EightSources[i])
    {
      assert EightSources[i] != Interconnectors;
      WithVolumeContribution(f, row, Interconnectors, v, EightSources[i]);
    }
  }

  /** More interconnector inflow never raises the intensity: with a non-negative numerator and
      a positive divisor, raising the inflow from `v0` to `v` only grows the divisor. */
  lemma InflowNeverRaisesIntensity(row: GenerationRow, factors: FactorMap, v0: real, v: real)
    requires HasAllSources(factors)
    requires Numerator(OldTohokuFormula, row, factors) >= 0.0
    requires row.demand + v0 > 0.0 && v >= v0
    ensures Defined(OldTohokuFormula, WithVolume(row, Interconnectors, v0))
    ensures Defined(OldTohokuFormula, WithVolume(row, Interconnectors, v))
    ensures RowIntensity(OldTohokuFormula, WithVolume(row, Interconnectors, v), factors)
         <= RowIntensity(OldTohokuFormula, WithVolume(row, Interconnectors, v0), factors)
  {
    EightCovered(factors);
    TermsIgnoreInterconnectors(row, v);
    TermsIgnoreInterconnectors(row, v0);
    var r, r0 := WithVolume(row, Interconnectors, v), WithVolume(row, Interconnectors, v0);
    assert r.demand == row.demand && r.interconnectors == v;
    assert r0.demand == row.demand && r0.interconnectors == v0;
    RatioShrinks(Numerator(OldTohokuFormula, row, factors), row.demand + v0, row.demand + v);
  }

  // ---------------------------------------------------------------------------------------
  // The routes.

  /** The per-interval intensities the routes average; the coefficients come from a factor
      module that is not part of this model. */
  function TohokuSamples(factors: FactorMap, intervals: seq<Interval>): (ss: seq<Sample>)
    requires HasAllSources(factors)
    requires forall i :: 0 <= i < |intervals| ==> intervals[i].row.demand + intervals[i].row.interconnectors != 0.0
    ensures |ss| == |intervals|
    ensures forall i :: 0 <= i < |intervals| ==>
      && ss[i].hour == intervals[i].hour && ss[i].month == intervals[i].month
      && ss[i].dayofweek == intervals[i].dayofweek
      && Defined(OldTohokuFormula, intervals[i].row)
      && ss[i].intensity == RowIntensity(OldTohokuFormula, intervals[i].row, factors)
  {
    EightCovered(factors);
    Samples(OldTohokuFormula, factors, intervals)
  }

  /** The calendar columns the shared query string selects besides the hour: none. */
  const SelectedAsWritten: seq<Dim> := []

  /** A route can nest its rows only when its query selects every column it groups and nests
      by; otherwise BigQuery rejects the `GROUP BY` (and the frame has no such column for
      `groupby`). */
  predicate Nestable(selected: seq<Dim>, b: Breakdown) {
    forall d :: d in Levels(b) ==> d in selected
  }

  /** As written, only the hourly route can answer. */
  lemma AsWrittenOnlyHourlyNests(b: Breakdown)
    requires Offered(b)
    ensures Nestable(SelectedAsWritten, b) <==> b == Hourly
  {
    if b != Hourly {
      assert Month in Levels(b);
    }
  }

  /** The routes with their queries selecting the columns they group by, as the TEPCO module
      does (`SELECT month, dayofweek, hour, ...`): every route nests, and a first request
      stores its output. */
  method DailyIntensity(cache: ModuleCache, b: Breakdown, factors: FactorMap, intervals: seq<Interval>,
                        rows: seq<Row>)
    returns (reply: Reply, queried: bool)
    requires cache.Valid() && Offered(b) && HasAllSources(factors)
    requires forall i :: 0 <= i < |intervals| ==> intervals[i].row.demand + intervals[i].row.interconnectors != 0.0
    requires Answers(TohokuSamples(factors, intervals), Levels(b), rows)
    modifies cache
    ensures cache.Valid() && Nestable(Levels(b), b)
    ensures CacheKey("tohokuden", b) in old(cache.entries) ==>
      && reply == old(cache.entries)[CacheKey("tohokuden", b)] && reply.fromCache
      && !queried && cache.entries == old(cache.entries)
    ensures CacheKey("tohokuden", b) !in old(cache.entries) ==>
      && MinCols(rows, |Levels(b)|)
      && reply == Reply(UtilityApi.DailyIntensity(b, rows), false) && queried
      && cache.entries == old(cache.entries)[CacheKey("tohokuden", b) := Reply(UtilityApi.DailyIntensity(b, rows), true)]
  {
    assert MinCols(rows, |Levels(b)|);
    reply, queried := cache.Serve(CacheKey("tohokuden", b), UtilityApi.DailyIntensity(b, rows));
  }

  /** The routes as written: the cache is checked first; a month route then runs a query that
      fails, so it raises (`None` here) and stores nothing; the hourly route behaves as above. */
  method DailyIntensityAsWritten(cache: ModuleCache, b: Breakdown, factors: FactorMap, intervals: seq<Interval>,
                                 rows: seq<Row>)
    returns (reply: Option<Reply>, queried: bool)
    requires cache.Valid() && Offered(b) && HasAllSources(factors)
    requires forall i :: 0 <= i < |intervals| ==> intervals[i].row.demand + intervals[i].row.interconnectors != 0.0
    requires Answers(TohokuSamples(factors, intervals), Levels(b), rows)
    modifies cache
    ensures cache.Valid()
    ensures CacheKey("tohokuden", b) in old(cache.entries) ==>
      reply == Some(old(cache.entries)[CacheKey("tohokuden", b)]) && !queried && cache.entries == old(cache.entries)
    ensures CacheKey("tohokuden", b) !in old(cache.entries) && b != Hourly ==>
      reply == None && queried && cache.entries == old(cache.entries)
    ensures CacheKey("tohokuden", b) !in old(cache.entries) && b == Hourly ==>
      && reply == Some(Reply(UtilityApi.DailyIntensity(b, rows), false)) && queried
      && cache.entries == old(cache.entries)[CacheKey("tohokuden", b) := Reply(UtilityApi.DailyIntensity(b, rows), true)]
  {
    AsWrittenOnlyHourlyNests(b);
    if CacheKey("tohokuden", b) in cache.entries {
      reply, queried := Some(cache.entries[CacheKey("tohokuden", b)]), false;
    } else if !Nestable(SelectedAsWritten, b) {
      reply, queried := None, true;
    } else {
      var r;
      r, queried := DailyIntensity(cache, b, factors, intervals, rows);
      reply := Some(r);
    }
  }

  /** As written, the month route never answers: a first request fails, stores nothing, and
      the next one runs the failing query again. */
  method MonthRouteAsWrittenScenario(factors: FactorMap, intervals: seq<Interval>, rows: seq<Row>)
    returns (first: Option<Reply>, second: Option<Reply>, secondQueried: bool)
    requires HasAllSources(factors)
    requires forall i :: 0 <= i < |intervals| ==> intervals[i].row.demand + intervals[i].row.interconnectors != 0.0
    requires Answers(TohokuSamples(factors, intervals), Levels(ByMonth), rows)
    ensures first == None && second == None && secondQueried
  {
    var cache := new ModuleCache();
    var queried;
    first, queried := DailyIntensityAsWritten(cache, ByMonth, factors, intervals, rows);
    second, secondQueried := DailyIntensityAsWritten(cache, ByMonth, factors, intervals, rows);
  }

  /** With the columns selected, the month route answers and its list under a month holds one
      record per hour with the mean of the Tohoku intensities of that month's intervals at
      that hour, each interval's own intensity among them. */
  lemma CorrectedMonthRouteGroups(factors: FactorMap, intervals: seq<Interval>, rows: seq<Row>, i: nat)
    requires HasAllSources(factors) && i < |intervals|
    requires forall j :: 0 <= j < |intervals| ==> intervals[j].row.demand + intervals[j].row.interconnectors != 0.0
    requires Answers(TohokuSamples(factors, intervals), Levels(ByMonth), rows)
    ensures Nestable(Levels(ByMonth), ByMonth) && MinCols(rows, 1)
    ensures var samples := TohokuSamples(factors, intervals);
      var group := GroupIntensities(samples, [Month], [intervals[i].month], intervals[i].hour);
      var rs := Records(Select(rows, [intervals[i].month]));
      && RowIntensity(OldTohokuFormula, intervals[i].row, factors) in group
      && Lookup(UtilityApi.DailyIntensity(ByMonth, rows).body, [intervals[i].month]) == Some(Leaf(rs))
      && (forall a, c :: 0 <= a < c < |rs| ==> rs[a].hour < rs[c].hour)
      && exists j :: 0 <= j < |rs| && rs[j].hour == intervals[i].hour && rs[j].intensity == Mean(group)
  {
    var samples := TohokuSamples(factors, intervals);
    assert samples[i] in samples;
    assert Key(samples[i], [Month]) == [intervals[i].month];
    BreakdownGroupsOnce(ByMonth, samples, rows, samples[i]);
    SampleInOwnGroup(samples, [Month], i);
  }
}
