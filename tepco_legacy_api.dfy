/** The older TEPCO API module (`utilities/tepco/api.py`): its three grouped queries average the
    legacy per-row expression (all nine volumes as stored, over the stored `kWh_total`), and
    each route answers from the module cache or runs its query and stores the nested output. */
module TepcoLegacyApi {
  import opened Wrappers
  import opened Sums
  import opened Generation
  import opened Factors
  import opened Intensity
  import opened Aggregation
  import opened UtilityApi
  import opened LegacyCalculation
  import opened LegacyApi

  /** The per-interval intensities the three queries average. The coefficients come from a
      factor module that is not part of this model, so they are a parameter here. */
  function LegacySamples(factors: FactorMap, intervals: seq<Interval>): (ss: seq<Sample>)
    requires HasAllSources(factors)
    requires forall i :: 0 <= i < |intervals| ==> intervals[i].row.total != 0.0
    ensures |ss| == |intervals|
    ensures forall i :: 0 <= i < |intervals| ==>
      && ss[i].hour == intervals[i].hour && ss[i].month == intervals[i].month
      && ss[i].dayofweek == intervals[i].dayofweek
      && Defined(LegacyFormula, intervals[i].row)
      && ss[i].intensity == RowIntensity(LegacyFormula, intervals[i].row, factors)
  {
    NineCoefficients(factors);
    Samples(LegacyFormula, factors, intervals)
  }

  /** `daily_intensity`, `daily_intensity_by_month` and `daily_intensity_by_month_and_weekday`:
      given the rows the route's query returns over the legacy intensities, the route
      answers from `cache` when its key is there and otherwise stores and returns the
      nested output. */
  method DailyIntensity(cache: ModuleCache, b: Breakdown, factors: FactorMap, intervals: seq<Interval>,
                        rows: seq<Row>)
    returns (reply: Reply, queried: bool)
    requires cache.Valid() && Offered(b) && HasAllSources(factors)
    requires forall i :: 0 <= i < |intervals| ==> intervals[i].row.total != 0.0
    requires Answers(LegacySamples(factors, intervals), Levels(b), rows)
    modifies cache
    ensures cache.Valid()
    ensures CacheKey("tepco", b) in old(cache.entries) ==>
      && reply == old(cache.entries)[CacheKey("tepco", b)] && reply.fromCache
      && !queried && cache.entries == old(cache.entries)
    ensures CacheKey("tepco", b) !in old(cache.entries) ==>
      && MinCols(rows, |Levels(b)|)
      && reply == Reply(UtilityApi.DailyIntensity(b, rows), false) && queried
      && cache.entries == old(cache.entries)[CacheKey("tepco", b) := Reply(UtilityApi.DailyIntensity(b, rows), true)]
  {
    assert MinCols(rows, |Levels(b)|);
    reply, queried := cache.Serve(CacheKey("tepco", b), UtilityApi.DailyIntensity(b, rows));
  }

  /** What a computed reply holds: for every interval, the list under its month (and day of
      week) has one record for its hour, carrying the mean of the legacy intensities of the
      intervals in that group, its own among them; the hours of each list ascend. */
  lemma LegacyRouteGroups(b: Breakdown, factors: FactorMap, intervals: seq<Interval>, rows: seq<Row>, i: nat)
    requires Offered(b) && HasAllSources(factors) && i < |intervals|
    requires forall j :: 0 <= j < |intervals| ==> intervals[j].row.total != 0.0
    requires Answers(LegacySamples(factors, intervals), Levels(b), rows)
    ensures MinCols(rows, |Levels(b)|)
    ensures var samples := LegacySamples(factors, intervals);
      var key := Key(samples[i], Levels(b));
      var group := GroupIntensities(samples, Levels(b), key, intervals[i].hour);
      var rs := Records(Select(rows, key));
      && samples[i].intensity in group
      && Lookup(UtilityApi.DailyIntensity(b, rows).body, key) == Some(Leaf(rs))
      && (forall a, c :: 0 <= a < c < |rs| ==> rs[a].hour < rs[c].hour)
      && exists j :: 0 <= j < |rs| && rs[j].hour == intervals[i].hour && rs[j].intensity == Mean(group)
  {
    var samples := LegacySamples(factors, intervals);
    assert samples[i] in samples;
    BreakdownGroupsOnce(b, samples, rows, samples[i]);
    SampleInOwnGroup(samples, Levels(b), i);
  }

  /** Each route reads its own cache entry: a first request to each route runs its query,
      and a repeated one is answered from the cache. */
  method RouteScenario(factors: FactorMap, intervals: seq<Interval>, hourly: seq<Row>, byMonth: seq<Row>)
    returns (first: Reply, repeated: Reply, repeatedQueried: bool, other: Reply, otherQueried: bool)
    requires HasAllSources(factors)
    requires forall i :: 0 <= i < |intervals| ==> intervals[i].row.total != 0.0
    requires Answers(LegacySamples(factors, intervals), Levels(Hourly), hourly)
    requires Answers(LegacySamples(factors, intervals), Levels(ByMonth), byMonth)
    ensures MinCols(hourly, 0) && MinCols(byMonth, 1)
    ensures first == Reply(UtilityApi.DailyIntensity(Hourly, hourly), false)
    ensures repeated == Reply(UtilityApi.DailyIntensity(Hourly, hourly), true) && !repeatedQueried
    ensures other == Reply(UtilityApi.DailyIntensity(ByMonth, byMonth), false) && otherQueried
  {
    var cache := new ModuleCache();
    var queried;
    first, queried := DailyIntensity(cache, Hourly, factors, intervals, hourly);
    repeated, repeatedQueried := DailyIntensity(cache, Hourly, factors, intervals, hourly);
    CacheKeysDistinct("tepco", Hourly, ByMonth);
    other, otherQueried := DailyIntensity(cache, ByMonth, factors, intervals, byMonth);
  }
}
