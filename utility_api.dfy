/** The base utility API: TEPCO-weighted factor resolution from the baseline feed, the base
    per-row expression (only interconnectors clipped, divided by the stored total), the
    grouped `daily_intensity*` queries and their nested outputs. */
module UtilityApi {
  import opened Wrappers
  import opened Generation
  import opened Factors
  import opened Intensity
  import opened Aggregation
  import opened Sums

  // ---------------------------------------------------------------------------------------
  // Factors.

  /** TEPCO's thermal stations: LNG plant capacities summed, oil plant capacities summed,
      and the coal capacity. */
  const StationWeights: FuelWeights :=
    FuelWeights(4.38 + 3.6 + 3.6 + 5.16 + 3.42 + 3.541 + 1.15 + 2.0 + 1.14, 5.66 + 1.05 + 4.40, 2.0)

  lemma StationWeightTotals()
    ensures StationWeights == FuelWeights(27.991, 11.11, 2.0)
    ensures ValidWeights(StationWeights)
  {
  }

  /** Pumped storage copied from the feed, interconnectors fixed at 500. */
  const BasePolicy: FactorPolicy := FactorPolicy(StationWeights, FromFeed, 500.0)

  /** `get_carbon_intensity_factors`: the coefficients resolved from one feed record. */
  function CarbonIntensityFactors(feed: Feed): Option<FactorMap> {
    Resolve(feed, BasePolicy)
  }

  /** The base resolution reads nine feed entries and fails when one is missing. It copies
      nuclear, hydro, biomass, solar, wind and pumped storage, sets geothermal to 0 and
      interconnectors to 500, and averages coal, oil and open-cycle gas with weights
      2 : 11.11 : 27.991. */
  lemma BaseFactors(feed: Feed)
    ensures CarbonIntensityFactors(feed).Some? <==>
      {"Nuclear", "Coal", "Oil", "Gas (Open Cycle)", "Hydro", "Biomass", "Solar", "Wind",
       "Pumped Storage"} <= feed.Keys
    ensures CarbonIntensityFactors(feed).Some? ==>
      var m := CarbonIntensityFactors(feed).value;
      && HasAllSources(m)
      && m[Fossil] * 41.101 == 2.0 * feed["Coal"] + 11.11 * feed["Oil"] + 27.991 * feed["Gas (Open Cycle)"]
      && m[Geothermal] == 0.0 && m[Interconnectors] == 500.0
      && m[Nuclear] == feed["Nuclear"] && m[Hydro] == feed["Hydro"] && m[Biomass] == feed["Biomass"]
      && m[Solar] == feed["Solar"] && m[Wind] == feed["Wind"]
      && m[PumpedStorage] == feed["Pumped Storage"]
  {
    StationWeightTotals();
    if RequiredKeys(BasePolicy) <= feed.Keys {
      ResolvedFactors(feed, BasePolicy);
      var m := CarbonIntensityFactors(feed).value;
      assert m.Keys == AllSourceSet;
      ResolvedHasAllSources(m);
    }
  }

  /** A resolved map has a coefficient for every source. */
  lemma ResolvedHasAllSources(m: FactorMap)
    requires m.Keys == AllSourceSet
    ensures HasAllSources(m)
  {
    assert Nuclear in AllSources && Fossil in AllSources && Hydro in AllSources;
    assert Geothermal in AllSources && Biomass in AllSources && Solar in AllSources;
    assert Wind in AllSources && PumpedStorage in AllSources && Interconnectors in AllSources;
  }

  /** The baseline record used by the unit test of `get_carbon_intensity_factors`. */
  const TestFeed: Feed := map[
    "Biomass" := 120.0, "Coal" := 937.0, "Dutch Imports" := 474.0, "French Imports" := 53.0,
    "Gas (Combined Cycle)" := 394.0, "Gas (Open Cycle)" := 651.0, "Hydro" := 0.0,
    "Irish Imports" := 458.0, "Nuclear" := 0.0, "Oil" := 935.0, "Other" := 300.0,
    "Pumped Storage" := 0.0, "Solar" := 0.0, "Wind" := 0.0]

  /** On the test record: fossil is 30483.991 / 41.101 (about 741.685), biomass 120,
      interconnectors 500 and every other coefficient 0. */
  lemma TestFeedFactors()
    ensures CarbonIntensityFactors(TestFeed).Some?
    ensures var m := CarbonIntensityFactors(TestFeed).value;
      && m[Fossil] == 30483.991 / 41.101
      && 741.684 < m[Fossil] < 741.685
      && m[Biomass] == 120.0 && m[Interconnectors] == 500.0
      && m[Nuclear] == 0.0 && m[Hydro] == 0.0 && m[Geothermal] == 0.0 && m[Solar] == 0.0
      && m[Wind] == 0.0 && m[PumpedStorage] == 0.0
  {
    TestFeedLookups();
    BaseFactors(TestFeed);
    var m := CarbonIntensityFactors(TestFeed).value;
    assert m[Fossil] * 41.101 == 30483.991;
  }

  lemma TestFeedLookups()
    ensures {"Nuclear", "Coal", "Oil", "Gas (Open Cycle)", "Hydro", "Biomass", "Solar", "Wind",
             "Pumped Storage"} <= TestFeed.Keys
    ensures TestFeed["Coal"] == 937.0 && TestFeed["Oil"] == 935.0 && TestFeed["Gas (Open Cycle)"] == 651.0
    ensures TestFeed["Nuclear"] == 0.0 && TestFeed["Hydro"] == 0.0 && TestFeed["Biomass"] == 120.0
    ensures TestFeed["Solar"] == 0.0 && TestFeed["Wind"] == 0.0 && TestFeed["Pumped Storage"] == 0.0
  {
  }

  // ---------------------------------------------------------------------------------------
  // The base per-row expression.

  /** Nine sources; pumped storage as stored, interconnectors clipped; divided by the stored
      `kWh_total`; no guard. */
  const BaseFormula: Formula := Formula(AllSources, Raw, PositiveOnly, StoredTotal, false)

  /** The base expression written out: nine products, only the interconnector flow replaced by
      its positive part, over the stored total. */
  lemma BaseExpression(row: GenerationRow, factors: FactorMap)
    requires HasAllSources(factors)
    ensures Numerator(BaseFormula, row, factors)
         == row.nuclear * factors[Nuclear] + row.fossil * factors[Fossil] + row.hydro * factors[Hydro]
          + row.geothermal * factors[Geothermal] + row.biomass * factors[Biomass]
          + row.solar * factors[Solar] + row.wind * factors[Wind]
          + row.pumpedStorage * factors[PumpedStorage]
          + Contribution(PositiveOnly, row.interconnectors) * factors[Interconnectors]
    ensures Denominator(BaseFormula, row) == row.total
  {
    NineSourceNumerator(BaseFormula, row, factors);
  }

  /** A negative interconnector flow gives exactly the intensity of a zero flow: the clip
      changes the numerator only, and the divisor is the stored column. */
  lemma BaseNegativeInterconnectorsAsZero(row: GenerationRow, factors: FactorMap, v: real)
    requires HasAllSources(factors) && v <= 0.0 && row.total != 0.0
    ensures Defined(BaseFormula, WithVolume(row, Interconnectors, v))
    ensures RowIntensity(BaseFormula, WithVolume(row, Interconnectors, v), factors)
         == RowIntensity(BaseFormula, WithVolume(row, Interconnectors, 0.0), factors)
  {
    NineCoefficients(factors);
    WithVolumeVolume(row, Interconnectors, 0.0, Nuclear);
    ClippedNegativeAsZero(BaseFormula, row, factors, Interconnectors, v);
  }

  /** No source is listed twice. */
  lemma AllSourcesDistinct()
    ensures Distinct(AllSources)
  {
  }

  /** Pumped storage enters unclipped: moving its volume from 0 to `v` (negative when
      pumping) adds `v` times its coefficient to the numerator. */
  lemma BasePumpedStorageLinear(row: GenerationRow, factors: FactorMap, v: real)
    requires HasAllSources(factors)
    ensures Numerator(BaseFormula, WithVolume(row, PumpedStorage, v), factors)
         == Numerator(BaseFormula, WithVolume(row, PumpedStorage, 0.0), factors) + v * factors[PumpedStorage]
  {
    NineCoefficients(factors);
    AllSourcesDistinct();
    assert PumpedStorage in AllSources by { assert AllSources[7] == PumpedStorage; }
    RawVolumeIsLinear(BaseFormula, row, factors, PumpedStorage, v);
  }

  // ---------------------------------------------------------------------------------------
  // Grouped queries and their nested outputs.

  /** One interval of the generation table with the calendar fields the queries extract. */
  datatype Interval = Interval(year: int, month: int, dayofweek: int, hour: int, row: GenerationRow)

  /** The intervals with their per-row intensities: what each `AVG(...)` averages. */
  function Samples(f: Formula, factors: map<Source, real>, intervals: seq<Interval>): (ss: seq<Sample>)
    requires Covers(factors, f.sources)
    requires forall i :: 0 <= i < |intervals| ==> Defined(f, intervals[i].row)
    ensures |ss| == |intervals|
    ensures forall i :: 0 <= i < |intervals| ==>
      && ss[i].year == intervals[i].year && ss[i].month == intervals[i].month
      && ss[i].dayofweek == intervals[i].dayofweek && ss[i].hour == intervals[i].hour
      && ss[i].intensity == RowIntensity(f, intervals[i].row, factors)
  {
    seq(|intervals|, i requires 0 <= i < |intervals| =>
      Sample(intervals[i].year, intervals[i].month, intervals[i].dayofweek, intervals[i].hour,
             RowIntensity(f, intervals[i].row, factors)))
  }

  /** The calendar column `d` of an interval, as the query extracts it. */
  function CalendarField(iv: Interval, d: Dim): int {
    match d
    case Year => iv.year
    case Month => iv.month
    case DayOfWeek => iv.dayofweek
  }

  /** The per-row intensities of the intervals whose calendar columns `dims` read `cols` and
      whose hour is `hour`, in table order: the values one `AVG` of a grouped query averages,
      read directly off the generation rows. */
  function GroupRowIntensities(f: Formula, factors: map<Source, real>, intervals: seq<Interval>,
                               dims: seq<Dim>, cols: seq<int>, hour: int): seq<real>
    requires Covers(factors, f.sources)
    requires forall i :: 0 <= i < |intervals| ==> Defined(f, intervals[i].row)
  {
    if intervals == [] then []
    else
      var iv := intervals[0];
      (if |cols| == |dims| && (forall k :: 0 <= k < |dims| ==> CalendarField(iv, dims[k]) == cols[k]) && iv.hour == hour
       then [RowIntensity(f, iv.row, factors)] else [])
      + GroupRowIntensities(f, factors, intervals[1..], dims, cols, hour)
  }

  /** Grouping the samples is grouping the intervals: the intensities a group of `Samples`
      holds are the per-row intensities of exactly the intervals in that group, in order. */
  lemma {:induction false} SamplesGroupIntensities(f: Formula, factors: map<Source, real>, intervals: seq<Interval>,
                                                   dims: seq<Dim>, cols: seq<int>, hour: int)
    requires Covers(factors, f.sources)
    requires forall i :: 0 <= i < |intervals| ==> Defined(f, intervals[i].row)
    ensures GroupIntensities(Samples(f, factors, intervals), dims, cols, hour)
         == GroupRowIntensities(f, factors, intervals, dims, cols, hour)
  {
    if intervals != [] {
      var ss := Samples(f, factors, intervals);
      assert ss[1..] == Samples(f, factors, intervals[1..]);
      var iv := intervals[0];
      assert Key(ss[0], dims) == cols <==>
        (|cols| == |dims| && forall k :: 0 <= k < |dims| ==> CalendarField(iv, dims[k]) == cols[k]) by {
        assert forall k :: 0 <= k < |dims| ==> Field(ss[0], dims[k]) == CalendarField(iv, dims[k]);
      }
      SamplesGroupIntensities(f, factors, intervals[1..], dims, cols, hour);
    }
  }

  /** The `daily_intensity*` methods. */
  datatype Breakdown =
    | Hourly                  // daily_intensity
    | ByYear                  // daily_intensity_by_year
    | ByMonth                 // daily_intensity_by_month
    | ByMonthAndYear          // daily_intensity_by_month_and_year
    | ByMonthAndWeekday       // daily_intensity_by_month_and_weekday
    | ByYearMonthAndWeekday   // daily_intensity_by_year_month_and_weekday

  /** The nesting levels of each output, outermost first. */
  function Levels(b: Breakdown): seq<Dim> {
    match b
    case Hourly => []
    case ByYear => [Year]
    case ByMonth => [Month]
    case ByMonthAndYear => [Year, Month]
    case ByMonthAndWeekday => [Month, DayOfWeek]
    case ByYearMonthAndWeekday => [Year, Month, DayOfWeek]
  }

  /** The grouping columns (besides the hour) of the query each method reads, as the class
      is written: the later definition of the month-and-year extract replaces the earlier
      one, so `daily_intensity_by_month_and_year` reads rows grouped by day of week too. */
  function QueryColumnsAsWritten(b: Breakdown): seq<Dim> {
    if b == ByMonthAndYear then [Year, Month, DayOfWeek] else Levels(b)
  }

  /** The key of the nested value in each method's output object. */
  function OutputKey(b: Breakdown): string {
    match b
    case Hourly => "carbon_intensity_by_hour"
    case ByYear => "carbon_intensity_by_year"
    case ByMonth => "carbon_intensity_by_month"
    case ByMonthAndYear => "carbon_intensity_by_month_and_year"
    case ByMonthAndWeekday => "carbon_intensity_by_month_and_weekday"
    case ByYearMonthAndWeekday => "carbon_intensity_by_year_month_and_weekday"
  }

  /** A method's output: `{key: nested}`, or for the forecast `{"prediction_year": year,
      "carbon_intensity_by_month_and_weekday": nested}`. */
  datatype Output =
    | Averages(key: string, body: Nested)
    | Prediction(year: string, body: Nested)

  /** A `daily_intensity*` method applied to the rows of its query. */
  function DailyIntensity(b: Breakdown, rows: seq<Row>): Output
    requires MinCols(rows, |Levels(b)|)
  {
    Averages(OutputKey(b), Reshape(|Levels(b)|, rows))
  }

  /** Fed by the query its output expects, every method's output has ascending keys at
      every level, and every group of intervals appears exactly once: in the list its
      calendar fields lead to, as the record for its hour, carrying the mean of its
      intervals' intensities. The hours of each list ascend. The query each output expects
      groups by exactly its levels (for `daily_intensity_by_month_and_year`, the earlier
      month-and-year extract). */
  lemma BreakdownGroupsOnce(b: Breakdown, samples: seq<Sample>, rows: seq<Row>, s: Sample)
    requires Answers(samples, Levels(b), rows) && s in samples
    ensures MinCols(rows, |Levels(b)|)
    ensures Ordered(DailyIntensity(b, rows).body, |Levels(b)|)
    ensures var rs := Records(Select(rows, Key(s, Levels(b))));
      && Lookup(DailyIntensity(b, rows).body, Key(s, Levels(b))) == Some(Leaf(rs))
      && (forall a, c :: 0 <= a < c < |rs| ==> rs[a].hour < rs[c].hour)
      && exists j :: 0 <= j < |rs| && rs[j].hour == s.hour
           && rs[j].intensity == Mean(GroupIntensities(samples, Levels(b), Key(s, Levels(b)), s.hour))
  {
    EachGroupOnceInItsLeaf(samples, Levels(b), rows, s);
    ReshapeOrdered(|Levels(b)|, rows);
  }

  /** As written, `daily_intensity_by_month_and_year` nests rows grouped by year, month, day
      of week and hour under year and month only: two intervals of the same month at the same
      hour on different days of the week (say January 2020, hour 0) end up as two records for
      that hour in the same list, with nothing to tell them apart. */
  lemma MonthAndYearAsWrittenRepeatsHours(y: int, m: int, d1: int, d2: int, h: int, a: real, b: real)
    requires d1 < d2
    ensures var samples := [Sample(y, m, d1, h, a), Sample(y, m, d2, h, b)];
      var rows := [Row([y, m, d1], h, a), Row([y, m, d2], h, b)];
      && Answers(samples, QueryColumnsAsWritten(ByMonthAndYear), rows)
      && MinCols(rows, |Levels(ByMonthAndYear)|)
      && Lookup(DailyIntensity(ByMonthAndYear, rows).body, [y, m]) == Some(Leaf([Record(h, a), Record(h, b)]))
  {
    var rows := [Row([y, m, d1], h, a), Row([y, m, d2], h, b)];
    TwoWeekdaysAnswer(y, m, d1, d2, h, a, b);
    TwoWeekdaysLeaf(y, m, d1, d2, h, a, b);
    LookupReshape(2, rows, [y, m]);
  }

  /** The two rows are the as-written query's answer for the two intervals. */
  lemma TwoWeekdaysAnswer(y: int, m: int, d1: int, d2: int, h: int, a: real, b: real)
    requires d1 < d2
    ensures Answers([Sample(y, m, d1, h, a), Sample(y, m, d2, h, b)], QueryColumnsAsWritten(ByMonthAndYear),
                    [Row([y, m, d1], h, a), Row([y, m, d2], h, b)])
  {
    var dims := QueryColumnsAsWritten(ByMonthAndYear);
    var s1, s2 := Sample(y, m, d1, h, a), Sample(y, m, d2, h, b);
    var samples := [s1, s2];
    var r1, r2 := Row([y, m, d1], h, a), Row([y, m, d2], h, b);
    var rows := [r1, r2];
    assert Key(s1, dims) == r1.cols && Key(s2, dims) == r2.cols;
    assert samples[1..] == [s2];
    assert GroupIntensities([s2], dims, r1.cols, h) == [];
    assert GroupIntensities(samples, dims, r1.cols, h) == [a];
    assert GroupIntensities([s2], dims, r2.cols, h) == [b];
    assert GroupIntensities(samples, dims, r2.cols, h) == [b];
    MeanOfOne(a);
    MeanOfOne(b);
    assert RowLess(r1, r2) by {
      var p, q := r1.cols + [h], r2.cols + [h];
      assert p[1..][1..] == [d1, h] && q[1..][1..] == [d2, h];
    }
    forall s | s in samples
      ensures exists i :: 0 <= i < |rows| && rows[i].cols == Key(s, dims) && rows[i].hour == s.hour
    {
      if s == s1 { assert rows[0].cols == Key(s, dims); } else { assert rows[1].cols == Key(s, dims); }
    }
  }

  /** Both rows fall under the year and month, and become two records for the hour. */
  lemma TwoWeekdaysLeaf(y: int, m: int, d1: int, d2: int, h: int, a: real, b: real)
    ensures var rows := [Row([y, m, d1], h, a), Row([y, m, d2], h, b)];
      && Select(rows, [y, m]) == rows
      && Records(rows) == [Record(h, a), Record(h, b)]
  {
    var r1, r2 := Row([y, m, d1], h, a), Row([y, m, d2], h, b);
    assert Prefixed(r1, [y, m]) by { assert r1.cols[..2] == [y, m]; }
    assert Prefixed(r2, [y, m]) by { assert r2.cols[..2] == [y, m]; }
    assert [r1, r2][1..] == [r2];
    assert Records([r2]) == [Record(h, b)];
  }

  /** `daily_intensity_prediction_for_year_by_month_and_weekday`: the predicted rows nested by
      month and day of week, with the requested year echoed. */
  function DailyIntensityPrediction(year: string, rows: seq<Row>): Output
    requires MinCols(rows, 2)
  {
    Prediction(year, Reshape(2, rows))
  }

  /** Fed rows ordered by month, day of week and hour, the forecast output has ascending
      keys, and under each (month, day of week) lists exactly that pair's predictions, in
      ascending hour. */
  lemma PredictionLeaves(year: string, rows: seq<Row>, p: seq<int>)
    requires forall i :: 0 <= i < |rows| ==> |rows[i].cols| == 2
    requires StrictlySorted(rows) && |p| == 2
    ensures MinCols(rows, 2)
    ensures Ordered(DailyIntensityPrediction(year, rows).body, 2)
    ensures DailyIntensityPrediction(year, rows).year == year
    ensures Select(rows, p) != [] ==>
      Lookup(DailyIntensityPrediction(year, rows).body, p) == Some(Leaf(Records(Select(rows, p))))
    ensures Select(rows, p) == [] ==> Lookup(DailyIntensityPrediction(year, rows).body, p) == None
    ensures var rs := Records(Select(rows, p));
      forall a, c :: 0 <= a < c < |rs| ==> rs[a].hour < rs[c].hour
  {
    ReshapeOrdered(2, rows);
    LookupReshape(2, rows, p);
    LeafHoursAscending(rows, p);
  }
}
