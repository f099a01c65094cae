# Japan grid carbon intensity: a Dafny model of the intensity arithmetic

japan_grid_carbon_api estimates the carbon intensity (g CO2/kWh) of the electricity that
Japan's regional utilities deliver. It works from interval-by-interval generation volumes per
source: nuclear, fossil, hydro, geothermal, biomass, solar, wind, pumped storage and
interconnectors. This project models the arithmetic and the request handling around it.

- **Factor resolution** (`Factors`, `UtilityApi`, and one module per utility: `Tepco`,
  `Tohokuden`, `Kepco`, `Yonden`, `Okiden`, `Hepco`, `Cepco`, `Rikuden`).
  - Every non-fossil coefficient is read from a baseline per-fuel feed, except:
    - geothermal is always 0;
    - interconnectors are a fixed constant (500 or 850);
    - pumped storage is either read from the feed or fixed, per utility.
  - The fossil coefficient is the coal, oil and open-cycle-gas baselines averaged with the
    utility's coal, oil and LNG weights.
  - The feed is a parameter. A missing entry is the `None` of an `Option`, standing for the
    source's `KeyError`.
- **Per-row formulas** (`Intensity`, `ClippedQuery`, `LegacyCalculation`).
  - One generic `Formula` covers every variant: which sources are multiplied; whether pumped
    storage and interconnectors enter raw or as `if(v > 0, v, 0)`; which divisor; and
    whether a non-positive total gives 0.
  - The divisor is one of: the stored `kWh_total`, the sum of the contributions, or demand
    plus interconnector inflow.
  - Each utility's SQL or pandas expression is proved equal to that formula written out.
    The formula's properties are proved once: scale invariance, clipped flows acting as
    zero, linearity of unclipped flows, and a bound by the coefficient range.
- **Grouping, averaging and nesting** (`Aggregation`, `UtilityApi`, `KepcoAnalysis`).
  - A grouped query is specified as `AVG` over the rows of each group, ordered by its keys
    (`Answers`).
  - The `groupby(...).apply(...).to_dict()` reshaping is a function on the result rows.
  - Every interval's group is proved to appear exactly once, as the record for its hour, in
    the list its calendar fields lead to. Keys ascend at every level.
  - The pandas hour / month / hour-by-month averages of the analysis scripts are maps of
    means over the frame's rows.
- **Caches and validation.**
  - `Api` models the FastAPI module's `cache` dictionary as a class. `Validation` models
    utility selection, the breakdown whitelist, `strptime('%Y-%m-%d')` and `int(year)`.
  - `LegacyApi`, `TepcoLegacyApi` and `TohokudenLegacyApi` model the older per-utility API
    modules and their module-level caches.
- **Scraper** (`TepcoScraper`): the CSV header translation, and the column it adds with the
  unclipped calculation.

All arithmetic is on `real`. Where the code departs from the system's stated design, the
model follows the code:

- Only Hokkaido's query guards against a zero total. Every other expression divides
  unguarded, and a zero divisor fails the whole BigQuery query. The model requires a non-zero
  divisor there (`Defined`).
- The divisor differs by utility:
  - the base class and the legacy pandas calculation divide by the stored `kWh_total`;
  - Kansai clips only interconnectors, and its divisor includes raw pumped storage;
  - Okinawa divides by the sum of five sources;
  - the old Tohoku module divides by demand plus interconnectors.
- Geothermal's coefficient is 0 for every feed-based utility, whatever the feed holds.
- Responses keep the code's shape. An averages route returns `{"data": <method output>,
  "fromCache": ...}`, and the breakdown route accepts exactly `year`, `month`,
  `month_and_year` and `month_and_weekday`.

## Model

| member | source | states |
|---|---|---|
| Factors.FossilFactor | cloud_functions/api/utilities/UtilityAPI.py:332-347 | the fossil coefficient is a weighted mean of the coal, oil and open-cycle-gas baselines, so it lies between the smallest and the largest of them |
| Factors.FossilFactorIsWeightedMean | cloud_functions/api/utilities/UtilityAPI.py:337-347 | with non-negative weights of positive sum, the weighted sum divided by the total weight is bracketed by the smallest and largest baseline |
| Factors.Resolve | cloud_functions/api/utilities/UtilityAPI.py:340-356 | resolution succeeds exactly when every feed entry it reads is present (a `KeyError` otherwise), and then yields a coefficient for each of the nine sources |
| Factors.ResolvedFactors | cloud_functions/api/utilities/UtilityAPI.py:345-356 | geothermal is 0 and interconnectors the configured constant whatever the feed says; nuclear, hydro, biomass, solar and wind are the feed's values; pumped storage is the feed's or the fixed value; fossil times the total weight is the weighted sum |
| Factors.ResolveReadsOnlyRequiredKeys | cloud_functions/api/utilities/UtilityAPI.py:340-356 | two feeds that agree on the read entries give identical factors: other entries (imports, combined-cycle gas) never matter, and resolving the same feed twice gives the same map |
| Intensity.Contribution | cloud_functions/api/utilities/UtilityAPI.py:28 | a clipped flow never contributes a negative amount, contributes its volume when producing and 0 otherwise; an unclipped one contributes its volume |
| Intensity.RowIntensity | cloud_functions/api/utilities/hepco/HepcoAPI.py:36-65 | a guarded expression gives 0 whenever the total is not positive; otherwise the result times the divisor is the sum of contribution times coefficient |
| Intensity.ScaleInvariant | cloud_functions/api/utilities/UtilityAPI.py:18-30 | for every formula variant, multiplying all volumes (and stored total and demand) by one positive constant leaves the intensity unchanged and defined |
| Intensity.IntensityWithinFactorRange | cloud_functions/api/utilities/tepco/TepcoAPI.py:9-46 | when the divisor is the sum of non-negative contributions and positive, the intensity lies between the smallest and the largest coefficient |
| Intensity.ZeroFactorSourceNeverRaises | cloud_functions/api/utilities/tohokuden/TohokudenAPI.py:9-47 | output from a clipped source whose coefficient is 0 leaves the numerator unchanged, grows the divisor, and never raises a non-negative intensity |
| Intensity.RawVolumeIsLinear | cloud_functions/api/utilities/UtilityAPI.py:27 | an unclipped source moved from 0 to `v` adds `v` times its coefficient to the numerator and `v` to the summed total |
| Intensity.ClippedNegativeAsZero | cloud_functions/api/utilities/UtilityAPI.py:28 | under the positive-only policy a negative volume gives the same numerator, divisor and intensity as a zero volume |
| Aggregation.GroupMeanWithinBounds | cloud_functions/api/utilities/UtilityAPI.py:46-56 | a group's value is the average of per-row ratios: when every interval's intensity is in `[lo, hi]`, so is every result row's |
| Aggregation.SampleInOwnGroup | cloud_functions/api/utilities/UtilityAPI.py:46-56 | every interval's own intensity is among the values its group averages |
| Aggregation.EachGroupOnceInItsLeaf | cloud_functions/api/utilities/UtilityAPI.py:181-195 | rows answering a grouped query, nested by its grouping columns, put every interval's group in the list its columns lead to, once, as the record for its hour with the group's mean, hours ascending |
| Aggregation.ReshapeOrdered | cloud_functions/api/utilities/UtilityAPI.py:181-195 | the keys of every object built by the nested `groupby(...).to_dict()` ascend strictly at every level down to the record lists |
| Aggregation.LookupReshape | cloud_functions/api/utilities/UtilityAPI.py:181-195 | a full-depth path leads to the records of exactly the rows whose grouping columns start with it, in query order, and to nothing when no row does |
| UtilityApi.StationWeightTotals | cloud_functions/api/utilities/UtilityAPI.py:332-338 | the TEPCO station capacities sum to lng 27.991, oil 11.11, coal 2, usable as weights of a mean |
| UtilityApi.BaseFactors | cloud_functions/api/utilities/UtilityAPI.py:325-356 | the base resolution succeeds exactly when the nine entries are in the feed; fossil times 41.101 is 2 coal + 11.11 oil + 27.991 gas; geothermal 0, interconnectors 500, the other six copied |
| UtilityApi.TestFeedFactors | cloud_functions/api/utilities/test_UtilityAPI.py:8-50 | on the unit test's feed record fossil is 30483.991 / 41.101, between 741.684 and 741.685 (the test's 741.68489817766), biomass 120, interconnectors 500, every other coefficient 0 |
| UtilityApi.BaseExpression | cloud_functions/api/utilities/UtilityAPI.py:15-44 | the base query's expression is the nine volumes times their coefficients, only interconnectors clipped, over the stored `kWh_total` |
| UtilityApi.BaseNegativeInterconnectorsAsZero | cloud_functions/api/utilities/UtilityAPI.py:28-29 | in the base expression an exporting interconnector flow gives exactly the intensity of a zero flow |
| UtilityApi.BasePumpedStorageLinear | cloud_functions/api/utilities/UtilityAPI.py:27 | in the base expression pumped storage enters unclipped: a volume `v` moves the numerator by `v` times its coefficient |
| UtilityApi.SamplesGroupIntensities | cloud_functions/api/utilities/UtilityAPI.py:18-30 | the values one `AVG(...)` of a grouped query averages are the per-row intensities of exactly the intervals whose calendar columns and hour match the group, in table order |
| UtilityApi.BreakdownGroupsOnce | cloud_functions/api/utilities/UtilityAPI.py:153-251 | each `daily_intensity*` output, fed by the query it expects, has ascending keys at every level, and each group of intervals appears exactly once, under its calendar keys, as the record for its hour carrying the mean of its intensities |
| UtilityApi.MonthAndYearAsWrittenRepeatsHours | cloud_functions/api/utilities/UtilityAPI.py:84-125 | as written, whenever two days of the week of one month have data at the same hour (January 2020, hour 0, say), the month-and-year output lists two records for that hour under that year and month |
| UtilityApi.PredictionLeaves | cloud_functions/api/utilities/UtilityAPI.py:253-270 | the forecast output echoes the requested year and lists, under each (month, day of week), exactly that pair's predicted rows in ascending hour; absent pairs are absent |
| ClippedQuery.ClippedExpression | cloud_functions/api/utilities/tepco/TepcoAPI.py:9-46 | the clipped expression is seven volumes as stored plus the positive parts of pumped storage and interconnectors, times coefficients, over the sum of the same nine contributions |
| ClippedQuery.ClippedNegativeFlowsAsZero | cloud_functions/api/utilities/yonden/YondenAPI.py:9-47 | a negative pumped-storage or interconnector volume gives exactly the intensity of a zero one, removed from numerator and divisor alike |
| ClippedQuery.ClippedScaleInvariant | cloud_functions/api/utilities/tohokuden/TohokudenAPI.py:9-47 | multiplying every volume by a positive constant leaves the clipped intensity unchanged |
| ClippedQuery.ClippedWithinFactorRange | cloud_functions/api/utilities/tepco/TepcoAPI.py:9-46 | with non-negative ordinary volumes and a positive total the clipped intensity lies within the range of the coefficients |
| ClippedQuery.ZeroPumpedStorageNeverRaises | cloud_functions/api/utilities/tohokuden/TohokudenAPI.py:9-47 | with a zero pumped-storage coefficient, generating pumped storage only grows the divisor and never raises a non-negative intensity |
| ClippedQuery.PumpedStorageCalc | cloud_functions/api/utilities/cepco/CepcoAPI.py:20-33 | the subquery's contribution columns are never negative and equal the flow when it is positive |
| ClippedQuery.CalcTotalIsDivisor | cloud_run/api/app/api/utilities/rikuden/RikudenAPI.py:21-61 | the subquery's `MWh_total_generation` is exactly the divisor of the clipped expression |
| ClippedQuery.RowValue | cloud_functions/api/utilities/cepco/CepcoAPI.py:35-60 | one row's value: 0 under the guard when the total generation is not positive, otherwise the value times the total generation is the row's numerator |
| ClippedQuery.PerRowValues | cloud_run/api/app/api/utilities/rikuden/RikudenAPI.py:36-61 | one value per subquery row: 0 where a guarded expression's total generation is not positive, otherwise the value that times the row's total generation gives its numerator |
| Tepco.TepcoFactors | cloud_functions/api/utilities/tepco/TepcoAPI.py:48-80 | TEPCO's resolution reads eight entries (not pumped storage); fossil times 41.101 is 2 coal + 11.11 oil + 27.991 gas; pumped storage 80.07, interconnectors 500, geothermal 0 |
| Tohokuden.TohokuFactors | cloud_functions/api/utilities/tohokuden/TohokudenAPI.py:49-82 | Tohoku's resolution reads eight entries; fossil times 49 is 23 coal + 2 oil + 24 gas; pumped storage 0, interconnectors 500, geothermal 0 |
| Tohokuden.TohokuPumpedOutputNeverRaises | cloud_functions/api/utilities/tohokuden/TohokudenAPI.py:9-82 | with Tohoku's factors pumped-storage output never raises a non-negative intensity |
| Yonden.YondenFactors | cloud_functions/api/utilities/yonden/YondenAPI.py:49-81 | Yonden's station capacities sum to lng 0.935, oil 1.35, coal 1.106; fossil times 3.391 is the weighted sum; pumped storage 8.57, interconnectors 500, geothermal 0 |
| Kepco.KepcoFactors | cloud_functions/api/utilities/kepco/KepcoAPI.py:47-79 | Kansai's resolution reads nine entries; fossil times 64 is 18 coal + 9 oil + 37 gas; pumped storage from the feed, interconnectors 850, geothermal 0 |
| Kepco.KepcoExpression | cloud_functions/api/utilities/kepco/KepcoAPI.py:9-45 | Kansai's expression: pumped storage as stored, interconnectors as their positive part, in the products and in the divisor |
| Kepco.KepcoPumpingLowersBoth | cloud_functions/api/utilities/kepco/KepcoAPI.py:9-45 | unclipped pumped storage moves the numerator by `v` times its coefficient and the divisor by `v`, so pumping lowers both |
| Kepco.KepcoNegativeInterconnectorsAsZero | cloud_functions/api/utilities/kepco/KepcoAPI.py:9-45 | an exporting interconnector flow gives exactly the intensity of a zero flow |
| Okiden.CarbonIntensityFactors | cloud_functions/api/utilities/okiden/OkidenAPI.py:37-74 | Okinawa's map has coefficients for exactly fossil, hydro, geothermal, biomass, solar and wind |
| Okiden.OkidenFactorValues | cloud_functions/api/utilities/okiden/OkidenAPI.py:37-74 | fossil is 79696 / 95 (61 coal, 13 oil, 21 gas over 95), hydro 11, geothermal 13, biomass 120, solar 38, wind 26, and no nuclear, pumped-storage or interconnector coefficient |
| Okiden.OkidenExpression | cloud_functions/api/utilities/okiden/OkidenAPI.py:11-35 | the Okinawa expression is fossil, hydro, biomass, solar and wind times their coefficients over the sum of the same five volumes |
| Okiden.OkidenIgnoresOtherColumns | cloud_functions/api/utilities/okiden/OkidenAPI.py:11-35 | two rows agreeing on the five listed volumes have the same intensity, whatever their other columns |
| Okiden.OkidenWithinFactorRange | cloud_functions/api/utilities/okiden/OkidenAPI.py:11-74 | with non-negative volumes and a positive total the Okinawa intensity is between 11 and 79696 / 95 |
| Hepco.HepcoSeries | cloud_functions/api/utilities/hepco/HepcoAPI.py:21-65 | the guarded per-row expression gives one value per row for every input: 0 where the total generation is not positive, otherwise numerator over total generation |
| Hepco.HepcoNegativeFlowsAsZero | cloud_functions/api/utilities/hepco/HepcoAPI.py:21-65 | under the guard, a negative pumped-storage or interconnector volume gives the same value as a zero one whatever the total |
| Cepco.CepcoConfigTotals | cloud_functions/api/utilities/cepco/CepcoAPI.py:4-13 | Chugoku's configuration: pumped storage 19.75, lng 1.685, oil 3.15, coal 2.59, usable as weights |
| Rikuden.RikudenConfigTotals | cloud_run/api/app/api/utilities/rikuden/RikudenAPI.py:5-14 | Hokuriku's configuration: pumped storage 80.07, lng 0.4247, oil 1.25, coal 3.15, usable as weights |
| LegacyCalculation.LegacyFactors | cloud_functions/scrapers/tepco_scraper/tepco_scraper.py:14-47 | the scraper's factor map needs the nine feed entries; fossil is the TEPCO weighted mean, geothermal 0, interconnectors 850, the other six from the feed |
| LegacyCalculation.LegacyFactorsComplete | cloud_run/app/api/utilities/kepco/analysis/kepco_carbon_intensity.py:27-38 | a resolved legacy map has a coefficient for every one of the nine columns |
| LegacyCalculation.LegacyIsBaseWithInterconnectorsAt850 | cloud_run/app/api/utilities/kepco/analysis/kepco_carbon_intensity.py:7-40 | the analysis scripts' map is the base class's map with interconnectors at 850 instead of 500, and fails on the same feeds |
| LegacyCalculation.LegacyExpression | cloud_functions/scrapers/tepco_scraper/tepco_scraper.py:50-67 | the legacy calculation is all nine stored volumes times their coefficients, none clipped, over the stored `kWh_total` |
| LegacyCalculation.LegacyExportLowersIntensity | cloud_functions/api/tepco/analysis/tepco_carbon_intensity.py:43-60 | without clipping an interconnector flow `v` moves the numerator by `v` times its coefficient while the total stays, so an export lowers the intensity |
| LegacyCalculation.LegacyScaleInvariant | cloud_functions/api/tepco/analysis/tepco_carbon_intensity.py:43-60 | scaling the nine volumes and `kWh_total` by one positive constant leaves the legacy intensity unchanged |
| LegacyCalculation.ReadRow | cloud_run/app/api/utilities/kepco/analysis/kepco_carbon_intensity.py:54-76 | a frame row is readable exactly when all ten suffixed columns are present, and its total is the suffixed `kWh_total` |
| LegacyCalculation.ReadsOnlySuffixedColumns | cloud_run/app/api/utilities/kepco/analysis/kepco_carbon_intensity.py:54-76 | two rows agreeing on the ten suffixed columns are read alike, whatever their other columns |
| LegacyCalculation.CarbonCalculation | cloud_run/app/api/utilities/kepco/analysis/kepco_carbon_intensity.py:54-76 | `carbonCalculation` yields a value exactly when every suffixed column is present |
| LegacyCalculation.CarbonCalculationExpression | cloud_run/app/api/utilities/kepco/analysis/kepco_carbon_intensity.py:54-76 | the value times the suffixed total is the sum of the nine suffixed volumes times their coefficients, none clipped |
| LegacyCalculation.EmptySuffixReadsPlainColumns | cloud_functions/api/tepco/analysis/tepco_carbon_intensity.py:43-60 | with the empty suffix the calculation reads exactly the plain `kWh_*` columns of the unsuffixed versions |
| LegacyCalculation.WithIntensity | cloud_run/app/api/utilities/kepco/analysis/kepco_carbon_intensity.py:48-49 | the row gains a `carbon_intensity` column holding its calculation and keeps every other column |
| LegacyCalculation.Frame.AddCarbonIntensity | cloud_run/app/api/utilities/kepco/analysis/kepco_carbon_intensity.py:43-51 | the factors are resolved once; on success every row is replaced by itself with its `carbon_intensity`; a missing feed entry or column leaves the frame as it was |
| LegacyCalculation.Frame.ApplyCalculation | cloud_run/app/api/utilities/kepco/analysis/kepco_carbon_intensity.py:48-49 | `df.apply` over every row with one factor map: each row gets exactly its own value, in order; a row missing a column leaves the frame unchanged |
| TepcoScraper.RenameHeader | cloud_functions/scrapers/tepco_scraper/tepco_scraper.py:70-93 | a listed header gets its translation, any other header is kept |
| TepcoScraper.RenameHeaderIdempotent | cloud_functions/scrapers/tepco_scraper/tepco_scraper.py:70-93 | renaming a renamed header changes nothing (no translation is itself a listed header) |
| TepcoScraper.RenameHeaderInjective | cloud_functions/scrapers/tepco_scraper/tepco_scraper.py:72-89 | distinct listed headers get distinct names, so no two columns merge |
| TepcoScraper.RenamedHeadersFeedTheCalculation | cloud_functions/scrapers/tepco_scraper/tepco_scraper.py:50-89 | the ten Japanese generation headers, renamed, are exactly the ten columns the calculation reads |
| TepcoScraper.RenameColumns | cloud_functions/scrapers/tepco_scraper/tepco_scraper.py:135 | every column header is renamed in place, the count unchanged |
| TepcoScraper.RenameColumnsIdempotent | cloud_functions/scrapers/tepco_scraper/tepco_scraper.py:135 | renaming a frame's columns twice is renaming them once |
| TepcoScraper.CarbonIntensityFrame | cloud_functions/scrapers/tepco_scraper/tepco_scraper.py:162-175 | every row of the parsed frame receives its unsuffixed legacy `carbon_intensity` from one factor map, or the frame is left as it was |
| KepcoAnalysis.DailyAverage | cloud_run/app/api/utilities/kepco/analysis/kepco_carbon_intensity.py:79-89 | one average per hour of day that occurs in the frame, and no other key |
| KepcoAnalysis.MonthlyAverage | cloud_run/app/api/utilities/kepco/analysis/kepco_carbon_intensity.py:79-89 | one average per month that occurs in the frame, and no other key |
| KepcoAnalysis.DailyAveragePerMonth | cloud_run/app/api/utilities/kepco/analysis/kepco_carbon_intensity.py:92-98 | the pivot table has a cell for exactly the (hour, month) pairs that occur |
| KepcoAnalysis.AveragesWithinBounds | cloud_run/app/api/utilities/kepco/analysis/kepco_carbon_intensity.py:79-98 | when every row's intensity is in `[lo, hi]`, so is every hourly, monthly and pivot-cell average |
| KepcoAnalysis.CellIsHourWithinMonth | cloud_run/app/api/utilities/kepco/analysis/kepco_carbon_intensity.py:92-98 | a pivot cell's values, in order, are the hour's values within that month's rows |
| KepcoAnalysis.PivotCellIsMonthlyHourAverage | cloud_run/app/api/utilities/kepco/analysis/kepco_carbon_intensity.py:79-98 | each hour-by-month cell equals the hourly average of that month's rows alone |
| LegacyApi.CacheKeysDistinct | cloud_functions/api/utilities/tepco/api.py:130-201 | the three routes of a module never share a cache entry |
| LegacyApi.ModuleCache.constructor | cloud_functions/api/utilities/tepco/api.py:10 | a module starts with an empty cache |
| LegacyApi.ModuleCache.Serve | cloud_functions/api/utilities/tepco/api.py:130-147 | a stored reply is returned as stored (`fromCache` true) without querying; otherwise the query runs, the output is stored with `fromCache` true and returned with false; nothing else changes |
| TepcoLegacyApi.LegacySamples | cloud_functions/api/utilities/tepco/api.py:13-48 | each interval is averaged with its legacy intensity (nine unclipped volumes over the stored total) and its own calendar fields |
| TepcoLegacyApi.DailyIntensity | cloud_functions/api/utilities/tepco/api.py:130-201 | each route answers from its own cache key when present, otherwise nests its query's rows, stores them and returns them fresh |
| TepcoLegacyApi.LegacyRouteGroups | cloud_functions/api/utilities/tepco/api.py:51-201 | a computed reply holds, under each interval's month (and weekday), one record for its hour with the mean of its group's legacy intensities, its own among them, hours ascending |
| TepcoLegacyApi.RouteScenario | cloud_functions/api/utilities/tepco/api.py:130-172 | a first request queries; the repeated one is served from the cache without querying; another route still queries |
| TohokudenLegacyApi.OldTohokuExpression | cloud_functions/api/utilities/tohokuden/api.py:13-42 | the old Tohoku expression is eight volumes (no interconnector term) times their coefficients over demand plus interconnector inflow |
| TohokudenLegacyApi.InterconnectorFactorUnused | cloud_functions/api/utilities/tohokuden/api.py:31-42 | the interconnector coefficient formatted into the query is never used: any value gives the same numerator |
| TohokudenLegacyApi.TermsIgnoreInterconnectors | cloud_functions/api/utilities/tohokuden/api.py:19-28 | the interconnector volume enters the divisor only; the numerator's terms do not depend on it |
| TohokudenLegacyApi.InflowNeverRaisesIntensity | cloud_functions/api/utilities/tohokuden/api.py:19-29 | more interconnector inflow never raises a non-negative intensity over a positive divisor |
| TohokudenLegacyApi.TohokuSamples | cloud_functions/api/utilities/tohokuden/api.py:13-52 | each interval is averaged with its old Tohoku intensity and its own calendar fields |
| TohokudenLegacyApi.AsWrittenOnlyHourlyNests | cloud_functions/api/utilities/tohokuden/api.py:13-72 | as written, the shared query selects only the hour, so of the three routes exactly the hourly one can group and nest its rows |
| TohokudenLegacyApi.DailyIntensity | cloud_functions/api/utilities/tohokuden/api.py:75-146 | with each query selecting its grouping columns, every route nests, answers from its cache key when present, otherwise stores and returns its output |
| TohokudenLegacyApi.DailyIntensityAsWritten | cloud_functions/api/utilities/tohokuden/api.py:75-146 | as written: a cached reply is returned; a month route otherwise fails and stores nothing; the hourly route computes and stores |
| TohokudenLegacyApi.MonthRouteAsWrittenScenario | cloud_functions/api/utilities/tohokuden/api.py:95-117 | as written, the month route fails on a first request and again on the next, running its query each time |
| TohokudenLegacyApi.CorrectedMonthRouteGroups | cloud_functions/api/utilities/tohokuden/api.py:55-117 | with the month selected, the month route lists under each month one record per hour with the mean of that month-and-hour's Tohoku intensities, each interval's own among them |
| Validation.SelectUtility | cloud_run/app/api/main.py:92-105 | exactly the ten registered names select a utility; any other string gives none |
| Validation.SelectByName | cloud_run/app/api/main.py:92-105 | selecting a utility by its own name gives it back, so names and utilities correspond one to one |
| Validation.SelectBreakdown | cloud_run/app/api/main.py:227-235 | exactly `year`, `month`, `month_and_year` and `month_and_weekday` select a breakdown method |
| Validation.SelectBreakdownByName | cloud_run/app/api/main.py:227-235 | selection and naming are inverse on the four accepted breakdowns |
| Validation.ParseDate | cloud_run/app/api/main.py:126-137 | `strptime(s, '%Y-%m-%d')` accepts a string only when it is a real calendar date in that shape |
| Validation.ParseFormat | cloud_run/app/api/main.py:126-130 | every valid date with a four-digit year is parsed back from its `YYYY-MM-DD` form |
| Validation.ParsedHasIsoForm | cloud_run/app/api/main.py:126-137 | any accepted spelling of a date parses to the same date as its ISO form |
| Validation.DateExamples | cloud_run/app/api/main.py:126-137 | unpadded month and day fields are accepted, and 29 February of a leap year reads as that date |
| Validation.DateRejections | cloud_run/app/api/main.py:126-137 | 29 February of a common year, year zero and badly shaped strings are rejected |
| Validation.ValidateDates | cloud_run/app/api/main.py:108-144 | the from-date is checked first, then the to-date if given, then their order; valid exactly when none of these fails |
| Validation.ValidateDatesCases | cloud_run/app/api/main.py:108-144 | a parsable from-date alone, or with itself as to-date, is valid; an unparsable from-date is reported whatever the to-date is |
| Validation.IntParse | cloud_run/app/api/main.py:264 | `int(year)` accepts surrounding white space, a sign and digit groups joined by single underscores, and nothing else |
| Validation.IntParseString | cloud_run/app/api/main.py:264 | `int(str(n)) == n` for every integer |
| Validation.IntParseAccepts | cloud_run/app/api/main.py:264 | surrounding white space and a leading `+` are accepted: `" 2030\n"` and `"+2030"` read as 2030 |
| Validation.IntParseSkipsUnderscores | cloud_run/app/api/main.py:264 | an underscore between digits is skipped: `"2_030"` reads as 2030 |
| Validation.IntParseRejects | cloud_run/app/api/main.py:264 | `"20 30"`, `"2__030"`, `"2030_"` and `""` are rejected |
| Validation.CheckYear | cloud_run/app/api/main.py:263-265 | a year that is not an integer is an error; an integer outside `[now, now + 50]` is out of the window; otherwise it is accepted |
| Api.PutRange | cloud_run/app/api/main.py:177-186 | storing a range sets exactly that from-date and to-date and keeps every other stored range |
| Api.CarbonIntensityApi.constructor | cloud_run/app/api/main.py:44-55 | every registered utility starts with an empty cache |
| Api.CarbonIntensityApi.ClearCache | cloud_run/app/api/main.py:87-89 | one utility's cache is emptied; the others are untouched |
| Api.CarbonIntensityApi.ServeEntry | cloud_run/app/api/main.py:201-213 | a stored response is returned as stored; otherwise the utility method runs and its response is stored with `fromCache` true and returned with false |
| Api.CarbonIntensityApi.ServeRange | cloud_run/app/api/main.py:164-189 | the same under the from-date then to-date of a range key, keeping every other stored range |
| Api.CarbonIntensityApi.DailyCarbonIntensity | cloud_run/app/api/main.py:192-213 | an unknown utility is a 400 without a call or a cache change; otherwise the daily entry is served from the cache or computed and stored |
| Api.CarbonIntensityApi.DailyCarbonIntensityWithBreakdown | cloud_run/app/api/main.py:216-250 | the utility is checked before the breakdown (two distinct 400s), then the breakdown's entry is served or computed and stored |
| Api.CarbonIntensityApi.DailyCarbonIntensityPrediction | cloud_run/app/api/main.py:253-283 | a non-integer year is a server error, a year outside the fifty-year window a 400; otherwise the entry under the year string is served or computed and stored |
| Api.CarbonIntensityApi.ServeDates | cloud_run/app/api/main.py:147-189 | utility, then dates, then the range cache; a missing to-date means the from-date |
| Api.CarbonIntensityApi.HistoricalIntensity | cloud_run/app/api/main.py:147-189 | the historic route: bad utility or dates give their 400s; otherwise the range is served from `historical_intensity` or computed and stored there |
| Api.CarbonIntensityApi.CarbonIntensityTimeseriesPrediction | cloud_run/app/api/main.py:286-330 | the forecast route: the same checks, with the range stored under `prediction` |
| Api.YearKeyIsNotARangeKey | cloud_run/app/api/main.py:264-280 | a year that passes `int()` is never the daily key, a range key or a breakdown name, so cache entries never collide |
| Api.RepeatedRequestScenario | cloud_run/app/api/main.py:192-250 | a first request computes (`fromCache` false), its repeat is served with the same data and `fromCache` true without a call, and another route still computes |
| Api.ClearCacheScenario | cloud_run/app/api/main.py:87-213 | after `clearCache` the next request computes again |
| Api.SingleDayScenario | cloud_run/app/api/main.py:161-189 | a historic request without a to-date is stored as the one-day range, so the explicit one-day request is then served from the cache |

## Left out

- Network and warehouse I/O are left out: the HTTP fetch of the baseline feed, `pd.read_gbq`, the BigQuery client and the CSV downloads. The feed and the query result rows are parameters. A grouped query's result is specified by `Aggregation.Answers` rather than computed.
- The ARIMA forecast pipeline is not modelled: `create_timeseries_model`, `query_timeseries_model` and the `ML.FORECAST` rows. The forecast routes receive the predicted rows as data.
- The `historic_intensity` and `timeseries_prediction` methods that `main.py` calls are not part of this model. The range routes receive their series as data.
- Plotting, CSV parsing options (`skiprows`, `cp932`, `thousands`) and JSON file generation are left out.
- Floating point is not modelled: all arithmetic is on reals. Every unguarded expression requires a non-zero divisor, because BigQuery fails the whole query on a division by zero and pandas yields inf/NaN. A query that fails this way is not modelled.
- Intensity.RowIntensity: requires a non-zero divisor for unguarded formulas, so the query-wide division error is not modelled.
- The day-of-week numbering is taken as given by the query engine. `now` is read once as a constructor parameter (`currentYear`).
- Concurrency is left out. Request handling is sequential, so the check-then-store of both caches is atomic here.
- Aliasing is not modelled. A cache hit returns the stored dictionary object itself, so a caller mutating it would change the cache; the model returns values.
- `int()` is modelled on ASCII only. Unicode digits and Unicode white space are not modelled.
- `strptime` is modelled on ASCII digits and full-string matches. Locale effects are not modelled.
- The Chuden and Kyuden API classes are not part of this model. Their names are registered in `selectUtility`, but their API classes are not modelled here.
- `UtilityAPI.__init__` takes one argument, while the Hokkaido, Chugoku and Hokuriku classes pass two. A base class accepting their configuration is not modelled.
- The Hokkaido, Chugoku and Hokuriku configurations are not connected to any factor map. Nothing in the modelled code resolves factors from their `pumped_storage_factor` and `fuel_type_totals`, so the per-row expressions take the factor map as a parameter.
- The factor modules that the older TEPCO and Tohoku API modules import (`utilities/*/analysis/*_carbon_intensity.py`) are not part of this model. Their factor map is a parameter with a coefficient for every source.
- KepcoAnalysis.DailyAverage: models `groupby(...).mean()` for the `carbon_intensity` column only. The means of the other numeric columns in the frame are not modelled.
- The TEPCO scraper's own `createDailyAndMonthlyAverageGroup` and `createDailyAveragePerMonth` (tepco_scraper.py:140-159) have the same text as the Kansai script's, which `KepcoAnalysis` models.
- Duplicate copies of modelled files are not modelled separately: the older `main.py` of the cloud-functions API, the second `cloud_run/api/app` tree, and the second TEPCO analysis script.
- Printing and logging are left out.

## Findings

| source | as written | input that shows it | evidently intended | confidence | as-written member | corrected member |
|---|---|---|---|---|---|---|
| cloud_functions/api/utilities/UtilityAPI.py:84-125 | `_extract_daily_carbon_intensity_by_month_and_year_from_big_query` is defined twice; the later one also groups by `dayofweek`, so `daily_intensity_by_month_and_year` nests rows grouped by year, month, weekday and hour under year and month only | intervals in January 2020 at hour 0 on two different weekdays: the list under 2020 / 1 holds two records for hour 0 with nothing to tell them apart | both queries kept under distinct names: `daily_intensity_by_month_and_year` reads the earlier one, grouping by year, month and hour (one record per hour in each month of each year), and `daily_intensity_by_year_month_and_weekday` keeps the later four-column one it needs | high (not executed) | UtilityApi.MonthAndYearAsWrittenRepeatsHours | UtilityApi.BreakdownGroupsOnce |
| cloud_functions/api/utilities/tohokuden/api.py:13-117 | the shared query selects only `hour`, but the month routes append `GROUP BY month, ...` and then `groupby('month')` on the result frame, so neither month route can answer, and nothing is ever cached for them | any request to `daily_intensity_by_month` (or `..._and_weekday`): the query or the `groupby` fails on the missing `month` column, and every later request runs it again | the month routes select `EXTRACT(MONTH ...)` (and day of week), as the TEPCO module does, and nest one record per hour under each month | medium (not executed) | TohokudenLegacyApi.MonthRouteAsWrittenScenario | TohokudenLegacyApi.CorrectedMonthRouteGroups |
