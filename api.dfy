/** The HTTP API's route handlers and their response cache. The cache is one dictionary per
    utility name; the averages routes store one response per route key (`daily_intensity`, a
    breakdown name, a forecast year), and the two date-range routes store responses under
    `historical_intensity` or `prediction`, then the from-date, then the to-date. A stored
    copy says `fromCache: true`; a freshly computed reply says `false`. The utility methods
    the handlers call are not modelled here: each handler receives what its method would
    return, and reports whether it called it. */
module Api {
  import opened Wrappers
  import opened UtilityApi
  import opened Validation

  /** One row of a historic or forecast time series. */
  datatype TimestampRecord = TimestampRecord(timestamp: string, carbonIntensity: real)

  /** What a utility method returns: a nested averages object, or a time series. */
  datatype Body = Summary(output: Output) | Series(records: seq<TimestampRecord>)

  /** `{"data": ..., "fromCache": ...}`. */
  datatype Response = Response(data: Body, fromCache: bool)

  /** One entry of a utility's cache: a single response, or responses by from-date and
      to-date. */
  datatype Slot = Entry(response: Response) | Ranges(byFrom: map<string, map<string, Response>>)

  /** A handler's outcome: a response, an `HTTPException(400, ...)`, or the unhandled
      `ValueError` of `int(year)` (a server error). */
  datatype Reply = Ok(response: Response) | BadRequest(message: string) | ServerError

  const BadUtility := "Invalid Utility Specified"
  const BadBreakdown := "Invalid Breakdown Specified"
  const BadYear := "Invalid Year Specified - must be between this year and 50 from now"

  /** The cache keys of the single-response routes and of the two range routes. */
  const DailyKey := "daily_intensity"
  const HistoricKey := "historical_intensity"
  const PredictionKey := "prediction"

  /** A slot is shaped as its key says, and every stored response is flagged as cached. */
  predicate WellFormedSlot(key: string, slot: Slot) {
    && (slot.Ranges? <==> key == HistoricKey || key == PredictionKey)
    && (slot.Entry? ==> slot.response.fromCache)
    && (slot.Ranges? ==> forall f, t :: f in slot.byFrom && t in slot.byFrom[f] ==> slot.byFrom[f][t].fromCache)
  }

  /** The ranges stored under a range key, empty when there are none yet. */
  function RangesAt(slots: map<string, Slot>, key: string): map<string, map<string, Response>> {
    if key in slots && slots[key].Ranges? then slots[key].byFrom else map[]
  }

  /** Whether a response for this range is stored. */
  predicate RangeStored(slots: map<string, Slot>, key: string, fromDate: string, toDate: string) {
    fromDate in RangesAt(slots, key) && toDate in RangesAt(slots, key)[fromDate]
  }

  /** The ranges with one response stored for a from-date and to-date; the other ranges are
      kept. */
  function PutRange(byFrom: map<string, map<string, Response>>, fromDate: string, toDate: string, r: Response)
    : (m: map<string, map<string, Response>>)
    ensures fromDate in m && toDate in m[fromDate] && m[fromDate][toDate] == r
    ensures forall f, t :: f in byFrom && t in byFrom[f] && (f, t) != (fromDate, toDate) ==>
      f in m && t in m[f] && m[f][t] == byFrom[f][t]
    ensures forall f, t :: f in m && t in m[f] ==> (f, t) == (fromDate, toDate) || (f in byFrom && t in byFrom[f])
  {
    byFrom[fromDate := (if fromDate in byFrom then byFrom[fromDate] else map[])[toDate := r]]
  }

  /** The cache of the API module, one dictionary per utility. */
  class CarbonIntensityApi {
    var cache: map<string, map<string, Slot>>
    /** `now.year`, read once when the module is loaded. */
    const currentYear: int

    predicate Valid()
      reads this
    {
      && UtilityNames <= cache.Keys
      && forall u, k :: u in cache && k in cache[u] ==> WellFormedSlot(k, cache[u][k])
    }

    /** Every utility starts with an empty cache. */
    constructor(currentYear: int)
      ensures Valid()
      ensures this.currentYear == currentYear
      ensures cache == map u | u in UtilityNames :: map[]
    {
      this.currentYear := currentYear;
      cache := map u | u in UtilityNames :: map[];
    }

    /** `clearCache`: empties one utility's cache, or adds an empty one under a new name. */
    method ClearCache(utility: string)
      requires Valid()
      modifies this
      ensures Valid()
      ensures cache == old(cache)[utility := map[]]
    {
      cache := cache[utility := map[]];
    }

    /** The cache step shared by the single-response routes: the stored response when there
        is one, otherwise the computed one, stored with `fromCache: true` and returned with
        `false`. */
    method ServeEntry(utility: string, key: string, data: Body) returns (response: Response, invoked: bool)
      requires Valid() && utility in cache && key != HistoricKey && key != PredictionKey
      modifies this
      ensures Valid()
      ensures key in old(cache)[utility] ==>
        && response == old(cache)[utility][key].response && response.fromCache
        && !invoked && cache == old(cache)
      ensures key !in old(cache)[utility] ==>
        && response == Response(data, false) && invoked
        && cache == old(cache)[utility := old(cache)[utility][key := Entry(Response(data, true))]]
    {
      if key in cache[utility] {
        response, invoked := cache[utility][key].response, false;
      } else {
        cache := cache[utility := cache[utility][key := Entry(Response(data, true))]];
        response, invoked := Response(data, false), true;
      }
    }

    /** The cache step shared by the two range routes, under `historical_intensity` or
        `prediction`. */
    method ServeRange(utility: string, key: string, fromDate: string, toDate: string, data: Body)
      returns (response: Response, invoked: bool)
      requires Valid() && utility in cache && (key == HistoricKey || key == PredictionKey)
      modifies this
      ensures Valid()
      ensures RangeStored(old(cache)[utility], key, fromDate, toDate) ==>
        && response == RangesAt(old(cache)[utility], key)[fromDate][toDate] && response.fromCache
        && !invoked && cache == old(cache)
      ensures !RangeStored(old(cache)[utility], key, fromDate, toDate) ==>
        && response == Response(data, false) && invoked
        && cache == old(cache)[utility := old(cache)[utility][key :=
             Ranges(PutRange(RangesAt(old(cache)[utility], key), fromDate, toDate, Response(data, true)))]]
    {
      var slots := cache[utility];
      if RangeStored(slots, key, fromDate, toDate) {
        response, invoked := RangesAt(slots, key)[fromDate][toDate], false;
        assert key in slots && WellFormedSlot(key, slots[key]);
      } else {
        var ranges := PutRange(RangesAt(slots, key), fromDate, toDate, Response(data, true));
        assert WellFormedSlot(key, Ranges(ranges)) by {
          forall f, t | f in ranges && t in ranges[f]
            ensures ranges[f][t].fromCache
          {
            if (f, t) != (fromDate, toDate) {
              assert key in slots && WellFormedSlot(key, slots[key]);
            }
          }
        }
        cache := cache[utility := slots[key := Ranges(ranges)]];
        response, invoked := Response(data, false), true;
      }
    }

    /** `GET /average/{utility}`. */
    method DailyCarbonIntensity(utility: string, data: Output) returns (reply: Reply, invoked: bool)
      requires Valid()
      modifies this
      ensures Valid()
      ensures utility !in UtilityNames ==> reply == BadRequest(BadUtility) && !invoked && cache == old(cache)
      ensures utility in UtilityNames && DailyKey in old(cache)[utility] ==>
        reply == Ok(old(cache)[utility][DailyKey].response) && !invoked && cache == old(cache)
      ensures utility in UtilityNames && DailyKey !in old(cache)[utility] ==>
        && reply == Ok(Response(Summary(data), false)) && invoked
        && cache == old(cache)[utility := old(cache)[utility][DailyKey := Entry(Response(Summary(data), true))]]
    {
      if SelectUtility(utility).None? {
        return BadRequest(BadUtility), false;
      }
      var response;
      response, invoked := ServeEntry(utility, DailyKey, Summary(data));
      reply := Ok(response);
    }

    /** `GET /average/{breakdown}/{utility}`: the utility is checked before the breakdown. */
    method DailyCarbonIntensityWithBreakdown(utility: string, breakdown: string, data: Output)
      returns (reply: Reply, invoked: bool)
      requires Valid()
      modifies this
      ensures Valid()
      ensures utility !in UtilityNames ==> reply == BadRequest(BadUtility) && !invoked && cache == old(cache)
      ensures utility in UtilityNames && breakdown !in BreakdownNames ==>
        reply == BadRequest(BadBreakdown) && !invoked && cache == old(cache)
      ensures utility in UtilityNames && breakdown in BreakdownNames && breakdown in old(cache)[utility] ==>
        reply == Ok(old(cache)[utility][breakdown].response) && !invoked && cache == old(cache)
      ensures utility in UtilityNames && breakdown in BreakdownNames && breakdown !in old(cache)[utility] ==>
        && reply == Ok(Response(Summary(data), false)) && invoked
        && cache == old(cache)[utility := old(cache)[utility][breakdown := Entry(Response(Summary(data), true))]]
    {
      if SelectUtility(utility).None? {
        return BadRequest(BadUtility), false;
      }
      if SelectBreakdown(breakdown).None? {
        return BadRequest(BadBreakdown), false;
      }
      var response;
      response, invoked := ServeEntry(utility, breakdown, Summary(data));
      reply := Ok(response);
    }

    /** `GET /forecast/average/{year}/{utility}`: a year that is not an integer is an
        unhandled error; one outside the fifty-year window a bad request. The response is
        cached under the year string as given. */
    method DailyCarbonIntensityPrediction(utility: string, year: string, data: Output)
      returns (reply: Reply, invoked: bool)
      requires Valid()
      modifies this
      ensures Valid()
      ensures utility !in UtilityNames ==> reply == BadRequest(BadUtility) && !invoked && cache == old(cache)
      ensures utility in UtilityNames && IntParse(year).None? ==> reply == ServerError && !invoked && cache == old(cache)
      ensures utility in UtilityNames && CheckYear(year, currentYear) == OutOfWindow ==>
        reply == BadRequest(BadYear) && !invoked && cache == old(cache)
      ensures utility in UtilityNames && CheckYear(year, currentYear).InWindow? && year in old(cache)[utility] ==>
        reply == Ok(old(cache)[utility][year].response) && !invoked && cache == old(cache)
      ensures utility in UtilityNames && CheckYear(year, currentYear).InWindow? && year !in old(cache)[utility] ==>
        && reply == Ok(Response(Summary(data), false)) && invoked
        && cache == old(cache)[utility := old(cache)[utility][year := Entry(Response(Summary(data), true))]]
    {
      if SelectUtility(utility).None? {
        return BadRequest(BadUtility), false;
      }
      match CheckYear(year, currentYear)
      case NotAnInteger =>
        return ServerError, false;
      case OutOfWindow =>
        return BadRequest(BadYear), false;
      case InWindow(_) =>
        YearKeyIsNotARangeKey(year);
        var response;
        response, invoked := ServeEntry(utility, year, Summary(data));
        reply := Ok(response);
    }

    /** The two date-range routes: utility, then dates, then the cache under `key`; a missing
        to-date means the from-date. */
    method ServeDates(utility: string, key: string, fromDate: string, toDate: Option<string>, data: seq<TimestampRecord>)
      returns (reply: Reply, invoked: bool)
      requires Valid() && (key == HistoricKey || key == PredictionKey)
      modifies this
      ensures Valid()
      ensures utility !in UtilityNames ==> reply == BadRequest(BadUtility) && !invoked && cache == old(cache)
      ensures utility in UtilityNames && ValidateDates(fromDate, toDate) != DatesValid ==>
        reply == BadRequest(DateMessage(ValidateDates(fromDate, toDate))) && !invoked && cache == old(cache)
      ensures utility in UtilityNames && ValidateDates(fromDate, toDate) == DatesValid ==>
        var to := if toDate.Some? then toDate.value else fromDate;
        && (RangeStored(old(cache)[utility], key, fromDate, to) ==>
              reply == Ok(RangesAt(old(cache)[utility], key)[fromDate][to]) && !invoked && cache == old(cache))
        && (!RangeStored(old(cache)[utility], key, fromDate, to) ==>
              && reply == Ok(Response(Series(data), false)) && invoked
              && cache == old(cache)[utility := old(cache)[utility][key :=
                   Ranges(PutRange(RangesAt(old(cache)[utility], key), fromDate, to, Response(Series(data), true)))]])
    {
      if SelectUtility(utility).None? {
        return BadRequest(BadUtility), false;
      }
      var check := ValidateDates(fromDate, toDate);
      if check != DatesValid {
        return BadRequest(DateMessage(check)), false;
      }
      var to := if toDate.Some? then toDate.value else fromDate;
      var response;
      response, invoked := ServeRange(utility, key, fromDate, to, Series(data));
      reply := Ok(response);
    }

    /** `GET /historic/{utility}/{fromDate}[/{toDate}]`. */
    method HistoricalIntensity(utility: string, fromDate: string, toDate: Option<string>, data: seq<TimestampRecord>)
      returns (reply: Reply, invoked: bool)
      requires Valid()
      modifies this
      ensures Valid()
      ensures utility !in UtilityNames ==> reply == BadRequest(BadUtility) && !invoked && cache == old(cache)
      ensures utility in UtilityNames && ValidateDates(fromDate, toDate) != DatesValid ==>
        reply == BadRequest(DateMessage(ValidateDates(fromDate, toDate))) && !invoked && cache == old(cache)
      ensures utility in UtilityNames && ValidateDates(fromDate, toDate) == DatesValid ==>
        var to := if toDate.Some? then toDate.value else fromDate;
        && (RangeStored(old(cache)[utility], HistoricKey, fromDate, to) ==>
              reply == Ok(RangesAt(old(cache)[utility], HistoricKey)[fromDate][to]) && !invoked && cache == old(cache))
        && (!RangeStored(old(cache)[utility], HistoricKey, fromDate, to) ==>
              && reply == Ok(Response(Series(data), false)) && invoked
              && cache == old(cache)[utility := old(cache)[utility][HistoricKey :=
                   Ranges(PutRange(RangesAt(old(cache)[utility], HistoricKey), fromDate, to, Response(Series(data), true)))]])
    {
      reply, invoked := ServeDates(utility, HistoricKey, fromDate, toDate, data);
    }

    /** `GET /forecast/{utility}/{fromDate}[/{toDate}]`. */
    method CarbonIntensityTimeseriesPrediction(utility: string, fromDate: string, toDate: Option<string>, data: seq<TimestampRecord>)
      returns (reply: Reply, invoked: bool)
      requires Valid()
      modifies this
      ensures Valid()
      ensures utility !in UtilityNames ==> reply == BadRequest(BadUtility) && !invoked && cache == old(cache)
      ensures utility in UtilityNames && ValidateDates(fromDate, toDate) != DatesValid ==>
        reply == BadRequest(DateMessage(ValidateDates(fromDate, toDate))) && !invoked && cache == old(cache)
      ensures utility in UtilityNames && ValidateDates(fromDate, toDate) == DatesValid ==>
        var to := if toDate.Some? then toDate.value else fromDate;
        && (RangeStored(old(cache)[utility], PredictionKey, fromDate, to) ==>
              reply == Ok(RangesAt(old(cache)[utility], PredictionKey)[fromDate][to]) && !invoked && cache == old(cache))
        && (!RangeStored(old(cache)[utility], PredictionKey, fromDate, to) ==>
              && reply == Ok(Response(Series(data), false)) && invoked
              && cache == old(cache)[utility := old(cache)[utility][PredictionKey :=
                   Ranges(PutRange(RangesAt(old(cache)[utility], PredictionKey), fromDate, to, Response(Series(data), true)))]])
    {
      reply, invoked := ServeDates(utility, PredictionKey, fromDate, toDate, data);
    }
  }

  /** A forecast year that passes `int()` is never one of the fixed cache keys, so year
      entries, breakdown entries, the daily entry and the two range sections never share a
      key. */
  lemma YearKeyIsNotARangeKey(year: string)
    requires IntParse(year).Some?
    ensures year != DailyKey && year != HistoricKey && year != PredictionKey && year !in BreakdownNames
  {
    IntStartsWithNoLetter(year);
    assert DailyKey[0] == 'd' && HistoricKey[0] == 'h' && PredictionKey[0] == 'p';
    forall k | k in BreakdownNames
      ensures k[0] == 'y' || k[0] == 'm'
    {
    }
  }

  /** A first request computes and stores its response; a repeat of it is answered from the
      cache with the same data and `fromCache: true`, without calling the utility; a request
      for a different route key still computes. */
  method RepeatedRequestScenario(data: Output, other: Output, currentYear: int)
    returns (first: Reply, second: Reply, secondInvoked: bool, third: Reply, thirdInvoked: bool)
    ensures first == Ok(Response(Summary(data), false))
    ensures second == Ok(Response(Summary(data), true)) && !secondInvoked
    ensures third == Ok(Response(Summary(other), false)) && thirdInvoked
  {
    var api := new CarbonIntensityApi(currentYear);
    var invoked;
    first, invoked := api.DailyCarbonIntensity("tepco", data);
    second, secondInvoked := api.DailyCarbonIntensity("tepco", other);
    third, thirdInvoked := api.DailyCarbonIntensityWithBreakdown("tepco", "month", other);
  }

  /** Clearing a utility's cache makes the next request compute again. */
  method ClearCacheScenario(data: Output, recomputed: Output, currentYear: int)
    returns (afterClear: Reply, invoked: bool)
    ensures afterClear == Ok(Response(Summary(recomputed), false)) && invoked
  {
    var api := new CarbonIntensityApi(currentYear);
    var r, i := api.DailyCarbonIntensity("hepco", data);
    api.ClearCache("hepco");
    afterClear, invoked := api.DailyCarbonIntensity("hepco", recomputed);
  }

  /** A historic request without a to-date is cached as the range from that date to itself,
      so the explicit single-day request is then answered from the cache. */
  method SingleDayScenario(day: string, data: seq<TimestampRecord>, other: seq<TimestampRecord>, currentYear: int)
    returns (first: Reply, second: Reply, secondInvoked: bool)
    requires ParseDate(day).Some?
    ensures first == Ok(Response(Series(data), false))
    ensures second == Ok(Response(Series(data), true)) && !secondInvoked
  {
    var api := new CarbonIntensityApi(currentYear);
    var invoked;
    first, invoked := api.HistoricalIntensity("kepco", day, None, data);
    second, secondInvoked := api.HistoricalIntensity("kepco", day, Some(day), other);
  }
}
