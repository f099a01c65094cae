/** What the older per-utility API modules (`utilities/tepco/api.py`,
    `utilities/tohokuden/api.py`) share: three routes (by hour, by month, by month and day of
    week), a module-level `cache` dictionary keyed by route, and the same check-compute-store
    step in each route. */
module LegacyApi {
  import opened UtilityApi

  /** A route's reply: the output object with its `fromCache` flag. */
  datatype Reply = Reply(output: Output, fromCache: bool)

  /** The three routes these modules offer. */
  predicate Offered(b: Breakdown) {
    b == Hourly || b == ByMonth || b == ByMonthAndWeekday
  }

  function RouteSuffix(b: Breakdown): (s: string)
    requires Offered(b)
  {
    match b
    case ByMonth => "_by_month"
    case ByMonthAndWeekday => "_by_month_and_weekday"
    case _ => ""
  }

  /** `_<utility>_daily_intensity`, `..._by_month`, `..._by_month_and_weekday`. */
  function CacheKey(utility: string, b: Breakdown): (k: string)
    requires Offered(b)
  {
    "_" + utility + "_daily_intensity" + RouteSuffix(b)
  }

  /** The three routes of a module never share a cache entry. */
  lemma CacheKeysDistinct(utility: string, b1: Breakdown, b2: Breakdown)
    requires Offered(b1) && Offered(b2) && b1 != b2
    ensures CacheKey(utility, b1) != CacheKey(utility, b2)
  {
    assert |CacheKey(utility, b1)| != |CacheKey(utility, b2)|;
  }

  /** A module's `cache` dictionary. Every stored reply carries `fromCache: true`. */
  class ModuleCache {
    var entries: map<string, Reply>

    predicate Valid()
      reads this
    {
      forall k :: k in entries ==> entries[k].fromCache
    }

    /** The empty dictionary of a freshly imported module. */
    constructor()
      ensures entries == map[] && Valid()
    {
      entries := map[];
    }

    /** The step every route takes: the stored reply when the key is present, otherwise the
        computed output, stored with `fromCache: true` and returned with `false`. `queried`
        says whether the route ran its query. */
    method Serve(key: string, computed: Output) returns (reply: Reply, queried: bool)
      requires Valid()
      modifies this
      ensures Valid()
      ensures key in old(entries) ==>
        reply == old(entries)[key] && reply.fromCache && !queried && entries == old(entries)
      ensures key !in old(entries) ==>
        && reply == Reply(computed, false) && queried
        && entries == old(entries)[key := Reply(computed, true)]
    {
      if key in entries {
        reply, queried := entries[key], false;
      } else {
        entries := entries[key := Reply(computed, true)];
        reply, queried := Reply(computed, false), true;
      }
    }
  }
}
