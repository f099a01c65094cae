/** Resolution of one emission coefficient (g CO2/kWh) per generation source from a
    baseline fuel-factor feed and a utility's thermal (lng/oil/coal) weights. */
module Factors {
  import opened Wrappers
  import opened Generation

  /** One record of the baseline factor feed (`data[0]` of the UK factors response), keyed by
      fuel name: "Nuclear", "Coal", "Oil", "Gas (Open Cycle)", "Hydro", ... */
  type Feed = map<string, real>

  /** The resolved coefficients, keyed by generation source. */
  type FactorMap = map<Source, real>

  /** Relative capacities (or shares) of a utility's LNG, oil and coal plant. */
  datatype FuelWeights = FuelWeights(lng: real, oil: real, coal: real)

  /** Weights usable as a weighted mean: none negative and a positive sum. Every weight table
      in the source is a positive constant. */
  predicate ValidWeights(w: FuelWeights) {
    w.lng >= 0.0 && w.oil >= 0.0 && w.coal >= 0.0 && w.lng + w.oil + w.coal > 0.0
  }

  function Min3(a: real, b: real, c: real): real {
    if a <= b && a <= c then a else if b <= c then b else c
  }

  function Max3(a: real, b: real, c: real): real {
    if a >= b && a >= c then a else if b >= c then b else c
  }

  /** The fossil coefficient: the coal, oil and open-cycle-gas baselines averaged with the
      coal, oil and lng weights. Being a weighted mean, it lies between the smallest and the
      largest of the three baselines. */
  function FossilFactor(coal: real, oil: real, gas: real, w: FuelWeights): (f: real)
    requires ValidWeights(w)
    ensures Min3(coal, oil, gas) <= f <= Max3(coal, oil, gas)
  {
    FossilFactorIsWeightedMean(coal, oil, gas, w);
    (coal * w.coal + oil * w.oil + gas * w.lng) / (w.lng + w.oil + w.coal)
  }

  /** The weighted sum of the baselines is bracketed by the smallest and largest baseline
      times the total weight. */
  lemma FossilFactorIsWeightedMean(coal: real, oil: real, gas: real, w: FuelWeights)
    requires ValidWeights(w)
    ensures var t := w.lng + w.oil + w.coal;
      var f := (coal * w.coal + oil * w.oil + gas * w.lng) / t;
      Min3(coal, oil, gas) <= f <= Max3(coal, oil, gas)
  {
    var lo, hi := Min3(coal, oil, gas), Max3(coal, oil, gas);
    WeightedSumAbove(coal, oil, gas, w, lo);
    WeightedSumBelow(coal, oil, gas, w, hi);
    QuotientBetween(coal * w.coal + oil * w.oil + gas * w.lng, w.lng + w.oil + w.coal, lo, hi);
  }

  /** Baselines no smaller than `lo` give a weighted sum no smaller than `lo` times the total
      weight. */
  lemma WeightedSumAbove(coal: real, oil: real, gas: real, w: FuelWeights, lo: real)
    requires ValidWeights(w) && lo <= coal && lo <= oil && lo <= gas
    ensures lo * (w.lng + w.oil + w.coal) <= coal * w.coal + oil * w.oil + gas * w.lng
  {
    NonNegativeProduct(coal - lo, w.coal);
    NonNegativeProduct(oil - lo, w.oil);
    NonNegativeProduct(gas - lo, w.lng);
    assert coal * w.coal + oil * w.oil + gas * w.lng - lo * (w.lng + w.oil + w.coal)
        == (coal - lo) * w.coal + (oil - lo) * w.oil + (gas - lo) * w.lng;
  }

  /** Baselines no larger than `hi` give a weighted sum no larger than `hi` times the total
      weight. */
  lemma WeightedSumBelow(coal: real, oil: real, gas: real, w: FuelWeights, hi: real)
    requires ValidWeights(w) && coal <= hi && oil <= hi && gas <= hi
    ensures coal * w.coal + oil * w.oil + gas * w.lng <= hi * (w.lng + w.oil + w.coal)
  {
    NonNegativeProduct(hi - coal, w.coal);
    NonNegativeProduct(hi - oil, w.oil);
    NonNegativeProduct(hi - gas, w.lng);
    assert hi * (w.lng + w.oil + w.coal) - (coal * w.coal + oil * w.oil + gas * w.lng)
        == (hi - coal) * w.coal + (hi - oil) * w.oil + (hi - gas) * w.lng;
  }

  lemma NonNegativeProduct(a: real, b: real)
    requires a >= 0.0 && b >= 0.0
    ensures a * b >= 0.0
  {
  }

  /** Dividing by a positive total keeps a value between the same multiples. */
  lemma QuotientBetween(s: real, t: real, lo: real, hi: real)
    requires t > 0.0 && lo * t <= s <= hi * t
    ensures lo <= s / t <= hi
  {
    var q := s / t;
    assert q * t == s;
    assert (q - lo) * t >= 0.0;
    assert (hi - q) * t >= 0.0;
  }

  /** Where a utility's pumped-storage coefficient comes from. */
  datatype PumpedStorageFactor = FromFeed | Fixed(value: real)

  /** What distinguishes one utility's `get_carbon_intensity_factors` from another's. */
  datatype FactorPolicy = FactorPolicy(
    weights: FuelWeights,
    pumpedStorage: PumpedStorageFactor,
    interconnectors: real)

  /** The feed entries a resolution reads; reading any other one is never attempted. */
  function RequiredKeys(p: FactorPolicy): set<string> {
    {"Nuclear", "Coal", "Oil", "Gas (Open Cycle)", "Hydro", "Biomass", "Solar", "Wind"}
    + (if p.pumpedStorage.FromFeed? then {"Pumped Storage"} else {})
  }

  /** All nine sources as a set. */
  const AllSourceSet: set<Source> := set s | s in AllSources

  /** Resolves the factor map from a feed record; `None` when an entry the resolution reads is
      absent (the source raises `KeyError`). On success every source has a coefficient. */
  function Resolve(feed: Feed, p: FactorPolicy): (r: Option<FactorMap>)
    requires ValidWeights(p.weights)
    ensures r.Some? <==> RequiredKeys(p) <= feed.Keys
    ensures r.Some? ==> r.value.Keys == AllSourceSet
  {
    if RequiredKeys(p) <= feed.Keys then
      Some(map[
        Nuclear := feed["Nuclear"],
        Fossil := FossilFactor(feed["Coal"], feed["Oil"], feed["Gas (Open Cycle)"], p.weights),
        Hydro := feed["Hydro"],
        Geothermal := 0.0,
        Biomass := feed["Biomass"],
        Solar := feed["Solar"],
        Wind := feed["Wind"],
        PumpedStorage := (match p.pumpedStorage
                          case FromFeed => feed["Pumped Storage"]
                          case Fixed(v) => v),
        Interconnectors := p.interconnectors])
    else
      None
  }

  /** What a successful resolution promises: geothermal is always 0 and interconnectors the
      policy's constant whatever the feed says; nuclear, hydro, biomass, solar and wind are
      copied unchanged from the feed; pumped storage is copied or fixed per policy; fossil is
      the weighted mean of coal, oil and open-cycle gas, so it lies between them. */
  lemma ResolvedFactors(feed: Feed, p: FactorPolicy)
    requires ValidWeights(p.weights)
    requires RequiredKeys(p) <= feed.Keys
    ensures var m := Resolve(feed, p).value;
      && m[Geothermal] == 0.0
      && m[Interconnectors] == p.interconnectors
      && m[Nuclear] == feed["Nuclear"]
      && m[Hydro] == feed["Hydro"]
      && m[Biomass] == feed["Biomass"]
      && m[Solar] == feed["Solar"]
      && m[Wind] == feed["Wind"]
      && (p.pumpedStorage.FromFeed? ==> m[PumpedStorage] == feed["Pumped Storage"])
      && (p.pumpedStorage.Fixed? ==> m[PumpedStorage] == p.pumpedStorage.value)
      && m[Fossil] * (p.weights.lng + p.weights.oil + p.weights.coal)
         == feed["Coal"] * p.weights.coal + feed["Oil"] * p.weights.oil
            + feed["Gas (Open Cycle)"] * p.weights.lng
      && Min3(feed["Coal"], feed["Oil"], feed["Gas (Open Cycle)"]) <= m[Fossil]
      && m[Fossil] <= Max3(feed["Coal"], feed["Oil"], feed["Gas (Open Cycle)"])
  {
    var coal, oil, gas := feed["Coal"], feed["Oil"], feed["Gas (Open Cycle)"];
    assert Resolve(feed, p).value[Fossil] == FossilFactor(coal, oil, gas, p.weights);
    FossilFactorTimesWeight(coal, oil, gas, p.weights);
  }

  /** The fossil coefficient times the total weight is the weighted sum of the baselines. */
  lemma FossilFactorTimesWeight(coal: real, oil: real, gas: real, w: FuelWeights)
    requires ValidWeights(w)
    ensures FossilFactor(coal, oil, gas, w) * (w.lng + w.oil + w.coal)
         == coal * w.coal + oil * w.oil + gas * w.lng
  {
    var t := w.lng + w.oil + w.coal;
    var s := coal * w.coal + oil * w.oil + gas * w.lng;
    assert s / t * t == s;
  }

  /** Resolution reads nothing but the required entries: two feeds that agree on them give
      the same factors (the feed's other entries, such as imports, are ignored). */
  lemma ResolveReadsOnlyRequiredKeys(feed1: Feed, feed2: Feed, p: FactorPolicy)
    requires ValidWeights(p.weights)
    requires RequiredKeys(p) <= feed1.Keys && RequiredKeys(p) <= feed2.Keys
    requires forall k :: k in RequiredKeys(p) ==> feed1[k] == feed2[k]
    ensures Resolve(feed1, p) == Resolve(feed2, p)
  {
    assert "Pumped Storage" in RequiredKeys(p) <==> p.pumpedStorage.FromFeed?;
    assert feed1["Nuclear"] == feed2["Nuclear"];
    assert feed1["Coal"] == feed2["Coal"] && feed1["Oil"] == feed2["Oil"];
    assert feed1["Gas (Open Cycle)"] == feed2["Gas (Open Cycle)"];
    assert feed1["Hydro"] == feed2["Hydro"] && feed1["Biomass"] == feed2["Biomass"];
    assert feed1["Solar"] == feed2["Solar"] && feed1["Wind"] == feed2["Wind"];
  }
}
