/** The per-row carbon-intensity expression that every utility's query denotes:
    the sum over sources of (contribution * coefficient), divided by a total. Utilities differ
    in which sources they list, whether pumped storage and interconnectors are clipped to
    their positive part, what the total is, and whether a non-positive total yields 0. */
module Intensity {
  import opened Generation
  import opened Sums

  /** How a net-flow source enters the expression: as stored, or as `if(v > 0, v, 0)`. */
  datatype Policy = Raw | PositiveOnly

  /** The divisor of the ratio. */
  datatype TotalKind =
    | StoredTotal                 // the stored `kWh_total` column
    | SumOfContributions          // the sum of the listed sources' contributions
    | DemandPlusInterconnectors   // `MWh_area_demand + MWh_interconnectors`

  /** One utility's expression. */
  datatype Formula = Formula(
    sources: seq<Source>,
    pumpedStorage: Policy,
    interconnectors: Policy,
    total: TotalKind,
    zeroGuard: bool)

  function PolicyOf(f: Formula, s: Source): Policy {
    if s == PumpedStorage then f.pumpedStorage
    else if s == Interconnectors then f.interconnectors
    else Raw
  }

  /** A volume as the expression uses it. A clipped source never contributes a negative
      amount and contributes exactly its volume when producing. */
  function Contribution(p: Policy, v: real): (c: real)
    ensures p == PositiveOnly ==> c >= 0.0 && (v > 0.0 ==> c == v) && (v <= 0.0 ==> c == 0.0)
    ensures p == Raw ==> c == v
  {
    if p == PositiveOnly && !(v > 0.0) then 0.0 else v
  }

  function SourceContribution(f: Formula, row: GenerationRow, s: Source): real {
    Contribution(PolicyOf(f, s), Volume(row, s))
  }

  /** Setting one source's volume changes that source's contribution only. */
  lemma WithVolumeContribution(f: Formula, row: GenerationRow, s: Source, v: real, t: Source)
    ensures SourceContribution(f, WithVolume(row, s, v), t)
         == if t == s then Contribution(PolicyOf(f, s), v) else SourceContribution(f, row, t)
  {
    var x := Volume(WithVolume(row, s, v), t);
    WithVolumeVolume(row, s, v, t);
    assert SourceContribution(f, WithVolume(row, s, v), t) == Contribution(PolicyOf(f, t), x);
  }

  /** Scaling a row by a positive constant scales every contribution by it. */
  lemma ScaledContribution(f: Formula, row: GenerationRow, s: Source, c: real)
    requires c > 0.0
    ensures SourceContribution(f, Scaled(row, c), s) == Times(c, SourceContribution(f, row, s))
  {
    var x := Volume(Scaled(row, c), s);
    ScaledVolume(row, c, s);
    ContributionScales(PolicyOf(f, s), Volume(row, s), c);
    assert SourceContribution(f, Scaled(row, c), s) == Contribution(PolicyOf(f, s), x);
  }

  /** The factor map has a coefficient for every listed source (the expression reads each
      with `ci[...]`). */
  predicate Covers(factors: map<Source, real>, srcs: seq<Source>) {
    forall s :: s in srcs ==> s in factors
  }

  /** The contributions of the listed sources, in order. */
  function Terms(f: Formula, srcs: seq<Source>, row: GenerationRow): (ks: seq<real>)
    ensures |ks| == |srcs|
  {
    if srcs == [] then [] else [SourceContribution(f, row, srcs[0])] + Terms(f, srcs[1..], row)
  }

  /** Position `i` of the terms is the contribution of the `i`-th listed source. */
  lemma {:induction false} TermsAt(f: Formula, srcs: seq<Source>, row: GenerationRow)
    ensures |Terms(f, srcs, row)| == |srcs|
    ensures forall i :: 0 <= i < |srcs| ==> Terms(f, srcs, row)[i] == SourceContribution(f, row, srcs[i])
  {
    if srcs != [] {
      TermsAt(f, srcs[1..], row);
    }
  }

  /** The coefficients of the listed sources, in order. */
  function Coefficients(srcs: seq<Source>, factors: map<Source, real>): (ys: seq<real>)
    requires Covers(factors, srcs)
    ensures |ys| == |srcs|
    ensures forall i :: 0 <= i < |srcs| ==> ys[i] == factors[srcs[i]]
  {
    seq(|srcs|, i requires 0 <= i < |srcs| => factors[srcs[i]])
  }

  /** The numerator: the sum of contribution times coefficient over the listed sources. */
  function Numerator(f: Formula, row: GenerationRow, factors: map<Source, real>): real
    requires Covers(factors, f.sources)
  {
    Dot(Terms(f, f.sources, row), Coefficients(f.sources, factors))
  }

  /** The generation total computed from the same (clipped) contributions as the numerator. */
  function GenerationTotal(f: Formula, row: GenerationRow): real {
    Sum(Terms(f, f.sources, row))
  }

  function Denominator(f: Formula, row: GenerationRow): real {
    match f.total
    case StoredTotal => row.total
    case SumOfContributions => GenerationTotal(f, row)
    case DemandPlusInterconnectors => row.demand + row.interconnectors
  }

  /** The ratio is defined: either the expression is guarded or the divisor is not zero
      (an unguarded division by zero fails the whole query). */
  predicate Defined(f: Formula, row: GenerationRow) {
    f.zeroGuard || Denominator(f, row) != 0.0
  }

  /** The carbon intensity of one row. A guarded expression gives 0 whenever the total is not
      positive; otherwise the result is the ratio of numerator to total. */
  function RowIntensity(f: Formula, row: GenerationRow, factors: map<Source, real>): (r: real)
    requires Covers(factors, f.sources) && Defined(f, row)
    ensures f.zeroGuard && Denominator(f, row) <= 0.0 ==> r == 0.0
    ensures !(f.zeroGuard && Denominator(f, row) <= 0.0) ==>
      Denominator(f, row) != 0.0 && r * Denominator(f, row) == Numerator(f, row, factors)
  {
    if f.zeroGuard && !(Denominator(f, row) > 0.0) then 0.0
    else Numerator(f, row, factors) / Denominator(f, row)
  }

  // ---------------------------------------------------------------------------------------
  // The nine-source expression written out.

  /** A coefficient for each of the nine sources. */
  predicate HasAllSources(factors: map<Source, real>) {
    && Nuclear in factors && Fossil in factors && Hydro in factors && Geothermal in factors
    && Biomass in factors && Solar in factors && Wind in factors && PumpedStorage in factors
    && Interconnectors in factors
  }

  /** The terms of the nine-source list, position by position. */
  lemma NineTerms(f: Formula, row: GenerationRow)
    requires f.sources == AllSources
    ensures var t := Terms(f, f.sources, row);
      && |t| == 9
      && t[0] == SourceContribution(f, row, Nuclear) && t[1] == SourceContribution(f, row, Fossil)
      && t[2] == SourceContribution(f, row, Hydro) && t[3] == SourceContribution(f, row, Geothermal)
      && t[4] == SourceContribution(f, row, Biomass) && t[5] == SourceContribution(f, row, Solar)
      && t[6] == SourceContribution(f, row, Wind) && t[7] == SourceContribution(f, row, PumpedStorage)
      && t[8] == SourceContribution(f, row, Interconnectors)
  {
    TermsAt(f, f.sources, row);
    assert AllSources[0] == Nuclear && AllSources[1] == Fossil && AllSources[2] == Hydro;
    assert AllSources[3] == Geothermal && AllSources[4] == Biomass && AllSources[5] == Solar;
    assert AllSources[6] == Wind && AllSources[7] == PumpedStorage && AllSources[8] == Interconnectors;
  }

  /** The coefficients of the nine-source list, position by position. */
  lemma NineCoefficients(factors: map<Source, real>)
    requires HasAllSources(factors)
    ensures Covers(factors, AllSources)
    ensures var y := Coefficients(AllSources, factors);
      && |y| == 9
      && y[0] == factors[Nuclear] && y[1] == factors[Fossil] && y[2] == factors[Hydro]
      && y[3] == factors[Geothermal] && y[4] == factors[Biomass] && y[5] == factors[Solar]
      && y[6] == factors[Wind] && y[7] == factors[PumpedStorage] && y[8] == factors[Interconnectors]
  {
    assert AllSources[0] == Nuclear && AllSources[1] == Fossil && AllSources[2] == Hydro;
    assert AllSources[3] == Geothermal && AllSources[4] == Biomass && AllSources[5] == Solar;
    assert AllSources[6] == Wind && AllSources[7] == PumpedStorage && AllSources[8] == Interconnectors;
  }

  /** For the nine-source list the numerator is the term-by-term sum the queries spell out:
      nuclear, fossil, hydro, geothermal, biomass, solar, wind, pumped storage and
      interconnectors, each contribution times its coefficient. */
  lemma NineSourceNumerator(f: Formula, row: GenerationRow, factors: map<Source, real>)
    requires f.sources == AllSources && HasAllSources(factors)
    ensures Numerator(f, row, factors)
         == SourceContribution(f, row, Nuclear) * factors[Nuclear]
          + SourceContribution(f, row, Fossil) * factors[Fossil]
          + SourceContribution(f, row, Hydro) * factors[Hydro]
          + SourceContribution(f, row, Geothermal) * factors[Geothermal]
          + SourceContribution(f, row, Biomass) * factors[Biomass]
          + SourceContribution(f, row, Solar) * factors[Solar]
          + SourceContribution(f, row, Wind) * factors[Wind]
          + SourceContribution(f, row, PumpedStorage) * factors[PumpedStorage]
          + SourceContribution(f, row, Interconnectors) * factors[Interconnectors]
  {
    NineTerms(f, row);
    NineCoefficients(factors);
    SubstituteNine(Terms(f, f.sources, row), Coefficients(f.sources, factors),
      SourceContribution(f, row, Nuclear), SourceContribution(f, row, Fossil),
      SourceContribution(f, row, Hydro), SourceContribution(f, row, Geothermal),
      SourceContribution(f, row, Biomass), SourceContribution(f, row, Solar),
      SourceContribution(f, row, Wind), SourceContribution(f, row, PumpedStorage),
      SourceContribution(f, row, Interconnectors),
      factors[Nuclear], factors[Fossil], factors[Hydro], factors[Geothermal], factors[Biomass],
      factors[Solar], factors[Wind], factors[PumpedStorage], factors[Interconnectors]);
  }

  /** ... and the summed total is the sum of the nine contributions. */
  lemma NineSourceTotal(f: Formula, row: GenerationRow)
    requires f.sources == AllSources
    ensures GenerationTotal(f, row)
         == SourceContribution(f, row, Nuclear) + SourceContribution(f, row, Fossil)
          + SourceContribution(f, row, Hydro) + SourceContribution(f, row, Geothermal)
          + SourceContribution(f, row, Biomass) + SourceContribution(f, row, Solar)
          + SourceContribution(f, row, Wind) + SourceContribution(f, row, PumpedStorage)
          + SourceContribution(f, row, Interconnectors)
  {
    var t := Terms(f, f.sources, row);
    NineTerms(f, row);
    SumNine(t);
  }

  /** A nine-term dot product with its terms and coefficients named. */
  lemma SubstituteNine(t: seq<real>, y: seq<real>,
                       c0: real, c1: real, c2: real, c3: real, c4: real, c5: real, c6: real, c7: real, c8: real,
                       k0: real, k1: real, k2: real, k3: real, k4: real, k5: real, k6: real, k7: real, k8: real)
    requires |t| == |y| == 9
    requires t[0] == c0 && t[1] == c1 && t[2] == c2 && t[3] == c3 && t[4] == c4
    requires t[5] == c5 && t[6] == c6 && t[7] == c7 && t[8] == c8
    requires y[0] == k0 && y[1] == k1 && y[2] == k2 && y[3] == k3 && y[4] == k4
    requires y[5] == k5 && y[6] == k6 && y[7] == k7 && y[8] == k8
    ensures Dot(t, y)
         == c0 * k0 + c1 * k1 + c2 * k2 + c3 * k3 + c4 * k4 + c5 * k5 + c6 * k6 + c7 * k7 + c8 * k8
  {
    DotNine(t, y);
    assert Dot(t, y) == Times(c0, k0) + Times(c1, k1) + Times(c2, k2) + Times(c3, k3) + Times(c4, k4)
                      + Times(c5, k5) + Times(c6, k6) + Times(c7, k7) + Times(c8, k8);
  }

  // ---------------------------------------------------------------------------------------
  // Contribution policy: a clipped source with a negative volume is the same as a zero one.

  /** Under the positive-only policy a negative (pumping or exporting) volume changes neither
      the numerator nor the total relative to a zero volume, so the intensity is the same. */
  lemma ClippedNegativeAsZero(f: Formula, row: GenerationRow, factors: map<Source, real>, s: Source, v: real)
    requires Covers(factors, f.sources)
    requires PolicyOf(f, s) == PositiveOnly && v <= 0.0
    requires f.total != DemandPlusInterconnectors
    ensures Numerator(f, WithVolume(row, s, v), factors) == Numerator(f, WithVolume(row, s, 0.0), factors)
    ensures Denominator(f, WithVolume(row, s, v)) == Denominator(f, WithVolume(row, s, 0.0))
    ensures Defined(f, WithVolume(row, s, 0.0)) ==>
      Defined(f, WithVolume(row, s, v))
      && RowIntensity(f, WithVolume(row, s, v), factors) == RowIntensity(f, WithVolume(row, s, 0.0), factors)
  {
    var r1, r0 := WithVolume(row, s, v), WithVolume(row, s, 0.0);
    forall i | 0 <= i < |f.sources|
      ensures SourceContribution(f, r1, f.sources[i]) == SourceContribution(f, r0, f.sources[i])
    {
      WithVolumeContribution(f, row, s, v, f.sources[i]);
      WithVolumeContribution(f, row, s, 0.0, f.sources[i]);
    }
    TermsAt(f, f.sources, r1);
    TermsAt(f, f.sources, r0);
    assert Terms(f, f.sources, r1) == Terms(f, f.sources, r0);
  }

  // ---------------------------------------------------------------------------------------
  // Without clipping a source enters linearly.

  /** No source is listed twice. */
  predicate Distinct(srcs: seq<Source>) {
    forall i, j :: 0 <= i < j < |srcs| ==> srcs[i] != srcs[j]
  }

  /** Changing the volume of the source listed at position `j` (and nowhere else) changes the
      term at `j` only. */
  lemma OnlyTermAtChanges(f: Formula, row: GenerationRow, s: Source, v: real, j: nat)
    requires Distinct(f.sources) && j < |f.sources| && f.sources[j] == s
    ensures forall i :: 0 <= i < |f.sources| && i != j ==>
      Terms(f, f.sources, WithVolume(row, s, v))[i] == Terms(f, f.sources, WithVolume(row, s, 0.0))[i]
    ensures Terms(f, f.sources, WithVolume(row, s, v))[j] == Contribution(PolicyOf(f, s), v)
    ensures Terms(f, f.sources, WithVolume(row, s, 0.0))[j] == Contribution(PolicyOf(f, s), 0.0)
  {
    var rv, r0 := WithVolume(row, s, v), WithVolume(row, s, 0.0);
    TermsAt(f, f.sources, rv);
    TermsAt(f, f.sources, r0);
    forall i | 0 <= i < |f.sources|
      ensures SourceContribution(f, rv, f.sources[i])
           == if i == j then Contribution(PolicyOf(f, s), v) else SourceContribution(f, r0, f.sources[i])
    {
      WithVolumeContribution(f, row, s, v, f.sources[i]);
      WithVolumeContribution(f, row, s, 0.0, f.sources[i]);
      if i != j {
        assert f.sources[i] != s by {
          if i < j { assert f.sources[i] != f.sources[j]; } else { assert f.sources[j] != f.sources[i]; }
        }
      }
    }
    WithVolumeContribution(f, row, s, 0.0, s);
  }

  /** Rows whose terms differ at position `j` only: numerator and summed total differ by that
      term alone. */
  lemma SumsDifferAt(f: Formula, row1: GenerationRow, row0: GenerationRow, factors: map<Source, real>, j: nat)
    requires Covers(factors, f.sources) && j < |f.sources|
    requires forall i :: 0 <= i < |f.sources| && i != j ==>
      Terms(f, f.sources, row1)[i] == Terms(f, f.sources, row0)[i]
    ensures Numerator(f, row1, factors)
         == Numerator(f, row0, factors)
            + (Terms(f, f.sources, row1)[j] - Terms(f, f.sources, row0)[j]) * factors[f.sources[j]]
    ensures GenerationTotal(f, row1)
         == GenerationTotal(f, row0) + (Terms(f, f.sources, row1)[j] - Terms(f, f.sources, row0)[j])
  {
    DiffersAt(Terms(f, f.sources, row1), Terms(f, f.sources, row0), Coefficients(f.sources, factors), j);
  }

  /** Without clipping, a source listed once enters linearly: changing its volume from 0 to
      `v` adds `v` times its coefficient to the numerator and `v` to the summed total. */
  lemma RawVolumeIsLinear(f: Formula, row: GenerationRow, factors: map<Source, real>, s: Source, v: real)
    requires Covers(factors, f.sources) && Distinct(f.sources) && s in f.sources
    requires PolicyOf(f, s) == Raw
    ensures s in factors
    ensures Numerator(f, WithVolume(row, s, v), factors) == Numerator(f, WithVolume(row, s, 0.0), factors) + v * factors[s]
    ensures GenerationTotal(f, WithVolume(row, s, v)) == GenerationTotal(f, WithVolume(row, s, 0.0)) + v
  {
    var j :| 0 <= j < |f.sources| && f.sources[j] == s;
    var rv, r0 := WithVolume(row, s, v), WithVolume(row, s, 0.0);
    OnlyTermAtChanges(f, row, s, v, j);
    SumsDifferAt(f, rv, r0, factors, j);
    assert Terms(f, f.sources, rv)[j] - Terms(f, f.sources, r0)[j] == v;
  }

  // ---------------------------------------------------------------------------------------
  // The intensity is a ratio: scaling every column by the same positive constant keeps it.

  lemma ContributionScales(p: Policy, v: real, c: real)
    requires c > 0.0
    ensures Contribution(p, Times(c, v)) == Times(c, Contribution(p, v))
  {
    if v <= 0.0 {
      assert c * v <= 0.0 by { assert c * -v >= 0.0; }
    } else {
      assert c * v > 0.0;
    }
  }

  /** If every listed contribution of `row2` is `c` times that of `row`, so is every term. */
  lemma TermsScale(f: Formula, row: GenerationRow, row2: GenerationRow, c: real)
    requires forall i :: 0 <= i < |f.sources| ==>
      SourceContribution(f, row2, f.sources[i]) == Times(c, SourceContribution(f, row, f.sources[i]))
    ensures |Terms(f, f.sources, row2)| == |Terms(f, f.sources, row)| == |f.sources|
    ensures forall i :: 0 <= i < |f.sources| ==> Terms(f, f.sources, row2)[i] == Times(c, Terms(f, f.sources, row)[i])
  {
    TermsAt(f, f.sources, row);
    TermsAt(f, f.sources, row2);
  }

  /** ... and then the numerator is `c` times as large too, ... */
  lemma NumeratorFollowsTerms(f: Formula, row: GenerationRow, row2: GenerationRow, factors: map<Source, real>, c: real)
    requires Covers(factors, f.sources)
    requires forall i :: 0 <= i < |f.sources| ==> Terms(f, f.sources, row2)[i] == Times(c, Terms(f, f.sources, row)[i])
    ensures Numerator(f, row2, factors) == Times(c, Numerator(f, row, factors))
  {
    DotScales(Terms(f, f.sources, row), Terms(f, f.sources, row2), Coefficients(f.sources, factors), c);
  }

  /** ... and so is the summed total. */
  lemma TotalFollowsTerms(f: Formula, row: GenerationRow, row2: GenerationRow, c: real)
    requires forall i :: 0 <= i < |f.sources| ==> Terms(f, f.sources, row2)[i] == Times(c, Terms(f, f.sources, row)[i])
    ensures GenerationTotal(f, row2) == Times(c, GenerationTotal(f, row))
  {
    SumScales(Terms(f, f.sources, row), Terms(f, f.sources, row2), c);
  }

  /** Scaling every volume by a positive constant scales every contribution by it. */
  lemma ContributionsScale(f: Formula, row: GenerationRow, c: real)
    requires c > 0.0
    ensures forall i :: 0 <= i < |f.sources| ==>
      Terms(f, f.sources, Scaled(row, c))[i] == Times(c, Terms(f, f.sources, row)[i])
  {
    var sc := Scaled(row, c);
    forall i | 0 <= i < |f.sources|
      ensures SourceContribution(f, sc, f.sources[i]) == Times(c, SourceContribution(f, row, f.sources[i]))
    {
      ScaledContribution(f, row, f.sources[i], c);
    }
    TermsScale(f, row, sc, c);
  }

  /** Scaling every volume by a positive constant scales the numerator by it. */
  lemma NumeratorScales(f: Formula, row: GenerationRow, factors: map<Source, real>, c: real)
    requires Covers(factors, f.sources) && c > 0.0
    ensures Numerator(f, Scaled(row, c), factors) == Times(c, Numerator(f, row, factors))
  {
    ContributionsScale(f, row, c);
    NumeratorFollowsTerms(f, row, Scaled(row, c), factors, c);
  }

  /** ... and the divisor, whichever it is. */
  lemma DenominatorScales(f: Formula, row: GenerationRow, c: real)
    requires c > 0.0
    ensures Denominator(f, Scaled(row, c)) == Times(c, Denominator(f, row))
  {
    var sc := Scaled(row, c);
    match f.total
    case StoredTotal =>
    case SumOfContributions =>
      ContributionsScale(f, row, c);
      TotalFollowsTerms(f, row, sc, c);
    case DemandPlusInterconnectors =>
      ScaleSumStep(c, row.demand, row.interconnectors, Denominator(f, row), Denominator(f, sc));
  }

  /** Scaling every volume (and the stored total and demand) by the same positive constant
      leaves the intensity of a row unchanged. */
  lemma ScaleInvariant(f: Formula, row: GenerationRow, factors: map<Source, real>, c: real)
    requires Covers(factors, f.sources) && Defined(f, row) && c > 0.0
    ensures Defined(f, Scaled(row, c))
    ensures RowIntensity(f, Scaled(row, c), factors) == RowIntensity(f, row, factors)
  {
    var sc := Scaled(row, c);
    NumeratorScales(f, row, factors, c);
    DenominatorScales(f, row, c);
    RatioScales(c, Numerator(f, row, factors), Denominator(f, row), Numerator(f, sc, factors), Denominator(f, sc));
  }

  /** `(c n) / (c d) = n / d`, and `c d` has the sign of `d`. */
  lemma RatioScales(c: real, n: real, d: real, n2: real, d2: real)
    requires c > 0.0 && n2 == Times(c, n) && d2 == Times(c, d)
    ensures d <= 0.0 <==> d2 <= 0.0
    ensures d != 0.0 ==> d2 != 0.0 && n2 / d2 == n / d
  {
    if d <= 0.0 {
      assert c * d <= 0.0 by { assert c * -d >= 0.0; }
    } else {
      assert c * d > 0.0;
    }
    if d != 0.0 {
      var q := n / d;
      assert q * d == n;
      assert n2 == q * d2;
      assert n2 / d2 == q;
    }
  }

  // ---------------------------------------------------------------------------------------
  // The intensity is a weighted mean of the coefficients.

  /** When the total is the sum of the contributions and no listed source contributes a
      negative amount, a row's intensity lies between the smallest and the largest
      coefficient of the listed sources. */
  lemma IntensityWithinFactorRange(f: Formula, row: GenerationRow, factors: map<Source, real>, lo: real, hi: real)
    requires Covers(factors, f.sources) && f.total == SumOfContributions
    requires forall s :: s in f.sources ==> SourceContribution(f, row, s) >= 0.0
    requires forall s :: s in f.sources ==> lo <= factors[s] <= hi
    requires GenerationTotal(f, row) > 0.0
    ensures Defined(f, row)
    ensures lo <= RowIntensity(f, row, factors) <= hi
  {
    var t, y := Terms(f, f.sources, row), Coefficients(f.sources, factors);
    TermsAt(f, f.sources, row);
    forall i | 0 <= i < |t|
      ensures t[i] >= 0.0 && lo <= y[i] <= hi
    {
      assert f.sources[i] in f.sources;
    }
    DotBounds(t, y, lo, hi);
    RatioBounds(Numerator(f, row, factors), GenerationTotal(f, row), lo, hi);
  }

  /** `lo d <= n <= hi d` with `d > 0` gives `lo <= n / d <= hi`. */
  lemma RatioBounds(n: real, d: real, lo: real, hi: real)
    requires d > 0.0 && Times(lo, d) <= n <= Times(hi, d)
    ensures lo <= n / d <= hi
  {
    assert n / d * d == n;
    if n / d < lo {
      MulLeft(d, n / d, lo);
    }
    if n / d > hi {
      MulLeft(d, hi, n / d);
    }
  }

  // ---------------------------------------------------------------------------------------
  // A clipped source whose coefficient is zero only enlarges the total.

  /** With a zero coefficient and the positive-only policy, output from source `s` adds to the
      total but not to the numerator, so it never raises a non-negative intensity. */
  lemma ZeroFactorSourceNeverRaises(f: Formula, row: GenerationRow, factors: map<Source, real>, s: Source, v: real)
    requires Covers(factors, f.sources) && s in factors && factors[s] == 0.0
    requires PolicyOf(f, s) == PositiveOnly && f.total == SumOfContributions && v >= 0.0
    requires GenerationTotal(f, WithVolume(row, s, 0.0)) > 0.0
    requires Numerator(f, WithVolume(row, s, 0.0), factors) >= 0.0
    ensures Numerator(f, WithVolume(row, s, v), factors) == Numerator(f, WithVolume(row, s, 0.0), factors)
    ensures GenerationTotal(f, WithVolume(row, s, v)) >= GenerationTotal(f, WithVolume(row, s, 0.0))
    ensures Defined(f, WithVolume(row, s, 0.0)) && Defined(f, WithVolume(row, s, v))
    ensures RowIntensity(f, WithVolume(row, s, v), factors) <= RowIntensity(f, WithVolume(row, s, 0.0), factors)
  {
    var rv, r0 := WithVolume(row, s, v), WithVolume(row, s, 0.0);
    var tv, t0, y := Terms(f, f.sources, rv), Terms(f, f.sources, r0), Coefficients(f.sources, factors);
    TermsAt(f, f.sources, rv);
    TermsAt(f, f.sources, r0);
    forall i | 0 <= i < |f.sources|
      ensures tv[i] == t0[i] || (y[i] == 0.0 && tv[i] >= t0[i])
    {
      WithVolumeContribution(f, row, s, v, f.sources[i]);
      WithVolumeContribution(f, row, s, 0.0, f.sources[i]);
    }
    GrowsWhereZero(tv, t0, y);
    RatioShrinks(Numerator(f, r0, factors), GenerationTotal(f, r0), GenerationTotal(f, rv));
  }

  /** A non-negative numerator over a larger positive divisor gives a smaller ratio. */
  lemma RatioShrinks(n: real, d0: real, dv: real)
    requires n >= 0.0 && dv >= d0 > 0.0
    ensures n / dv <= n / d0
  {
    assert n / dv * dv == n;
    assert n / d0 * d0 == n;
    assert n / dv >= 0.0;
    MulLeft(n / dv, d0, dv);
    if n / dv > n / d0 {
      MulLeft(d0, n / d0, n / dv);
    }
  }
}
