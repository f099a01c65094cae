/** The grouped queries behind every `daily_intensity*` endpoint and the reshaping of their
    result rows into nested JSON.

    A query groups per-interval intensities by some calendar columns and the hour, averages
    each group (`AVG`) and orders the groups by those columns (`ORDER BY ..., hour`). The
    result rows are then nested with `groupby(col).apply(...).to_dict()`: one level per
    grouping column, ascending keys, and at the bottom a list of `{hour, carbon_intensity}`
    records in query order. */
module Aggregation {
  import opened Wrappers
  import opened Sums

  // ---------------------------------------------------------------------------------------
  // Grouped averages.

  /** A calendar column a query may group by (besides the hour, which every query groups by
      last). Day-of-week numbering is taken as given by the query engine. */
  datatype Dim = Year | Month | DayOfWeek

  /** One interval of generation data with its calendar fields and its per-row intensity. */
  datatype Sample = Sample(year: int, month: int, dayofweek: int, hour: int, intensity: real)

  function Field(s: Sample, d: Dim): int {
    match d
    case Year => s.year
    case Month => s.month
    case DayOfWeek => s.dayofweek
  }

  /** The values of a sample's grouping columns, in `ORDER BY` order. */
  function Key(s: Sample, dims: seq<Dim>): (k: seq<int>)
    ensures |k| == |dims| && forall i :: 0 <= i < |dims| ==> k[i] == Field(s, dims[i])
  {
    seq(|dims|, i requires 0 <= i < |dims| => Field(s, dims[i]))
  }

  /** One result row of a grouped query: the grouping columns, the hour and the average. */
  datatype Row = Row(cols: seq<int>, hour: int, intensity: real)

  /** The intensities of the samples in group `(cols, hour)`, in input order. */
  function GroupIntensities(samples: seq<Sample>, dims: seq<Dim>, cols: seq<int>, hour: int): seq<real> {
    if samples == [] then []
    else
      (if Key(samples[0], dims) == cols && samples[0].hour == hour then [samples[0].intensity] else [])
      + GroupIntensities(samples[1..], dims, cols, hour)
  }

  /** Lexicographic order on integer sequences (a proper prefix comes first). */
  predicate LexLess(a: seq<int>, b: seq<int>) {
    if a == [] then b != []
    else if b == [] then false
    else a[0] < b[0] || (a[0] == b[0] && LexLess(a[1..], b[1..]))
  }

  /** `ORDER BY cols..., hour`. */
  predicate RowLess(r1: Row, r2: Row) {
    LexLess(r1.cols + [r1.hour], r2.cols + [r2.hour])
  }

  predicate StrictlySorted(rows: seq<Row>) {
    forall i, j :: 0 <= i < j < |rows| ==> RowLess(rows[i], rows[j])
  }

  /** `rows` is the result of `SELECT dims..., hour, AVG(intensity) GROUP BY dims..., hour
      ORDER BY dims..., hour` over `samples`: one row per non-empty group, in ascending key
      order, each carrying the arithmetic mean of its group's per-row intensities. */
  predicate Answers(samples: seq<Sample>, dims: seq<Dim>, rows: seq<Row>) {
    && (forall i :: 0 <= i < |rows| ==> |rows[i].cols| == |dims|)
    && StrictlySorted(rows)
    && (forall i :: 0 <= i < |rows| ==>
          GroupIntensities(samples, dims, rows[i].cols, rows[i].hour) != []
          && rows[i].intensity == Mean(GroupIntensities(samples, dims, rows[i].cols, rows[i].hour)))
    && (forall s :: s in samples ==>
          exists i :: 0 <= i < |rows| && rows[i].cols == Key(s, dims) && rows[i].hour == s.hour)
  }

  /** Every intensity of a group belongs to a sample of the input. */
  lemma {:induction false} GroupIntensitiesFromSamples(samples: seq<Sample>, dims: seq<Dim>, cols: seq<int>, hour: int)
    ensures forall v :: v in GroupIntensities(samples, dims, cols, hour) ==>
      exists s :: s in samples && s.intensity == v
  {
    if samples != [] {
      GroupIntensitiesFromSamples(samples[1..], dims, cols, hour);
      forall v | v in GroupIntensities(samples[1..], dims, cols, hour)
        ensures exists s :: s in samples && s.intensity == v
      {
        var s :| s in samples[1..] && s.intensity == v;
        assert s in samples;
      }
    }
  }

  /** A sample's intensity is among those of its own group. */
  lemma {:induction false} SampleInOwnGroup(samples: seq<Sample>, dims: seq<Dim>, i: nat)
    requires i < |samples|
    ensures samples[i].intensity in GroupIntensities(samples, dims, Key(samples[i], dims), samples[i].hour)
  {
    if i > 0 {
      SampleInOwnGroup(samples[1..], dims, i - 1);
    }
  }

  /** A group's value is an average of row intensities, not a ratio of summed volumes: when
      every interval's intensity lies in `[lo, hi]`, so does every group's. */
  lemma GroupMeanWithinBounds(samples: seq<Sample>, dims: seq<Dim>, rows: seq<Row>, lo: real, hi: real)
    requires Answers(samples, dims, rows)
    requires forall s :: s in samples ==> lo <= s.intensity <= hi
    ensures forall i :: 0 <= i < |rows| ==> lo <= rows[i].intensity <= hi
  {
    forall i | 0 <= i < |rows|
      ensures lo <= rows[i].intensity <= hi
    {
      var g := GroupIntensities(samples, dims, rows[i].cols, rows[i].hour);
      GroupIntensitiesFromSamples(samples, dims, rows[i].cols, rows[i].hour);
      forall j | 0 <= j < |g|
        ensures lo <= g[j] <= hi
      {
        assert g[j] in g;
      }
      MeanBounds(g, lo, hi);
    }
  }

  // ---------------------------------------------------------------------------------------
  // Nested output.

  /** `{"hour": h, "carbon_intensity": v}`. */
  datatype Record = Record(hour: int, intensity: real)

  /** A JSON value built by `to_dict`: a list of records, or an object whose keys are the
      values of one grouping column in the order they are emitted. */
  datatype Nested = Leaf(records: seq<Record>) | Branch(groups: seq<Group>)
  datatype Group = Group(key: int, value: Nested)

  /** `df[['hour', 'carbon_intensity']].to_dict('records')`. */
  function Records(rows: seq<Row>): (rs: seq<Record>)
    ensures |rs| == |rows|
  {
    if rows == [] then [] else [Record(rows[0].hour, rows[0].intensity)] + Records(rows[1..])
  }

  lemma {:induction false} RecordsAt(rows: seq<Row>)
    ensures forall i :: 0 <= i < |rows| ==>
      Records(rows)[i] == Record(rows[i].hour, rows[i].intensity)
  {
    if rows != [] {
      RecordsAt(rows[1..]);
    }
  }

  predicate MinCols(rows: seq<Row>, n: nat) {
    forall i :: 0 <= i < |rows| ==> |rows[i].cols| >= n
  }

  predicate Ascending(ks: seq<int>) {
    forall i, j :: 0 <= i < j < |ks| ==> ks[i] < ks[j]
  }

  /** Adds `x` to an ascending key list unless it is already there. */
  function Insert(x: int, ks: seq<int>): (r: seq<int>)
    requires Ascending(ks)
    ensures Ascending(r)
    ensures forall y :: y in r <==> y == x || y in ks
  {
    if ks == [] then [x]
    else if x < ks[0] then
      AscendingBelow(ks);
      AscendingCons(x, ks);
      [x] + ks
    else if x == ks[0] then ks
    else
      AscendingBelow(ks);
      var rest := Insert(x, ks[1..]);
      AscendingCons(ks[0], rest);
      [ks[0]] + rest
  }

  /** The tail of an ascending list is ascending and above its head. */
  lemma AscendingBelow(ks: seq<int>)
    requires Ascending(ks) && ks != []
    ensures Ascending(ks[1..])
    ensures forall y :: y in ks[1..] ==> ks[0] < y
    ensures forall y :: y in ks <==> y == ks[0] || y in ks[1..]
  {
    forall y | y in ks[1..]
      ensures ks[0] < y
    {
      var j :| 0 <= j < |ks[1..]| && ks[1..][j] == y;
      assert ks[j + 1] == y;
    }
    assert ks == [ks[0]] + ks[1..];
  }

  /** A key below every key of an ascending list may go in front of it. */
  lemma AscendingCons(x: int, ks: seq<int>)
    requires Ascending(ks) && forall y :: y in ks ==> x < y
    ensures Ascending([x] + ks)
    ensures forall y :: y in [x] + ks <==> y == x || y in ks
  {
    var r := [x] + ks;
    forall i, j | 0 <= i < j < |r|
      ensures r[i] < r[j]
    {
      assert r[j] == ks[j - 1];
      if i == 0 {
        assert ks[j - 1] in ks;
      } else {
        assert r[i] == ks[i - 1];
      }
    }
  }

  /** The distinct values of `xs` in ascending order (the group keys `groupby` sorts). */
  function SortedDistinct(xs: seq<int>): (r: seq<int>)
    ensures Ascending(r)
    ensures forall y :: y in r <==> y in xs
  {
    if xs == [] then [] else Insert(xs[0], SortedDistinct(xs[1..]))
  }

  /** The first grouping column of every row. */
  function Heads(rows: seq<Row>): (hs: seq<int>)
    requires MinCols(rows, 1)
    ensures |hs| == |rows| && forall i :: 0 <= i < |rows| ==> hs[i] == rows[i].cols[0]
  {
    seq(|rows|, i requires 0 <= i < |rows| => rows[i].cols[0])
  }

  /** The rows whose first grouping column is `k`, with that column dropped, in order. */
  function Sub(rows: seq<Row>, k: int): seq<Row>
    requires MinCols(rows, 1)
  {
    if rows == [] then []
    else
      (if rows[0].cols[0] == k then [rows[0].(cols := rows[0].cols[1..])] else [])
      + Sub(rows[1..], k)
  }

  lemma {:induction false} SubMinCols(rows: seq<Row>, k: int, n: nat)
    requires MinCols(rows, n + 1)
    ensures MinCols(Sub(rows, k), n)
  {
    if rows != [] {
      SubMinCols(rows[1..], k, n);
    }
  }

  /** A key has a non-empty group exactly when some row starts with it. */
  lemma {:induction false} SubNonEmpty(rows: seq<Row>, k: int)
    requires MinCols(rows, 1)
    ensures Sub(rows, k) != [] <==> k in Heads(rows)
  {
    if rows != [] {
      SubNonEmpty(rows[1..], k);
      assert Heads(rows) == [rows[0].cols[0]] + Heads(rows[1..]);
    }
  }

  /** `groupby(col_1).apply(... groupby(col_depth).apply(records) ...).to_dict()`. */
  function Reshape(depth: nat, rows: seq<Row>): Nested
    requires MinCols(rows, depth)
  {
    if depth == 0 then Leaf(Records(rows))
    else
      var ks := SortedDistinct(Heads(rows));
      Branch(seq(|ks|, i requires 0 <= i < |ks| =>
        SubMinCols(rows, ks[i], depth - 1);
        Group(ks[i], Reshape(depth - 1, Sub(rows, ks[i])))))
  }

  /** The value under key `k` of an object (the first such group). */
  function Find(gs: seq<Group>, k: int): Option<Nested> {
    if gs == [] then None
    else if gs[0].key == k then Some(gs[0].value)
    else Find(gs[1..], k)
  }

  /** Follows a path of keys down a nested value: `out[p0][p1]...`. */
  function Lookup(n: Nested, path: seq<int>): Option<Nested>
    decreases |path|
  {
    if path == [] then Some(n)
    else match n
      case Leaf(_) => None
      case Branch(gs) =>
        match Find(gs, path[0])
        case None => None
        case Some(c) => Lookup(c, path[1..])
  }

  lemma {:induction false} FindSome(gs: seq<Group>, k: int)
    ensures Find(gs, k).Some? <==> exists i :: 0 <= i < |gs| && gs[i].key == k
    ensures Find(gs, k).Some? ==> exists i :: 0 <= i < |gs| && gs[i].key == k && gs[i].value == Find(gs, k).value
  {
    if gs != [] {
      FindSome(gs[1..], k);
      if gs[0].key != k && Find(gs, k).Some? {
        var i :| 0 <= i < |gs[1..]| && gs[1..][i].key == k && gs[1..][i].value == Find(gs, k).value;
        assert gs[i + 1] == gs[1..][i];
      }
      if exists i :: 0 <= i < |gs| && gs[i].key == k {
        var i :| 0 <= i < |gs| && gs[i].key == k;
        if i > 0 {
          assert gs[1..][i - 1].key == k;
        }
      }
    }
  }

  /** The rows whose leading grouping columns are `p`, in order. */
  predicate Prefixed(r: Row, p: seq<int>) {
    |p| <= |r.cols| && r.cols[..|p|] == p
  }

  function Select(rows: seq<Row>, p: seq<int>): (sel: seq<Row>)
    ensures |sel| <= |rows|
  {
    if rows == [] then []
    else (if Prefixed(rows[0], p) then [rows[0]] else []) + Select(rows[1..], p)
  }

  lemma {:induction false} SelectNothing(rows: seq<Row>)
    ensures Select(rows, []) == rows
  {
    if rows != [] {
      SelectNothing(rows[1..]);
      assert rows[0].cols[..0] == [];
    }
  }

  /** A row starts with `[k] + q` exactly when its first column is `k` and the rest starts
      with `q`. */
  lemma PrefixedTail(r: Row, k: int, q: seq<int>)
    requires |r.cols| >= 1
    ensures Prefixed(r, [k] + q) <==> r.cols[0] == k && Prefixed(r.(cols := r.cols[1..]), q)
  {
    if |q| + 1 <= |r.cols| {
      var a, x := r.cols[0], r.cols[1..][..|q|];
      assert r.cols[..|q| + 1] == [a] + x;
      if [a] + x == [k] + q {
        assert ([a] + x)[0] == a && ([a] + x)[1..] == x;
        assert ([k] + q)[0] == k && ([k] + q)[1..] == q;
      }
    }
  }

  /** Selecting `q` below key `k` picks the same records as selecting `[k] + q` at the top. */
  lemma {:induction false} SelectSub(rows: seq<Row>, k: int, q: seq<int>)
    requires MinCols(rows, 1)
    ensures Records(Select(Sub(rows, k), q)) == Records(Select(rows, [k] + q))
  {
    if rows != [] {
      SelectSub(rows[1..], k, q);
      var r := rows[0];
      var tail := r.(cols := r.cols[1..]);
      PrefixedTail(r, k, q);
      var restSub := Sub(rows[1..], k);
      if r.cols[0] == k {
        var sub := [tail] + restSub;
        assert Sub(rows, k) == sub;
        assert sub[0] == tail && sub[1..] == restSub;
        assert Select(sub, q) == (if Prefixed(tail, q) then [tail] else []) + Select(restSub, q);
        if Prefixed(tail, q) {
          var a, b := [tail] + Select(restSub, q), [r] + Select(rows[1..], [k] + q);
          assert a[0] == tail && a[1..] == Select(restSub, q);
          assert b[0] == r && b[1..] == Select(rows[1..], [k] + q);
          assert Records(a) == [Record(r.hour, r.intensity)] + Records(Select(restSub, q));
          assert Records(b) == [Record(r.hour, r.intensity)] + Records(Select(rows[1..], [k] + q));
        } else {
          assert Select(sub, q) == Select(restSub, q);
          assert Select(rows, [k] + q) == Select(rows[1..], [k] + q);
        }
      } else {
        assert Sub(rows, k) == restSub;
        assert Select(rows, [k] + q) == Select(rows[1..], [k] + q);
      }
    }
  }

  /** The object built at a positive depth has key `k` exactly when some row starts with
      `k`, and its value there is the nesting of those rows. */
  lemma FindInReshape(depth: nat, rows: seq<Row>, k: int)
    requires depth > 0 && MinCols(rows, depth)
    ensures MinCols(Sub(rows, k), depth - 1)
    ensures Reshape(depth, rows).Branch?
    ensures Find(Reshape(depth, rows).groups, k)
         == if Sub(rows, k) != [] then Some(Reshape(depth - 1, Sub(rows, k))) else None
  {
    SubMinCols(rows, k, depth - 1);
    SubNonEmpty(rows, k);
    var ks := SortedDistinct(Heads(rows));
    var gs := Reshape(depth, rows).groups;
    assert |gs| == |ks|;
    assert forall i :: 0 <= i < |ks| ==> gs[i].key == ks[i];
    FindSome(gs, k);
    if k in Heads(rows) {
      var j :| 0 <= j < |ks| && ks[j] == k;
      assert gs[j].key == k;
    }
    if Find(gs, k).Some? {
      var i :| 0 <= i < |gs| && gs[i].key == k && gs[i].value == Find(gs, k).value;
      assert ks[i] == k;
    }
  }

  /** Where a path of full depth leads: to the list of records of exactly the rows whose
      grouping columns start with that path, in query order; to nothing when no row does. */
  lemma {:induction false} LookupReshape(depth: nat, rows: seq<Row>, p: seq<int>)
    requires MinCols(rows, depth) && |p| == depth
    ensures depth == 0 || Select(rows, p) != [] ==>
      Lookup(Reshape(depth, rows), p) == Some(Leaf(Records(Select(rows, p))))
    ensures depth > 0 && Select(rows, p) == [] ==> Lookup(Reshape(depth, rows), p) == None
  {
    if depth == 0 {
      assert p == [];
      SelectNothing(rows);
    } else {
      var k, q := p[0], p[1..];
      assert p == [k] + q;
      FindInReshape(depth, rows, k);
      SelectSub(rows, k, q);
      var sub := Sub(rows, k);
      if sub != [] {
        LookupReshape(depth - 1, sub, q);
        assert Lookup(Reshape(depth, rows), p) == Lookup(Reshape(depth - 1, sub), q);
      } else {
        assert Select(sub, q) == [];
        assert |Records(Select(rows, p))| == 0;
      }
    }
  }

  /** A selection keeps the order of the rows it selects, and selects only rows that start
      with the path. */
  lemma {:induction false} SelectSorted(rows: seq<Row>, p: seq<int>)
    requires StrictlySorted(rows)
    ensures StrictlySorted(Select(rows, p))
    ensures forall i :: 0 <= i < |Select(rows, p)| ==> Prefixed(Select(rows, p)[i], p) && Select(rows, p)[i] in rows
  {
    if rows != [] {
      var rest := Select(rows[1..], p);
      assert StrictlySorted(rows[1..]) by {
        forall i, j | 0 <= i < j < |rows[1..]|
          ensures RowLess(rows[1..][i], rows[1..][j])
        {
          assert rows[1..][i] == rows[i + 1] && rows[1..][j] == rows[j + 1];
        }
      }
      SelectSorted(rows[1..], p);
      if Prefixed(rows[0], p) {
        var sel := [rows[0]] + rest;
        forall i, j | 0 <= i < j < |sel|
          ensures RowLess(sel[i], sel[j])
        {
          if i == 0 {
            var r := sel[j];
            assert r == rest[j - 1] && r in rows[1..];
            var m :| 0 <= m < |rows[1..]| && rows[1..][m] == r;
            assert rows[m + 1] == r;
          } else {
            assert sel[i] == rest[i - 1] && sel[j] == rest[j - 1];
          }
        }
      }
    }
  }

  /** With equal grouping columns, the order of two rows is the order of their hours. */
  lemma {:induction false} LexSamePrefix(p: seq<int>, x: int, y: int)
    ensures LexLess(p + [x], p + [y]) <==> x < y
  {
    if p != [] {
      assert (p + [x])[1..] == p[1..] + [x];
      assert (p + [y])[1..] == p[1..] + [y];
      LexSamePrefix(p[1..], x, y);
    }
  }

  /** When rows are grouped by exactly the path's columns, the records under that path have
      strictly ascending hours: each hour appears at most once in a leaf. */
  lemma LeafHoursAscending(rows: seq<Row>, p: seq<int>)
    requires StrictlySorted(rows)
    requires forall i :: 0 <= i < |rows| ==> |rows[i].cols| == |p|
    ensures var rs := Records(Select(rows, p));
      forall a, b :: 0 <= a < b < |rs| ==> rs[a].hour < rs[b].hour
  {
    var sel := Select(rows, p);
    SelectSorted(rows, p);
    RecordsAt(sel);
    forall a, b | 0 <= a < b < |sel|
      ensures sel[a].hour < sel[b].hour
    {
      assert sel[a] in rows && sel[b] in rows;
      assert sel[a].cols == p && sel[b].cols == p;
      assert RowLess(sel[a], sel[b]);
      LexSamePrefix(p, sel[a].hour, sel[b].hour);
    }
  }

  /** The keys of every object in a reshaped value are strictly ascending, down to the
      leaves at the given depth. */
  predicate Ordered(n: Nested, depth: nat)
    decreases depth
  {
    if depth == 0 then n.Leaf?
    else
      && n.Branch?
      && (forall i, j :: 0 <= i < j < |n.groups| ==> n.groups[i].key < n.groups[j].key)
      && (forall i :: 0 <= i < |n.groups| ==> Ordered(n.groups[i].value, depth - 1))
  }

  lemma {:induction false} ReshapeOrdered(depth: nat, rows: seq<Row>)
    requires MinCols(rows, depth)
    ensures Ordered(Reshape(depth, rows), depth)
  {
    if depth > 0 {
      var ks := SortedDistinct(Heads(rows));
      var gs := Reshape(depth, rows).groups;
      forall i | 0 <= i < |gs|
        ensures Ordered(gs[i].value, depth - 1)
      {
        SubMinCols(rows, ks[i], depth - 1);
        ReshapeOrdered(depth - 1, Sub(rows, ks[i]));
      }
    }
  }

  /** End to end: when rows answer a grouped query and are nested by all of its grouping
      columns, every sample's group appears exactly once, in the leaf its grouping columns
      lead to, with the mean of that group's intensities. */
  lemma EachGroupOnceInItsLeaf(samples: seq<Sample>, dims: seq<Dim>, rows: seq<Row>, s: Sample)
    requires Answers(samples, dims, rows) && s in samples
    ensures MinCols(rows, |dims|)
    ensures var rs := Records(Select(rows, Key(s, dims)));
      && Lookup(Reshape(|dims|, rows), Key(s, dims)) == Some(Leaf(rs))
      && (forall a, b :: 0 <= a < b < |rs| ==> rs[a].hour < rs[b].hour)
      && exists j :: 0 <= j < |rs| && rs[j].hour == s.hour
           && rs[j].intensity == Mean(GroupIntensities(samples, dims, Key(s, dims), s.hour))
  {
    var p := Key(s, dims);
    var i :| 0 <= i < |rows| && rows[i].cols == p && rows[i].hour == s.hour;
    var sel := Select(rows, p);
    SelectContains(rows, p, i);
    LookupReshape(|dims|, rows, p);
    LeafHoursAscending(rows, p);
    RecordsAt(sel);
    var j :| 0 <= j < |sel| && sel[j] == rows[i];
    assert Records(sel)[j] == Record(s.hour, rows[i].intensity);
  }

  /** A row that starts with the path is among the selected ones. */
  lemma {:induction false} SelectContains(rows: seq<Row>, p: seq<int>, i: nat)
    requires i < |rows| && Prefixed(rows[i], p)
    ensures exists j :: 0 <= j < |Select(rows, p)| && Select(rows, p)[j] == rows[i]
  {
    if i == 0 {
      assert Select(rows, p)[0] == rows[0];
    } else {
      SelectContains(rows[1..], p, i - 1);
      var j :| 0 <= j < |Select(rows[1..], p)| && Select(rows[1..], p)[j] == rows[1..][i - 1];
      if Prefixed(rows[0], p) {
        assert Select(rows, p)[j + 1] == rows[i];
      } else {
        assert Select(rows, p)[j] == rows[i];
      }
    }
  }
}
