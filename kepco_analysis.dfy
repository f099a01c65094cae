/** The averaging helpers of the Kansai analysis script: the mean `carbon_intensity` per hour
    of day and per month (`groupby(...).mean()`), and the hour-by-month table of means
    (`pivot_table(index=hour, columns=month, aggfunc=mean)`). */
module KepcoAnalysis {
  import opened Sums

  /** One row of the frame: the hour and month of its timestamp and its intensity. */
  datatype Reading = Reading(hour: int, month: int, carbonIntensity: real)

  /** The rows a group collects. */
  datatype Bucket = HourOf(hour: int) | MonthOf(month: int) | Cell(hour: int, month: int)

  predicate InBucket(r: Reading, b: Bucket) {
    match b
    case HourOf(h) => r.hour == h
    case MonthOf(m) => r.month == m
    case Cell(h, m) => r.hour == h && r.month == m
  }

  /** The intensities of the rows in a bucket, in frame order: empty exactly when no row is
      in the bucket, and each one some row's intensity. */
  function Values(rs: seq<Reading>, b: Bucket): (xs: seq<real>)
    ensures xs == [] <==> forall r :: r in rs ==> !InBucket(r, b)
    ensures forall i :: 0 <= i < |xs| ==> exists r :: r in rs && InBucket(r, b) && xs[i] == r.carbonIntensity
  {
    if rs == [] then []
    else
      var rest := Values(rs[1..], b);
      if InBucket(rs[0], b) then
        assert forall i :: 1 <= i < |rest| + 1 ==> ([rs[0].carbonIntensity] + rest)[i] == rest[i - 1];
        [rs[0].carbonIntensity] + rest
      else rest
  }

  /** The rows of a bucket. */
  function Slice(rs: seq<Reading>, b: Bucket): (ss: seq<Reading>)
    ensures forall r :: r in ss <==> r in rs && InBucket(r, b)
  {
    if rs == [] then []
    else if InBucket(rs[0], b) then [rs[0]] + Slice(rs[1..], b)
    else Slice(rs[1..], b)
  }

  function Hours(rs: seq<Reading>): set<int> {
    set r | r in rs :: r.hour
  }

  function Months(rs: seq<Reading>): set<int> {
    set r | r in rs :: r.month
  }

  function Cells(rs: seq<Reading>): set<(int, int)> {
    set r | r in rs :: (r.hour, r.month)
  }

  /** `df.groupby([times.hour]).mean()`: one mean per hour that occurs. */
  function DailyAverage(rs: seq<Reading>): (m: map<int, real>)
    ensures m.Keys == Hours(rs)
  {
    map h | h in Hours(rs) :: Mean(Values(rs, HourOf(h)))
  }

  /** `df.groupby([times.month]).mean()`: one mean per month that occurs. */
  function MonthlyAverage(rs: seq<Reading>): (m: map<int, real>)
    ensures m.Keys == Months(rs)
  {
    map mo | mo in Months(rs) :: Mean(Values(rs, MonthOf(mo)))
  }

  /** `createDailyAveragePerMonth`: the mean of every (hour, month) cell that has a row; the
      cells without one (NaN in the table) are absent. */
  function DailyAveragePerMonth(rs: seq<Reading>): (m: map<(int, int), real>)
    ensures m.Keys == Cells(rs)
  {
    map c | c in Cells(rs) :: Mean(Values(rs, Cell(c.0, c.1)))
  }

  /** Each group's mean lies between the smallest and the largest intensity of the frame. */
  lemma AveragesWithinBounds(rs: seq<Reading>, lo: real, hi: real)
    requires forall r :: r in rs ==> lo <= r.carbonIntensity <= hi
    ensures forall h :: h in DailyAverage(rs) ==> lo <= DailyAverage(rs)[h] <= hi
    ensures forall mo :: mo in MonthlyAverage(rs) ==> lo <= MonthlyAverage(rs)[mo] <= hi
    ensures forall c :: c in DailyAveragePerMonth(rs) ==> lo <= DailyAveragePerMonth(rs)[c] <= hi
  {
    forall b: Bucket | Values(rs, b) != []
      ensures lo <= Mean(Values(rs, b)) <= hi
    {
      MeanBounds(Values(rs, b), lo, hi);
    }
  }

  /** A cell's rows, in order, are the hour's rows within the month's slice. */
  lemma {:induction false} CellIsHourWithinMonth(rs: seq<Reading>, h: int, mo: int)
    ensures Values(rs, Cell(h, mo)) == Values(Slice(rs, MonthOf(mo)), HourOf(h))
  {
    if rs != [] {
      CellIsHourWithinMonth(rs[1..], h, mo);
      if InBucket(rs[0], MonthOf(mo)) {
        assert Slice(rs, MonthOf(mo)) == [rs[0]] + Slice(rs[1..], MonthOf(mo));
        assert ([rs[0]] + Slice(rs[1..], MonthOf(mo)))[1..] == Slice(rs[1..], MonthOf(mo));
      }
    }
  }

  /** So each cell of the hour-by-month table is the hourly average of that month's rows. */
  lemma PivotCellIsMonthlyHourAverage(rs: seq<Reading>, h: int, mo: int)
    requires (h, mo) in DailyAveragePerMonth(rs)
    ensures h in DailyAverage(Slice(rs, MonthOf(mo)))
    ensures DailyAveragePerMonth(rs)[(h, mo)] == DailyAverage(Slice(rs, MonthOf(mo)))[h]
  {
    var r :| r in rs && (r.hour, r.month) == (h, mo);
    assert r in Slice(rs, MonthOf(mo));
    CellIsHourWithinMonth(rs, h, mo);
  }
}
