/**
 * The monthly overview chart (my-app/src/components/MonthlyBarChart.tsx):
 * amounts summed per calendar month, ignoring the year, then listed by month
 * index with the month's short name.
 */
module MonthlyBarChart {
  import opened Domain
  import App

  const MonthNames: seq<string> := ["Jan", "Feb", "Mar", "Apr", "May", "Jun", "Jul", "Aug", "Sep", "Oct", "Nov", "Dec"]

  /** One bar of the chart. */
  datatype MonthPoint = MonthPoint(month: string, total: real)

  /** A month index with its total, before the label is attached. */
  datatype Bucket = Bucket(index: int, total: real)

  /** The sum of the amounts dated in month `m` (0-based) of any year. */
  function MonthSum(ts: seq<Transaction>, m: int): real {
    if ts == [] then 0.0
    else MonthSum(ts[..|ts| - 1], m) + (if MonthIndex(ts[|ts| - 1].date) == m then ts[|ts| - 1].amount else 0.0)
  }

  /** Some transaction is dated in month `m`. */
  predicate HasMonth(ts: seq<Transaction>, m: int) {
    ts != [] && (HasMonth(ts[..|ts| - 1], m) || MonthIndex(ts[|ts| - 1].date) == m)
  }

  /** The buckets of the months below `k` that occur, in ascending month order. */
  function BucketsBelow(ts: seq<Transaction>, k: nat): seq<Bucket>
    requires k <= 12
  {
    if k == 0 then []
    else BucketsBelow(ts, k - 1) + (if HasMonth(ts, k - 1) then [Bucket(k - 1, MonthSum(ts, k - 1))] else [])
  }

  /** The sorted month series, labelled. */
  function Labelled(bs: seq<Bucket>): (ps: seq<MonthPoint>)
    requires forall i :: 0 <= i < |bs| ==> 0 <= bs[i].index < 12
    ensures |ps| == |bs|
    ensures forall i :: 0 <= i < |bs| ==> ps[i] == MonthPoint(MonthNames[bs[i].index], bs[i].total)
  {
    seq(|bs|, i requires 0 <= i < |bs| => MonthPoint(MonthNames[bs[i].index], bs[i].total))
  }

  /** The twelve short month names are pairwise different. */
  lemma MonthNamesDistinct()
    ensures forall a, b :: 0 <= a < b < 12 ==> MonthNames[a] != MonthNames[b]
  {
    forall a, b | 0 <= a < b < 12
      ensures MonthNames[a] != MonthNames[b]
    {
      assert MonthNames[a][0] != MonthNames[b][0] || MonthNames[a][1] != MonthNames[b][1]
        || MonthNames[a][2] != MonthNames[b][2];
    }
  }

  /** Buckets in strictly ascending month order get pairwise different
      labels, so no month name appears twice on the axis. */
  lemma LabelsDistinct(bs: seq<Bucket>)
    requires forall i :: 0 <= i < |bs| ==> 0 <= bs[i].index < 12
    requires forall i, j :: 0 <= i < j < |bs| ==> bs[i].index < bs[j].index
    ensures forall i, j :: 0 <= i < j < |bs| ==> Labelled(bs)[i].month != Labelled(bs)[j].month
  {
    MonthNamesDistinct();
  }

  /** The buckets are strictly ascending by month index, each index is a
      month that occurs, each occurring month below `k` is there, and each
      total is that month's sum. */
  lemma {:induction false} BucketsShape(ts: seq<Transaction>, k: nat)
    requires k <= 12
    ensures forall i :: 0 <= i < |BucketsBelow(ts, k)| ==>
      var b := BucketsBelow(ts, k)[i];
      0 <= b.index < k && HasMonth(ts, b.index) && b.total == MonthSum(ts, b.index)
    ensures forall i, j :: 0 <= i < j < |BucketsBelow(ts, k)| ==>
      BucketsBelow(ts, k)[i].index < BucketsBelow(ts, k)[j].index
    ensures forall m :: 0 <= m < k && HasMonth(ts, m) ==>
      exists i :: 0 <= i < |BucketsBelow(ts, k)| && BucketsBelow(ts, k)[i].index == m
  {
    if k > 0 {
      BucketsShape(ts, k - 1);
      var prev := BucketsBelow(ts, k - 1);
      if HasMonth(ts, k - 1) {
        assert BucketsBelow(ts, k)[|prev|].index == k - 1;
      }
      assert forall i :: 0 <= i < |prev| ==> BucketsBelow(ts, k)[i] == prev[i];
    }
  }

  /** A month no transaction falls in sums to zero. */
  lemma {:induction false} AbsentMonthSumsToZero(ts: seq<Transaction>, m: int)
    requires !HasMonth(ts, m)
    ensures MonthSum(ts, m) == 0.0
  {
    if ts != [] {
      AbsentMonthSumsToZero(ts[..|ts| - 1], m);
    }
  }

  /** The sum over months 0..k-1 of the monthly sums. */
  function SumOfMonthsBelow(ts: seq<Transaction>, k: nat): real {
    if k == 0 then 0.0 else SumOfMonthsBelow(ts, k - 1) + MonthSum(ts, k - 1)
  }

  function BucketTotal(bs: seq<Bucket>): real {
    if bs == [] then 0.0 else BucketTotal(bs[..|bs| - 1]) + bs[|bs| - 1].total
  }

  lemma {:induction false} BucketTotalAppend(bs: seq<Bucket>, cs: seq<Bucket>)
    ensures BucketTotal(bs + cs) == BucketTotal(bs) + BucketTotal(cs)
  {
    if cs == [] {
      assert bs + cs == bs;
    } else {
      assert (bs + cs)[..|bs + cs| - 1] == bs + cs[..|cs| - 1];
      BucketTotalAppend(bs, cs[..|cs| - 1]);
    }
  }

  lemma {:induction false} BucketsTotalIsSumOfMonths(ts: seq<Transaction>, k: nat)
    requires k <= 12
    ensures BucketTotal(BucketsBelow(ts, k)) == SumOfMonthsBelow(ts, k)
  {
    if k > 0 {
      BucketsTotalIsSumOfMonths(ts, k - 1);
      var extra := if HasMonth(ts, k - 1) then [Bucket(k - 1, MonthSum(ts, k - 1))] else [];
      BucketTotalAppend(BucketsBelow(ts, k - 1), extra);
      if !HasMonth(ts, k - 1) {
        AbsentMonthSumsToZero(ts, k - 1);
      } else {
        assert BucketTotal(extra) == BucketTotal([]) + MonthSum(ts, k - 1) by {
          assert extra[..0] == [];
        }
      }
    }
  }

  /** Adding one transaction adds its amount to the months it falls below `k`. */
  lemma {:induction false} SumOfMonthsStep(ts: seq<Transaction>, k: nat)
    requires ts != []
    ensures var last := ts[|ts| - 1];
      SumOfMonthsBelow(ts, k)
      == SumOfMonthsBelow(ts[..|ts| - 1], k) + (if MonthIndex(last.date) < k then last.amount else 0.0)
  {
    if k > 0 {
      SumOfMonthsStep(ts, k - 1);
    }
  }

  /** All twelve monthly sums together make up the balance. */
  lemma {:induction false} TwelveMonthsMakeBalance(ts: seq<Transaction>)
    ensures SumOfMonthsBelow(ts, 12) == App.Balance(ts)
  {
    if ts == [] {
      NoMonthsSumToZero(12);
    } else {
      TwelveMonthsMakeBalance(ts[..|ts| - 1]);
      SumOfMonthsStep(ts, 12);
    }
  }

  lemma {:induction false} NoMonthsSumToZero(k: nat)
    ensures SumOfMonthsBelow([], k) == 0.0
  {
    if k > 0 {
      NoMonthsSumToZero(k - 1);
    }
  }

  /** The chart's totals add up to the overall balance of the App's summary. */
  lemma SeriesTotalIsBalance(ts: seq<Transaction>)
    ensures BucketTotal(BucketsBelow(ts, 12)) == App.Balance(ts)
  {
    BucketsTotalIsSumOfMonths(ts, 12);
    TwelveMonthsMakeBalance(ts);
  }

  /** Each month name appears at most once on the chart's axis. */
  lemma SeriesLabelsDistinct(ts: seq<Transaction>)
    ensures var bs := BucketsBelow(ts, 12);
      && (forall i :: 0 <= i < |bs| ==> 0 <= bs[i].index < 12)
      && forall i, j :: 0 <= i < j < |bs| ==> Labelled(bs)[i].month != Labelled(bs)[j].month
  {
    BucketsShape(ts, 12);
    LabelsDistinct(BucketsBelow(ts, 12));
  }

  /** The year plays no part: changing the year of a record leaves every
      monthly sum as it was. */
  lemma {:induction false} YearIgnored(ts: seq<Transaction>, k: nat, year: int, m: int)
    requires k < |ts|
    ensures MonthSum(ts[k := ts[k].(date := ts[k].date.(year := year))], m) == MonthSum(ts, m)
  {
    var ts' := ts[k := ts[k].(date := ts[k].date.(year := year))];
    if k < |ts| - 1 {
      assert ts'[..|ts'| - 1] == ts[..|ts| - 1][k := ts[k].(date := ts[k].date.(year := year))];
      YearIgnored(ts[..|ts| - 1], k, year, m);
    } else {
      assert ts'[..|ts'| - 1] == ts[..|ts| - 1];
    }
  }

  /** The chart data: a pass over the transactions accumulating a total per
      month index in a map, then the occurring months in ascending order,
      each with its name. */
  method MonthlyData(ts: seq<Transaction>) returns (data: seq<MonthPoint>)
    ensures forall i :: 0 <= i < |BucketsBelow(ts, 12)| ==> 0 <= BucketsBelow(ts, 12)[i].index < 12
    ensures data == Labelled(BucketsBelow(ts, 12))
  {
    var monthly: map<int, real> := map[];
    for i := 0 to |ts|
      invariant forall m :: m in monthly <==> 0 <= m < 12 && HasMonth(ts[..i], m)
      invariant forall m :: m in monthly ==> monthly[m] == MonthSum(ts[..i], m)
    {
      assert ts[..i + 1][..i] == ts[..i];
      var m := MonthIndex(ts[i].date);
      var before := if m in monthly then monthly[m] else 0.0;
      if m !in monthly {
        AbsentMonthSumsToZero(ts[..i], m);
      }
      assert before == MonthSum(ts[..i], m);
      monthly := monthly[m := before + ts[i].amount];
    }
    assert ts[..|ts|] == ts;
    BucketsShape(ts, 12);
    var buckets: seq<Bucket> := [];
    for m := 0 to 12
      invariant buckets == BucketsBelow(ts, m)
    {
      if m in monthly {
        buckets := buckets + [Bucket(m, monthly[m])];
      }
    }
    data := Labelled(buckets);
  }
}
