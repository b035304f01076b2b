/** `src/components/DistributionChart.tsx`: for one metric, the pre-KBO and
    KBO averages over the records that define it, and the detailed statistics
    (mean, median, spread, least and greatest value) of the sorted values,
    with the change of the mean. */
module DistributionChart {
  import opened Js
  import opened Players
  import opened Summary

  /** The four metric buttons. */
  datatype Metric = HrMetric | PaMetric | WrcMetric | AvgMetric

  /** The property a metric reads: `hr`, `pa`, `wrc_plus` or `avg`. */
  function MetricStat(m: Metric): Stat
  {
    match m
    case HrMetric => Hr
    case PaMetric => Pa
    case WrcMetric => WrcPlus
    case AvgMetric => Avg
  }

  /** `data.filter(p => p[key] !== undefined)`. */
  function Defining(s: seq<Player>, k: Stat): (r: seq<Player>)
    ensures |r| <= |s|
    ensures forall i :: 0 <= i < |r| ==> k in r[i].stats
  {
    if |s| == 0 then []
    else
      var rest := Defining(s[..|s| - 1], k);
      if k in s[|s| - 1].stats then rest + [s[|s| - 1]] else rest
  }

  /** The filter keeps exactly the records that define the property. */
  lemma {:induction false} DefiningMembers(s: seq<Player>, k: Stat)
    ensures forall p :: p in Defining(s, k) <==> p in s && k in p.stats
  {
    if |s| > 0 {
      DefiningMembers(s[..|s| - 1], k);
      assert s == s[..|s| - 1] + [s[|s| - 1]];
    }
  }

  /** `filtered.map(p => p[key] || 0)`: on records that define the property, the `|| 0`
      never changes a value. */
  function ValuesOf(s: seq<Player>, k: Stat): (v: seq<real>)
    requires forall i :: 0 <= i < |s| ==> k in s[i].stats
    ensures |v| == |s| && forall i :: 0 <= i < |s| ==> v[i] == s[i].stats[k]
  {
    seq(|s|, i requires 0 <= i < |s| => Or(Get(s[i], k), 0.0))
  }

  /** The values of the selected metric over the records that define it, in data order. */
  function MetricValues(s: seq<Player>, m: Metric): (v: seq<real>)
    ensures |v| == |Defining(s, MetricStat(m))|
  {
    ValuesOf(Defining(s, MetricStat(m)), MetricStat(m))
  }

  /** One bar: the average, and how many records it is over. */
  datatype Period = Period(value: Option<real>, count: nat)

  /** `getComparisonData()`, before the values are formatted: the pre-KBO bar, then the KBO bar. */
  function ComparisonData(pre: seq<Player>, kbo: seq<Player>, m: Metric): (bars: (Period, Period))
    ensures bars.0.count == |Defining(pre, MetricStat(m))| && bars.1.count == |Defining(kbo, MetricStat(m))|
    ensures bars.0.value == Mean(MetricValues(pre, m)) && bars.1.value == Mean(MetricValues(kbo, m))
    ensures bars.0.value.None? <==> bars.0.count == 0
    ensures bars.1.value.None? <==> bars.1.count == 0
  {
    (Period(Mean(MetricValues(pre, m)), |Defining(pre, MetricStat(m))|),
     Period(Mean(MetricValues(kbo, m)), |Defining(kbo, MetricStat(m))|))
  }

  /** The statistics of one side; `std` is the square root of `variance`. */
  datatype Detail = Detail(mean: Option<real>, median: Option<real>, variance: Option<real>,
                           min: Option<real>, max: Option<real>)

  /** The statistics `getDetailedStats` computes from the sorted values of one side. */
  function Describe(v: seq<real>): (d: Detail)
    ensures d.mean.None? <==> |v| == 0
  {
    Detail(Mean(v), Median(v), Variance(v),
           if |v| == 0 then None else Some(SeqMin(v)),
           if |v| == 0 then None else Some(SeqMax(v)))
  }

  /** `kboMean - preMean`. */
  function Change(pre: Detail, kbo: Detail): (c: Option<real>)
    ensures c.Some? <==> pre.mean.Some? && kbo.mean.Some?
  {
    if pre.mean.Some? && kbo.mean.Some? then Some(kbo.mean.value - pre.mean.value) else None
  }

  /** `getDetailedStats()`: both sides' values sorted, then described. */
  method DetailedStats(pre: seq<Player>, kbo: seq<Player>, m: Metric)
    returns (preValues: seq<real>, kboValues: seq<real>, preStats: Detail, kboStats: Detail, change: Option<real>)
    ensures Ascending(preValues) && multiset(preValues) == multiset(MetricValues(pre, m))
    ensures Ascending(kboValues) && multiset(kboValues) == multiset(MetricValues(kbo, m))
    ensures preStats == Describe(preValues) && kboStats == Describe(kboValues)
    ensures change == Change(preStats, kboStats)
  {
    preValues := SortedCopy(MetricValues(pre, m));
    kboValues := SortedCopy(MetricValues(kbo, m));
    preStats := Describe(preValues);
    kboStats := Describe(kboValues);
    change := Change(preStats, kboStats);
  }

  /** On sorted values: the mean is that of the unsorted values, so the detail agrees with
      the bar; the least is first and the greatest last; the mean and the median lie between
      them; and the variance is never negative. */
  lemma DescribeSorted(v: seq<real>, raw: seq<real>)
    requires Ascending(v) && multiset(v) == multiset(raw)
    ensures Describe(v).mean == Mean(raw)
    ensures |v| > 0 ==> var d := Describe(v);
              d.min == Some(v[0]) && d.max == Some(v[|v| - 1])
              && d.min.value <= d.mean.value <= d.max.value
              && d.min.value <= d.median.value <= d.max.value
              && d.variance.value >= 0.0
  {
    MeanPermutation(v, raw);
    if |v| > 0 {
      SortedEnds(v);
      MeanBetween(v);
      MedianSplits(v);
      VarianceZero(v);
    }
  }

  /** The ends of sorted values are the least and the greatest. */
  lemma SortedEnds(v: seq<real>)
    requires |v| > 0 && Ascending(v)
    ensures SeqMin(v) == v[0] && SeqMax(v) == v[|v| - 1]
  {
    var lo, hi := SeqMin(v), SeqMax(v);
    var i :| 0 <= i < |v| && v[i] == lo;
    var j :| 0 <= j < |v| && v[j] == hi;
    assert i == 0 || Id(v[0]) <= Id(v[i]);
    assert j == |v| - 1 || Id(v[j]) <= Id(v[|v| - 1]);
  }

  /** The change of the mean is positive exactly when the KBO mean is the larger. */
  lemma ChangeSign(pre: Detail, kbo: Detail)
    requires pre.mean.Some? && kbo.mean.Some?
    ensures Change(pre, kbo).value > 0.0 <==> kbo.mean.value > pre.mean.value
    ensures Change(pre, kbo).value == 0.0 <==> kbo.mean.value == pre.mean.value
  {
  }
}
