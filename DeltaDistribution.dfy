/** `src/components/DeltaDistribution.tsx`: the change Δ = KBO − pre-KBO of
    one metric over the name-matched players, its 10-bin histogram, and the
    mean, median and variance of the changes. */
module DeltaDistribution {
  import opened Js
  import opened Players
  import opened Matching
  import opened Summary

  /** The four metric buttons. */
  datatype Metric = WrcMetric | KMetric | BbMetric | HrMetric

  /** The property a metric reads: `wrc_plus`, `k_pct`, `bb_pct` or `hr`. */
  function MetricStat(m: Metric): Stat
  {
    match m
    case WrcMetric => WrcPlus
    case KMetric => KPct
    case BbMetric => BbPct
    case HrMetric => Hr
  }

  /** The guard of the `forEach` body: a pre-KBO record of the same name exists and both
      records define the metric. */
  predicate Paired(kbo: Player, pre: Option<Player>, s: Stat)
  {
    pre.Some? && s in kbo.stats && s in pre.value.stats
  }

  /** The pushed change. Its `|| 0` defaults never apply to a defined value. */
  function DeltaOf(kbo: Player, pre: Player, s: Stat): (d: real)
    requires Paired(kbo, Some(pre), s)
    ensures d == kbo.stats[s] - pre.stats[s]
  {
    Or(Get(kbo, s), 0.0) - Or(Get(pre, s), 0.0)
  }

  /** The changes pushed for the first `|kbo|` KBO records, in KBO order. */
  function Deltas(kbo: seq<Player>, pre: seq<Player>, m: Metric): (d: seq<real>)
    ensures |d| <= |kbo|
  {
    if |kbo| == 0 then []
    else
      var rest := Deltas(kbo[..|kbo| - 1], pre, m);
      var p := kbo[|kbo| - 1];
      var q := FindByName(pre, p.name);
      if Paired(p, q, MetricStat(m)) then rest + [DeltaOf(p, q.value, MetricStat(m))] else rest
  }

  /** Every change is that of a paired KBO record and the first pre-KBO record of its
      name, and every paired KBO record contributes its change. */
  lemma {:induction false} DeltasFromPairs(kbo: seq<Player>, pre: seq<Player>, m: Metric)
    ensures forall d :: d in Deltas(kbo, pre, m) ==>
              exists p :: p in kbo && Paired(p, FindByName(pre, p.name), MetricStat(m))
                          && d == DeltaOf(p, FindByName(pre, p.name).value, MetricStat(m))
    ensures forall p :: p in kbo && Paired(p, FindByName(pre, p.name), MetricStat(m)) ==>
              DeltaOf(p, FindByName(pre, p.name).value, MetricStat(m)) in Deltas(kbo, pre, m)
  {
    if |kbo| > 0 {
      var init, last := kbo[..|kbo| - 1], kbo[|kbo| - 1];
      DeltasFromPairs(init, pre, m);
      assert kbo == init + [last];
      forall p | p in kbo
        ensures p in init || p == last
      {
      }
    }
  }

  // ------------------------------------------------------- histogram

  const BinCount: nat := 10

  /** `Math.min(...deltas)`; with no changes it is `Infinity` in the source, and then no
      change is binned, so its value does not matter. */
  function Lo(deltas: seq<real>): real
  {
    if |deltas| == 0 then 0.0 else SeqMin(deltas)
  }

  /** `(max - min) / binCount`. */
  function BinSize(deltas: seq<real>): (size: real)
    ensures size >= 0.0
  {
    if |deltas| == 0 then 0.0 else (SeqMax(deltas) - SeqMin(deltas)) / (BinCount as real)
  }

  /** `Math.min(Math.floor((delta - min) / binSize), binCount - 1)`, with `None` for the
      two values that fail the range test: `NaN` (0 / 0) and `-Infinity`. A positive
      difference over a zero size is `Infinity`, which the `min` turns into the last bin. */
  function BinIndex(d: real, lo: real, size: real): (i: Option<int>)
    ensures i.Some? ==> i.value <= BinCount - 1
  {
    if size == 0.0 then (if d - lo > 0.0 then Some(BinCount - 1) else None)
    else
      var f := ((d - lo) / size).Floor;
      Some(if f < BinCount - 1 then f else BinCount - 1)
  }

  /** The range test `binIndex >= 0 && binIndex < binCount`. */
  predicate Binned(i: Option<int>)
  {
    i.Some? && 0 <= i.value < BinCount
  }

  /** How many of the changes increment bin b. */
  function CountIn(s: seq<real>, b: nat, lo: real, size: real): (c: nat)
    ensures c <= |s|
  {
    if |s| == 0 then 0
    else
      var i := BinIndex(s[|s| - 1], lo, size);
      CountIn(s[..|s| - 1], b, lo, size) + (if Binned(i) && i.value == b then 1 else 0)
  }

  /** The counts of bins 0 to k - 1. */
  function CountsOf(s: seq<real>, lo: real, size: real, k: nat): (c: seq<nat>)
    ensures |c| == k && forall b :: 0 <= b < k ==> c[b] == CountIn(s, b, lo, size)
  {
    seq(k, b requires 0 <= b < k => CountIn(s, b, lo, size))
  }

  /** The ten `count` fields after the second `forEach`. */
  function Counts(deltas: seq<real>): (c: seq<nat>)
    ensures |c| == BinCount
  {
    CountsOf(deltas, Lo(deltas), BinSize(deltas), BinCount)
  }

  /** `getDeltaData()`: the changes, then the bins, each counted in place. */
  method GetDeltaData(kbo: seq<Player>, pre: seq<Player>, m: Metric) returns (bins: array<nat>, deltas: seq<real>)
    ensures deltas == Deltas(kbo, pre, m)
    ensures fresh(bins) && bins[..] == Counts(deltas)
  {
    deltas := CollectDeltas(kbo, pre, m);
    bins := CountBins(deltas);
  }

  /** The first `forEach`, pushing into `deltas`. */
  method CollectDeltas(kbo: seq<Player>, pre: seq<Player>, m: Metric) returns (deltas: seq<real>)
    ensures deltas == Deltas(kbo, pre, m)
  {
    deltas := [];
    var s := MetricStat(m);
    for i := 0 to |kbo|
      invariant deltas == Deltas(kbo[..i], pre, m)
    {
      var kboPlayer := kbo[i];
      assert kbo[..i + 1][..i] == kbo[..i];
      var prePlayer := FindByName(pre, kboPlayer.name);
      if Paired(kboPlayer, prePlayer, s) {
        deltas := deltas + [DeltaOf(kboPlayer, prePlayer.value, s)];
      }
    }
    assert kbo[..|kbo|] == kbo;
  }

  /** The ten bins, then the second `forEach`, incrementing `bins[binIndex].count`. */
  method CountBins(deltas: seq<real>) returns (bins: array<nat>)
    ensures fresh(bins) && bins[..] == Counts(deltas)
  {
    var min := Lo(deltas);
    var binSize := BinSize(deltas);
    bins := new nat[BinCount](_ => 0);
    for k := 0 to |deltas|
      invariant forall b :: 0 <= b < BinCount ==> bins[b] == CountIn(deltas[..k], b, min, binSize)
    {
      assert deltas[..k + 1][..k] == deltas[..k];
      var binIndex := BinIndex(deltas[k], min, binSize);
      if binIndex.Some? && binIndex.value >= 0 && binIndex.value < BinCount {
        bins[binIndex.value] := bins[binIndex.value] + 1;
      }
    }
    assert deltas[..|deltas|] == deltas;
  }

  /** Bin i covers [min + i binSize, min + (i + 1) binSize]; `center` is its midpoint. */
  function BinStart(lo: real, size: real, i: nat): real
  {
    lo + (i as real) * size
  }

  function BinCenter(lo: real, size: real, i: nat): real
  {
    lo + ((i as real) + 0.5) * size
  }

  /** The bins tile [min, max]: the first starts at the least change, each ends where the
      next starts, the last ends at the greatest change, and each centre is a midpoint. */
  lemma BinsTile(deltas: seq<real>, i: nat)
    requires |deltas| > 0
    ensures var lo, size := Lo(deltas), BinSize(deltas);
            BinStart(lo, size, 0) == SeqMin(deltas) && BinStart(lo, size, BinCount) == SeqMax(deltas)
            && BinStart(lo, size, i + 1) == BinStart(lo, size, i) + size
            && BinCenter(lo, size, i) == (BinStart(lo, size, i) + BinStart(lo, size, i + 1)) / 2.0
  {
    BinsTileBetween(SeqMin(deltas), SeqMax(deltas), i);
  }

  lemma BinsTileBetween(lo: real, hi: real, i: nat)
    ensures var size := (hi - lo) / (BinCount as real);
            BinStart(lo, size, 0) == lo && BinStart(lo, size, BinCount) == hi
            && BinStart(lo, size, i + 1) == BinStart(lo, size, i) + size
            && BinCenter(lo, size, i) == (BinStart(lo, size, i) + BinStart(lo, size, i + 1)) / 2.0
  {
    var size := (hi - lo) / 10.0;
    var x := i as real;
    assert ((i + 1) as real) * size == x * size + size;
    assert (x + 0.5) * size == x * size + 0.5 * size;
  }

  /** d passes the range test, and the range of its bin holds it. */
  predicate InOwnBin(d: real, lo: real, size: real)
  {
    var i := BinIndex(d, lo, size);
    Binned(i) && BinStart(lo, size, i.value) <= d
    && (i.value < BinCount - 1 ==> d < BinStart(lo, size, i.value + 1))
  }

  /** When the changes are not all equal, each one lands in a bin whose range holds it;
      the least lands in bin 0 and the greatest in bin 9. */
  lemma BinOfDelta(deltas: seq<real>, j: nat)
    requires j < |deltas| && SeqMin(deltas) < SeqMax(deltas)
    ensures InOwnBin(deltas[j], Lo(deltas), BinSize(deltas))
    ensures deltas[j] == SeqMin(deltas) ==> BinIndex(deltas[j], Lo(deltas), BinSize(deltas)) == Some(0)
    ensures deltas[j] == SeqMax(deltas) ==> BinIndex(deltas[j], Lo(deltas), BinSize(deltas)) == Some(BinCount - 1)
  {
    var lo, hi := SeqMin(deltas), SeqMax(deltas);
    assert lo <= deltas[j] <= hi;
    assert Lo(deltas) == lo;
    assert BinSize(deltas) == (hi - lo) / (BinCount as real);
    BinOfValue(deltas[j], lo, hi);
  }

  lemma BinOfValue(d: real, lo: real, hi: real)
    requires lo <= d <= hi && lo < hi
    ensures InOwnBin(d, lo, (hi - lo) / (BinCount as real))
    ensures d == lo ==> BinIndex(d, lo, (hi - lo) / (BinCount as real)) == Some(0)
    ensures d == hi ==> BinIndex(d, lo, (hi - lo) / (BinCount as real)) == Some(BinCount - 1)
  {
    var size := (hi - lo) / 10.0;
    var q := (d - lo) / size;
    assert q * size == d - lo;
    QuotientWithin(d - lo, size);
    var i := FloorBin(q);
    assert BinIndex(d, lo, size) == Some(i);
    MulLe(i as real, q, size);
    if i < BinCount - 1 {
      MulLt(q, (i + 1) as real, size);
      assert d - lo < ((i + 1) as real) * size;
      assert BinStart(lo, size, i + 1) == lo + ((i + 1) as real) * size;
    }
    if d == hi {
      assert q * size == 10.0 * size;
      MulCancel(q, 10.0, size);
    }
  }

  /** `Math.min(Math.floor(q), 9)` for q in [0, 10]: a bin whose range holds q. */
  function FloorBin(q: real): (i: nat)
    requires 0.0 <= q <= 10.0
    ensures i == (if q.Floor < BinCount - 1 then q.Floor else BinCount - 1)
    ensures i < BinCount && (i as real) <= q
    ensures i < BinCount - 1 ==> q < (i + 1) as real
    ensures q == 0.0 ==> i == 0
    ensures q == 10.0 ==> i == BinCount - 1
  {
    var f := q.Floor;
    if f < BinCount - 1 then f else BinCount - 1
  }

  lemma MulCancel(a: real, b: real, c: real)
    requires c > 0.0 && a * c == b * c
    ensures a == b
  {
    if a < b {
      MulLt(a, b, c);
    } else if b < a {
      MulLt(b, a, c);
    }
  }

  /** 0 <= a <= 10 size puts a / size within [0, 10]. */
  lemma QuotientWithin(a: real, size: real)
    requires size > 0.0 && 0.0 <= a <= 10.0 * size
    ensures 0.0 <= a / size <= 10.0
  {
    var q := a / size;
    assert q * size == a;
    if q > 10.0 {
      MulLt(10.0, q, size);
    }
  }

  lemma MulLe(a: real, b: real, c: real)
    requires a <= b && c > 0.0
    ensures a * c <= b * c
  {
  }

  lemma MulLt(a: real, b: real, c: real)
    requires a < b && c > 0.0
    ensures a * c < b * c
  {
  }

  /** When every change is equal, the bin size is 0, every index is `NaN`, and no bin is
      incremented: the histogram shows no player at all. */
  lemma {:induction false} AllEqualNoneBinned(s: seq<real>, lo: real, b: nat)
    requires forall j :: 0 <= j < |s| ==> s[j] == lo
    ensures CountIn(s, b, lo, 0.0) == 0
  {
    if |s| > 0 {
      AllEqualNoneBinned(s[..|s| - 1], lo, b);
    }
  }

  /** A single matched player, for one: all ten counts are 0. */
  lemma SingleDeltaEmptyHistogram(d: real)
    ensures Counts([d]) == seq(BinCount, b => 0)
  {
    assert SeqMin([d]) == SeqMax([d]) == d;
    forall b | 0 <= b < BinCount
      ensures Counts([d])[b] == 0
    {
      AllEqualNoneBinned([d], d, b);
    }
  }

  /** The sum of the bar heights. */
  function Total(c: seq<nat>): nat
  {
    if |c| == 0 then 0 else Total(c[..|c| - 1]) + c[|c| - 1]
  }

  /** Adding a binned change adds one to the total of the bins up to its own. */
  lemma {:induction false} TotalStep(s: seq<real>, lo: real, size: real, k: nat)
    requires |s| > 0 && Binned(BinIndex(s[|s| - 1], lo, size))
    ensures Total(CountsOf(s, lo, size, k)) ==
            Total(CountsOf(s[..|s| - 1], lo, size, k)) + (if BinIndex(s[|s| - 1], lo, size).value < k then 1 else 0)
  {
    if k > 0 {
      TotalStep(s, lo, size, k - 1);
      assert CountsOf(s, lo, size, k)[..k - 1] == CountsOf(s, lo, size, k - 1);
      assert CountsOf(s[..|s| - 1], lo, size, k)[..k - 1] == CountsOf(s[..|s| - 1], lo, size, k - 1);
    }
  }

  /** With every change binned, the counts add up to the number of changes. */
  lemma {:induction false} TotalCounts(s: seq<real>, lo: real, size: real)
    requires forall j :: 0 <= j < |s| ==> Binned(BinIndex(s[j], lo, size))
    ensures Total(CountsOf(s, lo, size, BinCount)) == |s|
  {
    if |s| == 0 {
      assert CountsOf(s, lo, size, BinCount) == CountsOf(s, lo, size, BinCount)[..BinCount];
      TotalZero(s, lo, size, BinCount);
    } else {
      TotalCounts(s[..|s| - 1], lo, size);
      TotalStep(s, lo, size, BinCount);
    }
  }

  /** With no changes every bin is empty. */
  lemma {:induction false} TotalZero(s: seq<real>, lo: real, size: real, k: nat)
    requires |s| == 0
    ensures Total(CountsOf(s, lo, size, k)) == 0
  {
    if k > 0 {
      TotalZero(s, lo, size, k - 1);
      assert CountsOf(s, lo, size, k)[..k - 1] == CountsOf(s, lo, size, k - 1);
    }
  }

  /** When the changes are not all equal, every change increments exactly one bin. */
  lemma HistogramCountsAll(deltas: seq<real>)
    requires |deltas| > 0 && SeqMin(deltas) < SeqMax(deltas)
    ensures Total(Counts(deltas)) == |deltas|
  {
    forall j | 0 <= j < |deltas|
      ensures Binned(BinIndex(deltas[j], Lo(deltas), BinSize(deltas)))
    {
      BinOfDelta(deltas, j);
      assert InOwnBin(deltas[j], Lo(deltas), BinSize(deltas));
    }
    TotalCounts(deltas, Lo(deltas), BinSize(deltas));
  }

  // ------------------------------------------------------ statistics

  /** `mean`, `sortedDeltas`, `median` and `variance`. The standard deviation is the
      square root of the variance. */
  method DeltaStats(deltas: seq<real>) returns (mean: Option<real>, sortedDeltas: seq<real>, median: Option<real>, variance: Option<real>)
    ensures mean == Mean(deltas) && variance == Variance(deltas)
    ensures Ascending(sortedDeltas) && multiset(sortedDeltas) == multiset(deltas)
    ensures median == Median(sortedDeltas)
  {
    mean := Mean(deltas);
    sortedDeltas := SortedCopy(deltas);
    median := Median(sortedDeltas);
    variance := Variance(deltas);
  }
}
