/** `src/components/CorrelationChart.tsx`: the scatter of one pre-KBO metric
    against first-year KBO wRC+, its Pearson coefficient, and the colour and
    strength label the coefficient is shown with. */
module CorrelationChart {
  import opened Js
  import opened Players
  import opened Correlation
  import opened Matching

  /** The four metric buttons. */
  datatype Metric = WrcMetric | KMetric | BbMetric | HrMetric

  /** The property a metric reads: `'wrc+'`, `'k%'`, `'bb%'` or `hr`. */
  function MetricStat(m: Metric): Stat
  {
    match m
    case WrcMetric => WrcPlusKey
    case KMetric => KPctKey
    case BbMetric => BbPctKey
    case HrMetric => Hr
  }

  /** One scatter point. */
  datatype Point = Point(pre: real, kbo: real, name: string)

  /** The guard of the `forEach` body: a pre-KBO record of the same name exists, both
      define the metric, and the KBO record's `'wrc+'` is truthy. */
  predicate Contributes(kbo: Player, pre: Option<Player>, s: Stat)
  {
    pre.Some? && s in kbo.stats && s in pre.value.stats && Truthy(Get(kbo, WrcPlusKey))
  }

  /** The pushed point. Its `|| 0` defaults never apply, because both values are defined
      and a defined 0 is 0 either way. */
  function PointOf(kbo: Player, pre: Player, s: Stat): (pt: Point)
    requires Contributes(kbo, Some(pre), s)
    ensures pt.pre == pre.stats[s] && pt.kbo == kbo.stats[WrcPlusKey] && pt.kbo != 0.0
    ensures pt.name == kbo.name
  {
    Point(Or(Get(pre, s), 0.0), Or(Get(kbo, WrcPlusKey), 0.0), kbo.name)
  }

  /** What the point list holds after the first `|kbo|` KBO records. */
  function CorrelationData(kbo: seq<Player>, pre: seq<Player>, m: Metric): (d: seq<Point>)
    ensures |d| <= |kbo|
  {
    if |kbo| == 0 then []
    else
      var rest := CorrelationData(kbo[..|kbo| - 1], pre, m);
      var p := kbo[|kbo| - 1];
      var q := FindByName(pre, p.name);
      if Contributes(p, q, MetricStat(m)) then rest + [PointOf(p, q.value, MetricStat(m))] else rest
  }

  /** `getCorrelationData()`. */
  method GetCorrelationData(kbo: seq<Player>, pre: seq<Player>, m: Metric) returns (matched: seq<Point>)
    ensures matched == CorrelationData(kbo, pre, m)
  {
    matched := [];
    var s := MetricStat(m);
    for i := 0 to |kbo|
      invariant matched == CorrelationData(kbo[..i], pre, m)
    {
      var kboPlayer := kbo[i];
      assert kbo[..i + 1][..i] == kbo[..i];
      var prePlayer := FindByName(pre, kboPlayer.name);
      if Contributes(kboPlayer, prePlayer, s) {
        matched := matched + [PointOf(kboPlayer, prePlayer.value, s)];
      }
    }
    assert kbo[..|kbo|] == kbo;
  }

  /** Every point is a contributing KBO record paired with the first pre-KBO record of its
      name, and every contributing KBO record gives its point. */
  lemma {:induction false} CorrelationDataPoints(kbo: seq<Player>, pre: seq<Player>, m: Metric)
    ensures forall pt :: pt in CorrelationData(kbo, pre, m) ==>
              exists p :: p in kbo && Contributes(p, FindByName(pre, p.name), MetricStat(m))
                          && pt == PointOf(p, FindByName(pre, p.name).value, MetricStat(m))
    ensures forall p :: p in kbo && Contributes(p, FindByName(pre, p.name), MetricStat(m)) ==>
              PointOf(p, FindByName(pre, p.name).value, MetricStat(m)) in CorrelationData(kbo, pre, m)
  {
    if |kbo| > 0 {
      var init, last := kbo[..|kbo| - 1], kbo[|kbo| - 1];
      CorrelationDataPoints(init, pre, m);
      assert kbo == init + [last];
      forall p | p in kbo
        ensures p in init || p == last
      {
      }
    }
  }

  function Pres(d: seq<Point>): (x: seq<real>)
    ensures |x| == |d| && forall i :: 0 <= i < |d| ==> x[i] == d[i].pre
  {
    seq(|d|, i requires 0 <= i < |d| => d[i].pre)
  }

  function Kbos(d: seq<Point>): (y: seq<real>)
    ensures |y| == |d| && forall i :: 0 <= i < |d| ==> y[i] == d[i].kbo
  {
    seq(|d|, i requires 0 <= i < |d| => d[i].kbo)
  }

  /** `calculateCorrelation(data)`: 0 for fewer than two points, otherwise the
      sum-formula coefficient. */
  function ChartCorrelation(d: seq<Point>): (r: Coef)
    ensures Valid(r)
    ensures |d| < 2 ==> r == Zero
  {
    if |d| < 2 then Zero else Pearson(Pres(d), Kbos(d))
  }

  /** The early return is the degenerate case of the coefficient: the chart computes the
      same coefficient as the scripts, which lies in [-1, 1]. */
  lemma ChartCorrelationIsPearson(d: seq<Point>)
    ensures ChartCorrelation(d) == Pearson(Pres(d), Kbos(d))
    ensures Square(ChartCorrelation(d)) <= 1.0
    ensures forall r :: Denotes(ChartCorrelation(d), r) ==> -1.0 <= r <= 1.0
  {
    PearsonDegenerate(Pres(d), Kbos(d));
    PearsonBounded(Pres(d), Kbos(d));
  }

  /** The colour of the coefficient. */
  datatype Colour = Green | Amber | Red

  /** `getCorrelationColor(r)`. */
  function ColourOf(c: Coef): Colour
  {
    if AbsAtLeast(c, 0.7) then Green else if AbsAtLeast(c, 0.4) then Amber else Red
  }

  /** The strength label. */
  datatype Strength = Strong | Medium | Weak | Negligible

  /** `getCorrelationStrength(r)`. */
  function StrengthOf(c: Coef): Strength
  {
    if AbsAtLeast(c, 0.7) then Strong
    else if AbsAtLeast(c, 0.4) then Medium
    else if AbsAtLeast(c, 0.2) then Weak
    else Negligible
  }

  /** The colour is decided by |r| against 0.7 and 0.4. */
  lemma ColourMeans(c: Coef, r: real)
    requires Denotes(c, r)
    ensures ColourOf(c) == Green <==> Abs(r) >= 0.7
    ensures ColourOf(c) == Amber <==> 0.4 <= Abs(r) < 0.7
    ensures ColourOf(c) == Red <==> Abs(r) < 0.4
  {
    AbsAtLeastMeans(c, r, 0.7);
    AbsAtLeastMeans(c, r, 0.4);
  }

  /** The label is decided by |r| against 0.7, 0.4 and 0.2. */
  lemma StrengthMeans(c: Coef, r: real)
    requires Denotes(c, r)
    ensures StrengthOf(c) == Strong <==> Abs(r) >= 0.7
    ensures StrengthOf(c) == Medium <==> 0.4 <= Abs(r) < 0.7
    ensures StrengthOf(c) == Weak <==> 0.2 <= Abs(r) < 0.4
    ensures StrengthOf(c) == Negligible <==> Abs(r) < 0.2
  {
    AbsAtLeastMeans(c, r, 0.7);
    AbsAtLeastMeans(c, r, 0.4);
    AbsAtLeastMeans(c, r, 0.2);
  }

  /** The colour and the label share their two upper cuts. */
  lemma ColourMatchesStrength(c: Coef)
    ensures ColourOf(c) == Green <==> StrengthOf(c) == Strong
    ensures ColourOf(c) == Amber <==> StrengthOf(c) == Medium
    ensures ColourOf(c) == Red <==> StrengthOf(c) in {Weak, Negligible}
  {
  }

  /** Only |r| matters: the coefficient of the opposite sign is shown alike. */
  lemma SignDoesNotMatter(c: Coef)
    ensures ColourOf(Coef(-c.num, c.sq)) == ColourOf(c)
    ensures StrengthOf(Coef(-c.num, c.sq)) == StrengthOf(c)
  {
    SquareNegate(c.num);
  }

  /** Rank of a label, higher for stronger. */
  function StrengthRank(s: Strength): nat
  {
    match s
    case Negligible => 0
    case Weak => 1
    case Medium => 2
    case Strong => 3
  }

  /** A larger |r| never gets a weaker label. */
  lemma StrengthMonotone(a: Coef, b: Coef, ra: real, rb: real)
    requires Denotes(a, ra) && Denotes(b, rb) && Abs(ra) <= Abs(rb)
    ensures StrengthRank(StrengthOf(a)) <= StrengthRank(StrengthOf(b))
  {
    StrengthMeans(a, ra);
    StrengthMeans(b, rb);
  }
}
