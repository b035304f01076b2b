/** `scripts/optimize_kfs.js`: a ten-term score that is linear in its weights,
    and a greedy random search that rescales one weight at a time and keeps a
    candidate only when the correlation with KBO wRC+ strictly improves. The
    random numbers are an input: one `Draw` per iteration. */
module Optimizer {
  import opened Js
  import opened Players
  import opened Correlation
  import opened Matching

  /** The keys of the weight object, in the order its literal lists them. */
  datatype WeightKey = KFactor | BbFactor | HrFactor | AvgFactor | BabipFactor
                     | ObpFactor | SlgFactor | WobaFactor | WrcFactor | GdpFactor

  /** `Object.keys(currentWeights)`. */
  const Keys: seq<WeightKey> :=
    [KFactor, BbFactor, HrFactor, AvgFactor, BabipFactor, ObpFactor, SlgFactor, WobaFactor, WrcFactor, GdpFactor]

  type Weights = map<WeightKey, real>

  /** Every key has a weight. */
  predicate Complete(w: Weights)
  {
    forall k: WeightKey :: k in w
  }

  /** Every weight is positive. */
  predicate Positive(w: Weights)
    requires Complete(w)
  {
    forall k: WeightKey :: w[k] > 0.0
  }

  const InitialWeights: Weights :=
    map[KFactor := 5.27, BbFactor := 0.64, HrFactor := 21.64, AvgFactor := 17.38, BabipFactor := 22.44,
        ObpFactor := 21.76, SlgFactor := 7.18, WobaFactor := 15.54, WrcFactor := 11.68, GdpFactor := 19.80]

  lemma InitialWeightsPositive()
    ensures Complete(InitialWeights) && Positive(InitialWeights)
    ensures forall k :: k in Keys
  {
    forall k: WeightKey ensures k in InitialWeights && InitialWeights[k] > 0.0 && k in Keys {
      match k
      case KFactor =>
      case BbFactor =>
      case HrFactor =>
      case AvgFactor =>
      case BabipFactor =>
      case ObpFactor =>
      case SlgFactor =>
      case WobaFactor =>
      case WrcFactor =>
      case GdpFactor =>
    }
  }

  /** The plate appearances used as a divisor: `p.pa || 300`, never 0. */
  function PaOf(p: Player): (pa: real)
    ensures pa != 0.0
    ensures Get(p, Pa) == Some(0.0) ==> pa == 300.0
  {
    OrNonZero(Get(p, Pa), 300.0);
    Or(Get(p, Pa), 300.0)
  }

  /** What multiplies each weight in `calculateScore`, after the `||` defaults. */
  function Feature(p: Player, k: WeightKey): real
  {
    match k
    case KFactor => 25.0 - Or(Get(p, KPct), 20.0)
    case BbFactor => Or(Get(p, BbPct), 8.0) - 5.0
    case HrFactor => (Or(Get(p, Hr), 10.0) / PaOf(p)) * 600.0
    case AvgFactor => Or(Get(p, Avg), 0.280) - 0.280
    case BabipFactor => Or(Get(p, Babip), 0.300) - 0.300
    case ObpFactor => Or(Get(p, Obp), 0.320) - 0.320
    case SlgFactor => Or(Get(p, Slg), 0.400) - 0.400
    case WobaFactor => Or(Get(p, Woba), 0.350) - 0.350
    case WrcFactor => Or(Get(p, WrcPlus), 100.0) - 100.0
    case GdpFactor => Or(Get(p, Gdp), 10.0) - 10.0
  }

  /** One of the ten weighted scores: `kScore`, `bbScore`, `powerScore`, .... */
  function Term(p: Player, w: Weights, k: WeightKey): real
    requires Complete(w)
  {
    Feature(p, k) * w[k]
  }

  /** `calculateScore(player, weights)`: the ten weighted scores, summed in the source's order. */
  function Score(p: Player, w: Weights): real
    requires Complete(w)
  {
    Term(p, w, KFactor) + Term(p, w, BbFactor) + Term(p, w, HrFactor) + Term(p, w, AvgFactor)
    + Term(p, w, BabipFactor) + Term(p, w, ObpFactor) + Term(p, w, SlgFactor) + Term(p, w, WobaFactor)
    + Term(p, w, WrcFactor) + Term(p, w, GdpFactor)
  }

  /** Σ Term(p, w, Keys[i]) over the first n keys: a reference definition of the score. */
  function WeightedSum(p: Player, w: Weights, n: nat): real
    requires Complete(w) && n <= |Keys|
  {
    if n == 0 then 0.0 else WeightedSum(p, w, n - 1) + Term(p, w, Keys[n - 1])
  }

  /** The score is the sum of feature times weight over every key of the weight object. */
  lemma ScoreIsWeightedSum(p: Player, w: Weights)
    requires Complete(w)
    ensures Score(p, w) == WeightedSum(p, w, |Keys|)
  {
    assert WeightedSum(p, w, 1) == Term(p, w, KFactor);
    assert WeightedSum(p, w, 2) == WeightedSum(p, w, 1) + Term(p, w, BbFactor);
    assert WeightedSum(p, w, 3) == WeightedSum(p, w, 2) + Term(p, w, HrFactor);
    assert WeightedSum(p, w, 4) == WeightedSum(p, w, 3) + Term(p, w, AvgFactor);
    assert WeightedSum(p, w, 5) == WeightedSum(p, w, 4) + Term(p, w, BabipFactor);
    assert WeightedSum(p, w, 6) == WeightedSum(p, w, 5) + Term(p, w, ObpFactor);
    assert WeightedSum(p, w, 7) == WeightedSum(p, w, 6) + Term(p, w, SlgFactor);
    assert WeightedSum(p, w, 8) == WeightedSum(p, w, 7) + Term(p, w, WobaFactor);
    assert WeightedSum(p, w, 9) == WeightedSum(p, w, 8) + Term(p, w, WrcFactor);
  }

  lemma MulSub(f: real, a: real, b: real)
    ensures f * b == f * a + f * (b - a)
  {
  }

  /** Changing one weight changes only its own term, by feature times the change. */
  lemma TermUpdate(p: Player, w: Weights, k: WeightKey, v: real, k': WeightKey)
    requires Complete(w)
    ensures Complete(w[k := v])
    ensures Term(p, w[k := v], k') == Term(p, w, k') + (if k' == k then Feature(p, k) * (v - w[k]) else 0.0)
  {
    if k' == k {
      MulSub(Feature(p, k), w[k], v);
    }
  }

  /** Changing one weight changes the score by feature times the change, whichever key it is. */
  lemma ScoreLinearInWeight(p: Player, w: Weights, k: WeightKey, v: real)
    requires Complete(w)
    ensures Complete(w[k := v])
    ensures Score(p, w[k := v]) == Score(p, w) + Feature(p, k) * (v - w[k])
  {
    ScoreIsWeightedSum(p, w);
    ScoreIsWeightedSum(p, w[k := v]);
    WeightedSumUpdate(p, w, k, v, |Keys|);
  }

  /** Where a key sits in `Keys`. */
  function KeyIndex(k: WeightKey): (i: nat)
    ensures i < |Keys| && Keys[i] == k
  {
    match k
    case KFactor => 0
    case BbFactor => 1
    case HrFactor => 2
    case AvgFactor => 3
    case BabipFactor => 4
    case ObpFactor => 5
    case SlgFactor => 6
    case WobaFactor => 7
    case WrcFactor => 8
    case GdpFactor => 9
  }

  lemma {:induction false} WeightedSumUpdate(p: Player, w: Weights, k: WeightKey, v: real, n: nat)
    requires Complete(w) && n <= |Keys|
    ensures Complete(w[k := v])
    ensures WeightedSum(p, w[k := v], n)
            == WeightedSum(p, w, n) + (if KeyIndex(k) < n then Feature(p, k) * (v - w[k]) else 0.0)
  {
    if n > 0 {
      var w', t := w[k := v], Keys[n - 1];
      WeightedSumUpdate(p, w, k, v, n - 1);
      TermUpdate(p, w, k, v, t);
      assert t == k <==> KeyIndex(k) == n - 1;
    }
  }

  /** `mergedData.map(d => calculateScore(d.pre, w))`. */
  function Scores(m: seq<Pair>, w: Weights): (s: seq<real>)
    requires Complete(w)
    ensures |s| == |m|
    ensures forall i :: 0 <= i < |m| ==> s[i] == Score(m[i].pre, w)
  {
    seq(|m|, i requires 0 <= i < |m| => Score(m[i].pre, w))
  }

  /** The correlation of the scores under w with KBO wRC+. */
  function Fitness(m: seq<Pair>, w: Weights): (c: Coef)
    requires Complete(w) && KboDefinesWrc(m)
    ensures Valid(c)
  {
    Pearson(Scores(m, w), KboWrcs(m))
  }

  // ------------------------------------------------------------- search

  const Iterations: nat := 10000

  /** The two `Math.random()` values one iteration draws: which key, and how much. */
  datatype Draw = Draw(pick: real, scale: real)

  predicate ValidDraw(d: Draw)
  {
    0.0 <= d.pick < 1.0 && 0.0 <= d.scale < 1.0
  }

  /** `Math.floor(Math.random() * keys.length)`; the weight object has ten keys. */
  function KeyToMutate(d: Draw): (k: WeightKey)
    requires ValidDraw(d)
    ensures k in Keys
  {
    var i := (d.pick * 10.0).Floor;
    assert 0 <= i < |Keys|;
    Keys[i]
  }

  /** `1 + (Math.random() * 0.2 - 0.1)`: a multiplier in [0.9, 1.1). */
  function Mutation(d: Draw): (x: real)
    requires ValidDraw(d)
    ensures 0.9 <= x < 1.1
  {
    1.0 + (d.scale * 0.2 - 0.1)
  }

  /** A copy of the best weights with one key scaled. */
  function Candidate(w: Weights, d: Draw): (c: Weights)
    requires Complete(w) && ValidDraw(d)
    ensures Complete(c) && c.Keys == w.Keys
    ensures c[KeyToMutate(d)] == w[KeyToMutate(d)] * Mutation(d)
    ensures forall k :: k != KeyToMutate(d) ==> c[k] == w[k]
    ensures Positive(w) ==> Positive(c)
  {
    var k := KeyToMutate(d);
    ScalePositive(w[k], Mutation(d));
    w[k := w[k] * Mutation(d)]
  }

  lemma ScalePositive(a: real, x: real)
    requires x > 0.0
    ensures a > 0.0 ==> a * x > 0.0
  {
    if a > 0.0 {
      MulPositive(a, x);
    }
  }

  datatype State = State(weights: Weights, corr: Coef)

  /** The start: the initial weights and their correlation. */
  function Start(m: seq<Pair>): (s: State)
    requires KboDefinesWrc(m)
    ensures Complete(s.weights)
  {
    InitialWeightsPositive();
    State(InitialWeights, Fitness(m, InitialWeights))
  }

  /** One iteration: keep the candidate only on a strict improvement. */
  function Step(m: seq<Pair>, s: State, d: Draw): (t: State)
    requires KboDefinesWrc(m) && Complete(s.weights) && Valid(s.corr) && ValidDraw(d)
    ensures Complete(t.weights)
  {
    var cand := Candidate(s.weights, d);
    var corr := Fitness(m, cand);
    if Gt(corr, s.corr) then State(cand, corr) else s
  }

  predicate ValidDraws(draws: seq<Draw>)
  {
    forall i :: 0 <= i < |draws| ==> ValidDraw(draws[i])
  }

  /** The state after the iterations that used `draws`, in order. */
  function Search(m: seq<Pair>, draws: seq<Draw>): (s: State)
    requires KboDefinesWrc(m) && ValidDraws(draws)
    ensures Complete(s.weights) && Valid(s.corr)
  {
    if |draws| == 0 then Start(m)
    else Step(m, Search(m, draws[..|draws| - 1]), draws[|draws| - 1])
  }

  /** The search loop, `ITERATIONS` times. */
  method Optimize(m: seq<Pair>, draws: seq<Draw>) returns (bestWeights: Weights, bestCorrelation: Coef)
    requires KboDefinesWrc(m) && |draws| == Iterations && ValidDraws(draws)
    ensures State(bestWeights, bestCorrelation) == Search(m, draws)
    ensures Complete(bestWeights) && Positive(bestWeights)
    ensures bestCorrelation == Fitness(m, bestWeights)
    ensures Ge(bestCorrelation, Start(m).corr)
  {
    InitialWeightsPositive();
    bestWeights := InitialWeights;
    var kboWrcs := KboWrcs(m);
    var initialCorr := Pearson(Scores(m, InitialWeights), kboWrcs);
    bestCorrelation := initialCorr;

    for i := 0 to Iterations
      invariant State(bestWeights, bestCorrelation) == Search(m, draws[..i])
    {
      SearchExtend(m, draws, i);
      var currentWeights := Candidate(bestWeights, draws[i]);
      var corr := Pearson(Scores(m, currentWeights), kboWrcs);
      if Gt(corr, bestCorrelation) {
        bestCorrelation := corr;
        bestWeights := currentWeights;
      }
    }
    assert draws[..|draws|] == draws;
    SearchInvariant(m, draws);
  }

  /** One more iteration is one more step. */
  lemma SearchExtend(m: seq<Pair>, draws: seq<Draw>, i: nat)
    requires KboDefinesWrc(m) && ValidDraws(draws) && i < |draws|
    ensures ValidDraws(draws[..i]) && ValidDraws(draws[..i + 1]) && ValidDraw(draws[i])
    ensures Search(m, draws[..i + 1]) == Step(m, Search(m, draws[..i]), draws[i])
  {
    assert draws[..i + 1][..i] == draws[..i];
  }

  /** The search keeps positive, complete weights, reports their own correlation, and never
      loses ground against the start. */
  lemma {:induction false} SearchInvariant(m: seq<Pair>, draws: seq<Draw>)
    requires KboDefinesWrc(m) && ValidDraws(draws)
    ensures Positive(Search(m, draws).weights)
    ensures Search(m, draws).corr == Fitness(m, Search(m, draws).weights)
    ensures Ge(Search(m, draws).corr, Start(m).corr)
  {
    if |draws| == 0 {
      InitialWeightsPositive();
      GtIrreflexive(Start(m).corr);
    } else {
      var prefix := draws[..|draws| - 1];
      assert ValidDraws(prefix);
      SearchInvariant(m, prefix);
      StepNeverLoses(m, Search(m, prefix), draws[|draws| - 1]);
      GeTransitive(Search(m, draws).corr, Search(m, prefix).corr, Start(m).corr);
    }
  }

  /** A step either keeps the state or moves to a strictly better candidate that differs from
      the current weights in one key only. */
  lemma StepNeverLoses(m: seq<Pair>, s: State, d: Draw)
    requires KboDefinesWrc(m) && Complete(s.weights) && Valid(s.corr) && ValidDraw(d)
    ensures Ge(Step(m, s, d).corr, s.corr)
    ensures Step(m, s, d) == s || (Gt(Step(m, s, d).corr, s.corr) && Step(m, s, d).weights == Candidate(s.weights, d))
    ensures forall k :: k != KeyToMutate(d) ==> Step(m, s, d).weights[k] == s.weights[k]
    ensures Positive(s.weights) ==> Positive(Step(m, s, d).weights)
    ensures s.corr == Fitness(m, s.weights) ==> Step(m, s, d).corr == Fitness(m, Step(m, s, d).weights)
  {
    var t := Step(m, s, d);
    if t == s {
      GtIrreflexive(s.corr);
    } else {
      GtImpliesGe(t.corr, s.corr);
    }
  }
}
