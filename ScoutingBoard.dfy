/** `src/components/AAAScoutingBoard.tsx`: the K-Success score of an AAA
    hitter (six capped sub-scores, a clamped total, a predicted KBO wRC+, a
    success probability and a risk tier), its strength and concern lists,
    the board's filter, search, sort and page slicing, and the page-number
    window of the pager. */
module ScoutingBoard {
  import opened Js
  import opened Players
  import opened Sorting

  // ------------------------------------------------------------- inputs

  /** The fields `calculateKSuccessScore` reads, after their `||` defaults. */
  datatype Inputs = Inputs(wrcPlus: real, kPct: real, bbPct: real, hr: real, pa: real, age: real,
                           babip: real, obp: real, slg: real, ldPct: real, gbPct: real,
                           iffbPct: real, swstrPct: real)

  function InputsOf(p: Player): (r: Inputs)
    ensures r.pa != 0.0
    ensures Truthy(Get(p, Pa)) ==> r.pa == p.stats[Pa]
  {
    OrNonZero(Get(p, Pa), 300.0);
    Inputs(Or(Get(p, WrcPlus), 100.0), Or(Get(p, KPct), 20.0), Or(Get(p, BbPct), 8.0), Or(Get(p, Hr), 10.0),
           Or(Get(p, Pa), 300.0), Or(Get(p, Age), 28.0), Or(Get(p, Babip), 0.300), Or(Get(p, Obp), 0.320),
           Or(Get(p, Slg), 0.400), Or(Get(p, LdPct), 20.0), Or(Get(p, GbPct), 45.0), Or(Get(p, IffbPct), 10.0),
           Or(Get(p, SwstrPct), 10.0))
  }

  // --------------------------------------------------------- sub-scores

  /** Plate discipline: strikeouts, walks and swinging strikes, capped at 35. */
  function Discipline(r: Inputs): (d: real)
    ensures 0.0 <= d <= 35.0
  {
    Min(35.0, Max(0.0, (25.0 - r.kPct) * 1.2) + Max(0.0, (r.bbPct - 5.0) * 1.0) + Max(0.0, (15.0 - r.swstrPct) * 0.8))
  }

  /** Home runs per plate appearance. */
  function HrPerPa(r: Inputs): real
    requires r.pa != 0.0
  {
    r.hr / r.pa
  }

  /** Power and batted-ball quality: capped above at 30, with no floor. */
  function BatQuality(r: Inputs): (b: real)
    requires r.pa != 0.0
    ensures b <= 30.0
    ensures b >= Min(15.0, HrPerPa(r) * 1000.0 * 0.75) - Max(0.0, (r.iffbPct - 8.0) * 0.5)
  {
    Min(30.0, Min(15.0, HrPerPa(r) * 1000.0 * 0.75) + Max(0.0, (r.ldPct - 18.0) * 0.4) - Max(0.0, (r.iffbPct - 8.0) * 0.5))
  }

  /** On-base and slugging, capped at 20. */
  function OnBase(r: Inputs): (o: real)
    ensures 0.0 <= o <= 20.0
  {
    Min(20.0, Max(0.0, (r.obp - 0.300) * 50.0) + Max(0.0, (r.slg - 0.350) * 30.0))
  }

  /** BABIP stability: full marks inside [.280, .380], less outside. */
  function BabipScore(babip: real): (b: real)
    ensures 0.0 <= b <= 10.0
    ensures 0.280 <= babip <= 0.380 <==> b == 10.0
  {
    if babip > 0.380 then Max(0.0, 10.0 - (babip - 0.380) * 30.0)
    else if babip < 0.280 then Max(0.0, (babip - 0.250) * 30.0)
    else 10.0
  }

  /** Youth, in [0, 10]. */
  function AgeScore(age: real): (a: real)
    ensures 0.0 <= a <= 10.0
  {
    Max(0.0, Min(10.0, (32.0 - age) * 0.7))
  }

  /** Sample size: at most 5, and not negative from 200 plate appearances on. */
  function PaScore(pa: real): (s: real)
    ensures s <= 5.0
    ensures pa >= 200.0 ==> s >= 0.0
  {
    Min(5.0, (pa - 200.0) / 80.0)
  }

  /** wRC+, in [0, 15]. */
  function WrcScore(wrcPlus: real): (w: real)
    ensures 0.0 <= w <= 15.0
  {
    Max(0.0, Min(15.0, (wrcPlus - 80.0) * 0.25))
  }

  /** The six sub-scores summed and kept within [0, 100]. */
  function TotalScore(r: Inputs): (t: real)
    requires r.pa != 0.0
    ensures 0.0 <= t <= 100.0
  {
    Clamp(Discipline(r) + BatQuality(r) + OnBase(r) + BabipScore(r.babip) + (AgeScore(r.age) + PaScore(r.pa))
          + WrcScore(r.wrcPlus), 0.0, 100.0)
  }

  /** `Math.round(wrcPlus * 0.75 + 100 * 0.25 + disciplineFactor * 5)`. */
  function PredictedWrcPlus(r: Inputs): (w: int)
    ensures var x := r.wrcPlus * 0.75 + 25.0 + ((100.0 - r.kPct * 2.0 + r.bbPct * 1.5) / 100.0) * 5.0;
            x - 0.5 < w as real <= x + 0.5
  {
    Round(r.wrcPlus * 0.75 + 100.0 * 0.25 + ((100.0 - r.kPct * 2.0 + r.bbPct * 1.5) / 100.0) * 5.0)
  }

  /** 0.9 of the total plus two bonuses, kept within [5, 95]. */
  function SuccessProbability(r: Inputs, total: real): (p: real)
    ensures 5.0 <= p <= 95.0
  {
    Min(95.0, Max(5.0, total * 0.9 + (if r.kPct < 20.0 then 5.0 else 0.0) + (if r.bbPct > 10.0 then 5.0 else 0.0)))
  }

  lemma SuccessProbabilityMonotone(r: Inputs, t1: real, t2: real)
    requires t1 <= t2
    ensures SuccessProbability(r, t1) <= SuccessProbability(r, t2)
  {
  }

  datatype RiskLevel = Low | Moderate | High

  /** Higher is safer. */
  function Safety(l: RiskLevel): nat
  {
    match l
    case High => 0
    case Moderate => 1
    case Low => 2
  }

  function RiskOf(total: real): (l: RiskLevel)
    ensures l == Low <==> total >= 67.0
    ensures l == High <==> total < 33.0
  {
    if total >= 67.0 then Low else if total >= 33.0 then Moderate else High
  }

  /** A higher total never raises the risk. */
  lemma RiskMonotone(t1: real, t2: real)
    requires t1 <= t2
    ensures Safety(RiskOf(t1)) <= Safety(RiskOf(t2))
  {
  }

  // ------------------------------------------------- strengths, concerns

  /** The text of each strength, as a tag. */
  datatype StrengthTag =
    | EliteContact | GoodContact | EliteEye | GoodEye | StrongPower | DecentPower
    | SwingContact | QualityContact | VeryYoung | Young | AaaElite | AaaGood
    | FullSample | FairSample | HighObp | StableBabip

  /** The text of each concern, as a tag. */
  datatype ConcernTag =
    | VeryHighK | HighK | VeryLowBb | LowBb | LimitedPower | HighSwstr | HighIffb | HighGb
    | Old | Aging | SmallSample | BelowAverage | LuckyBabip | LowBabip | LowObp

  /** The `if` statement a strength comes from, 0 to 9 in source order. */
  function StrengthRank(t: StrengthTag): nat
  {
    match t
    case EliteContact => 0
    case GoodContact => 0
    case EliteEye => 1
    case GoodEye => 1
    case StrongPower => 2
    case DecentPower => 2
    case SwingContact => 3
    case QualityContact => 4
    case VeryYoung => 5
    case Young => 5
    case AaaElite => 6
    case AaaGood => 6
    case FullSample => 7
    case FairSample => 7
    case HighObp => 8
    case StableBabip => 9
  }

  /** The `if` statement a concern comes from, 0 to 10 in source order. */
  function ConcernRank(t: ConcernTag): nat
  {
    match t
    case VeryHighK => 0
    case HighK => 0
    case VeryLowBb => 1
    case LowBb => 1
    case LimitedPower => 2
    case HighSwstr => 3
    case HighIffb => 4
    case HighGb => 5
    case Old => 6
    case Aging => 6
    case SmallSample => 7
    case BelowAverage => 8
    case LuckyBabip => 9
    case LowBabip => 9
    case LowObp => 10
  }

  /** What the i-th strength statement pushes: nothing or one tag. */
  function StrengthStep(r: Inputs, i: nat): seq<StrengthTag>
    requires r.pa != 0.0
  {
    if i == 0 then (if r.kPct < 18.0 then [EliteContact] else if r.kPct < 22.0 then [GoodContact] else [])
    else if i == 1 then (if r.bbPct > 12.0 then [EliteEye] else if r.bbPct > 9.0 then [GoodEye] else [])
    else if i == 2 then (if HrPerPa(r) > 0.06 then [StrongPower] else if HrPerPa(r) > 0.04 then [DecentPower] else [])
    else if i == 3 then (if r.swstrPct < 9.0 then [SwingContact] else [])
    else if i == 4 then (if r.ldPct > 22.0 then [QualityContact] else [])
    else if i == 5 then (if r.age < 25.0 then [VeryYoung] else if r.age < 27.0 then [Young] else [])
    else if i == 6 then (if r.wrcPlus > 140.0 then [AaaElite] else if r.wrcPlus > 120.0 then [AaaGood] else [])
    else if i == 7 then (if r.pa > 450.0 then [FullSample] else if r.pa > 350.0 then [FairSample] else [])
    else if i == 8 then (if r.obp > 0.380 then [HighObp] else [])
    else if i == 9 then (if r.babip > 0.300 && r.babip < 0.370 then [StableBabip] else [])
    else []
  }

  /** What the i-th concern statement pushes: nothing or one tag. */
  function ConcernStep(r: Inputs, i: nat): seq<ConcernTag>
    requires r.pa != 0.0
  {
    if i == 0 then (if r.kPct > 28.0 then [VeryHighK] else if r.kPct > 24.0 then [HighK] else [])
    else if i == 1 then (if r.bbPct < 5.0 then [VeryLowBb] else if r.bbPct < 7.0 then [LowBb] else [])
    else if i == 2 then (if HrPerPa(r) < 0.025 then [LimitedPower] else [])
    else if i == 3 then (if r.swstrPct > 12.0 then [HighSwstr] else [])
    else if i == 4 then (if r.iffbPct > 12.0 then [HighIffb] else [])
    else if i == 5 then (if r.gbPct > 50.0 then [HighGb] else [])
    else if i == 6 then (if r.age > 31.0 then [Old] else if r.age > 29.0 then [Aging] else [])
    else if i == 7 then (if r.pa < 250.0 then [SmallSample] else [])
    else if i == 8 then (if r.wrcPlus < 95.0 then [BelowAverage] else [])
    else if i == 9 then (if r.babip > 0.400 then [LuckyBabip] else if r.babip < 0.270 then [LowBabip] else [])
    else if i == 10 then (if r.obp < 0.310 then [LowObp] else [])
    else []
  }

  /** The pushes of the first n statements, in order. */
  function Collect<T>(step: nat -> seq<T>, n: nat): seq<T>
  {
    if n == 0 then [] else Collect(step, n - 1) + step(n - 1)
  }

  /** Statement i pushes at most one entry, and only entries of rank i. */
  predicate Ranked<T(==)>(step: nat -> seq<T>, rank: T -> nat, n: nat)
  {
    forall i :: 0 <= i < n ==> |step(i)| <= 1 && forall x :: x in step(i) ==> rank(x) == i
  }

  /** The entries collected from ranked statements have strictly increasing ranks, so no two
      come from the same statement, and an entry is present exactly when its own statement
      pushed it. */
  lemma {:induction false} CollectRanked<T>(step: nat -> seq<T>, rank: T -> nat, n: nat)
    requires Ranked(step, rank, n)
    ensures forall i, j :: 0 <= i < j < |Collect(step, n)| ==> rank(Collect(step, n)[i]) < rank(Collect(step, n)[j])
    ensures forall x :: x in Collect(step, n) ==> rank(x) < n && x in step(rank(x))
    ensures forall x :: rank(x) < n && x in step(rank(x)) ==> x in Collect(step, n)
  {
    if n > 0 {
      CollectRanked(step, rank, n - 1);
      var prev, last := Collect(step, n - 1), step(n - 1);
      var all := prev + last;
      assert Collect(step, n) == all;
      assert |last| <= 1 && forall x :: x in last ==> rank(x) == n - 1;
      forall i, j | 0 <= i < j < |all|
        ensures rank(all[i]) < rank(all[j])
      {
        if j < |prev| {
          assert all[i] == prev[i] && all[j] == prev[j];
        } else {
          assert i < |prev|;
          assert all[i] == prev[i] && prev[i] in prev;
          assert rank(prev[i]) < n - 1;
          assert all[j] == last[j - |prev|] && last[j - |prev|] in last;
          assert rank(last[j - |prev|]) == n - 1;
        }
      }
      forall x | rank(x) < n && x in step(rank(x))
        ensures x in all
      {
        if rank(x) < n - 1 {
          assert x in prev;
        }
      }
    }
  }

  /** Strictly increasing ranks below n leave room for n entries at most. */
  lemma {:induction false} RankedLength<T>(s: seq<T>, rank: T -> nat, n: nat)
    requires forall i, j :: 0 <= i < j < |s| ==> rank(s[i]) < rank(s[j])
    requires forall i :: 0 <= i < |s| ==> rank(s[i]) < n
    ensures |s| <= n
  {
    if |s| > 0 {
      var init := s[..|s| - 1];
      var top := rank(s[|s| - 1]);
      forall i | 0 <= i < |init| ensures rank(init[i]) < top
      {
        assert init[i] == s[i];
      }
      RankedLength(init, rank, top);
    }
  }

  /** The strength statements as one function from position to pushes. */
  function StrengthSteps(r: Inputs): nat -> seq<StrengthTag>
    requires r.pa != 0.0
  {
    (i: nat) => StrengthStep(r, i)
  }

  /** The concern statements as one function from position to pushes. */
  function ConcernSteps(r: Inputs): nat -> seq<ConcernTag>
    requires r.pa != 0.0
  {
    (i: nat) => ConcernStep(r, i)
  }

  /** `strengths`: what the ten strength statements push, in order. */
  function Strengths(r: Inputs): seq<StrengthTag>
    requires r.pa != 0.0
  {
    Collect(StrengthSteps(r), 10)
  }

  /** `concerns`: what the eleven concern statements push, in order. */
  function Concerns(r: Inputs): seq<ConcernTag>
    requires r.pa != 0.0
  {
    Collect(ConcernSteps(r), 11)
  }

  /** The conditions under which each strength is listed. */
  predicate EarnsStrength(r: Inputs, t: StrengthTag)
    requires r.pa != 0.0
  {
    match t
    case EliteContact => r.kPct < 18.0
    case GoodContact => 18.0 <= r.kPct < 22.0
    case EliteEye => r.bbPct > 12.0
    case GoodEye => 9.0 < r.bbPct <= 12.0
    case StrongPower => HrPerPa(r) > 0.06
    case DecentPower => 0.04 < HrPerPa(r) <= 0.06
    case SwingContact => r.swstrPct < 9.0
    case QualityContact => r.ldPct > 22.0
    case VeryYoung => r.age < 25.0
    case Young => 25.0 <= r.age < 27.0
    case AaaElite => r.wrcPlus > 140.0
    case AaaGood => 120.0 < r.wrcPlus <= 140.0
    case FullSample => r.pa > 450.0
    case FairSample => 350.0 < r.pa <= 450.0
    case HighObp => r.obp > 0.380
    case StableBabip => 0.300 < r.babip < 0.370
  }

  /** The conditions under which each concern is listed. */
  predicate RaisesConcern(r: Inputs, t: ConcernTag)
    requires r.pa != 0.0
  {
    match t
    case VeryHighK => r.kPct > 28.0
    case HighK => 24.0 < r.kPct <= 28.0
    case VeryLowBb => r.bbPct < 5.0
    case LowBb => 5.0 <= r.bbPct < 7.0
    case LimitedPower => HrPerPa(r) < 0.025
    case HighSwstr => r.swstrPct > 12.0
    case HighIffb => r.iffbPct > 12.0
    case HighGb => r.gbPct > 50.0
    case Old => r.age > 31.0
    case Aging => 29.0 < r.age <= 31.0
    case SmallSample => r.pa < 250.0
    case BelowAverage => r.wrcPlus < 95.0
    case LuckyBabip => r.babip > 0.400
    case LowBabip => r.babip < 0.270
    case LowObp => r.obp < 0.310
  }

  /** Each strength statement pushes at most one tag, of its own rank. */
  lemma StrengthStepRanked(r: Inputs, i: nat)
    requires r.pa != 0.0
    ensures |StrengthStep(r, i)| <= 1
    ensures forall t :: t in StrengthStep(r, i) ==> StrengthRank(t) == i
  {
  }

  /** A strength's own statement pushes it exactly when its condition holds. */
  lemma StrengthStepEarns(r: Inputs, t: StrengthTag)
    requires r.pa != 0.0
    ensures t in StrengthStep(r, StrengthRank(t)) <==> EarnsStrength(r, t)
  {
  }

  /** Each concern statement pushes at most one tag, of its own rank. */
  lemma ConcernStepRanked(r: Inputs, i: nat)
    requires r.pa != 0.0
    ensures |ConcernStep(r, i)| <= 1
    ensures forall t :: t in ConcernStep(r, i) ==> ConcernRank(t) == i
  {
  }

  /** A concern's own statement pushes it exactly when its condition holds. */
  lemma ConcernStepRaises(r: Inputs, t: ConcernTag)
    requires r.pa != 0.0
    ensures t in ConcernStep(r, ConcernRank(t)) <==> RaisesConcern(r, t)
  {
  }

  /** The strength list: one entry at most per statement, in statement order, and each
      strength exactly when its condition holds. */
  lemma StrengthsCorrect(r: Inputs)
    requires r.pa != 0.0
    ensures forall i, j :: 0 <= i < j < |Strengths(r)| ==> StrengthRank(Strengths(r)[i]) < StrengthRank(Strengths(r)[j])
    ensures forall t :: t in Strengths(r) <==> EarnsStrength(r, t)
    ensures |Strengths(r)| <= 10
  {
    var step := StrengthSteps(r);
    forall i | 0 <= i < 10
      ensures |step(i)| <= 1 && forall x :: x in step(i) ==> StrengthRank(x) == i
    {
      StrengthStepRanked(r, i);
    }
    CollectRanked(step, StrengthRank, 10);
    forall t
      ensures t in Strengths(r) <==> EarnsStrength(r, t)
    {
      StrengthStepEarns(r, t);
    }
    var s := Strengths(r);
    forall i | 0 <= i < |s| ensures StrengthRank(s[i]) < 10
    {
      assert s[i] in s;
    }
    RankedLength(s, StrengthRank, 10);
  }

  /** The concern list, likewise. */
  lemma ConcernsCorrect(r: Inputs)
    requires r.pa != 0.0
    ensures forall i, j :: 0 <= i < j < |Concerns(r)| ==> ConcernRank(Concerns(r)[i]) < ConcernRank(Concerns(r)[j])
    ensures forall t :: t in Concerns(r) <==> RaisesConcern(r, t)
    ensures |Concerns(r)| <= 11
  {
    var step := ConcernSteps(r);
    forall i | 0 <= i < 11
      ensures |step(i)| <= 1 && forall x :: x in step(i) ==> ConcernRank(x) == i
    {
      ConcernStepRanked(r, i);
    }
    CollectRanked(step, ConcernRank, 11);
    forall t
      ensures t in Concerns(r) <==> RaisesConcern(r, t)
    {
      ConcernStepRaises(r, t);
    }
    var s := Concerns(r);
    forall i | 0 <= i < |s| ensures ConcernRank(s[i]) < 11
    {
      assert s[i] in s;
    }
    RankedLength(s, ConcernRank, 11);
  }

  /** The K% strength needs k < 22 and the K% concern k > 24, so they never meet. */
  lemma ContactStrengthExcludesConcern(r: Inputs)
    requires r.pa != 0.0
    ensures (EliteContact in Strengths(r) || GoodContact in Strengths(r)) ==>
            VeryHighK !in Concerns(r) && HighK !in Concerns(r)
  {
    StrengthsCorrect(r);
    ConcernsCorrect(r);
  }

  // --------------------------------------------------------- the score

  datatype KSuccessScore = KSuccessScore(score: int, predictedWrcPlus: int, successProbability: int,
                                         riskLevel: RiskLevel, strengths: seq<StrengthTag>,
                                         concerns: seq<ConcernTag>)

  /** `calculateKSuccessScore(player)`. */
  function Evaluate(p: Player): (s: KSuccessScore)
    ensures 0 <= s.score <= 100
    ensures 5 <= s.successProbability <= 95
    ensures var t := TotalScore(InputsOf(p));
            t - 0.5 < s.score as real <= t + 0.5 && s.riskLevel == RiskOf(t)
            && s.successProbability == Round(SuccessProbability(InputsOf(p), t))
    ensures s.predictedWrcPlus == PredictedWrcPlus(InputsOf(p))
    ensures s.strengths == Strengths(InputsOf(p)) && s.concerns == Concerns(InputsOf(p))
  {
    var r := InputsOf(p);
    var total := TotalScore(r);
    RoundWithin(total, 0, 100);
    RoundWithin(SuccessProbability(r, total), 5, 95);
    KSuccessScore(Round(total), PredictedWrcPlus(r), Round(SuccessProbability(r, total)), RiskOf(total),
                  Strengths(r), Concerns(r))
  }

  /** Batted-ball quality has no floor: a 50% infield-fly rate makes it negative. */
  lemma BatQualityCanBeNegative()
    ensures BatQuality(InputsOf(Player("", None, map[IffbPct := 50.0]))) < 0.0
  {
    var r := InputsOf(Player("", None, map[IffbPct := 50.0]));
    assert r.hr == 10.0 && r.pa == 300.0 && r.ldPct == 20.0 && r.iffbPct == 50.0;
    assert HrPerPa(r) * 1000.0 * 0.75 == 25.0;
  }

  // --------------------------------------------------------- the board

  /** `p.pa && p.pa >= 200`. */
  predicate Eligible(p: Player)
  {
    Truthy(Get(p, Pa)) && p.stats[Pa] >= 200.0
  }

  /** An eligible player's sample score lies in [0, 5]. */
  lemma EligiblePaScore(p: Player)
    requires Eligible(p)
    ensures 0.0 <= PaScore(InputsOf(p).pa) <= 5.0
  {
  }

  datatype ScoredPlayer = ScoredPlayer(player: Player, kScore: KSuccessScore)

  /** `{ ...player, kScore: calculateKSuccessScore(player) }`. */
  function Scored(p: Player): (x: ScoredPlayer)
    ensures x.player == p && x.kScore == Evaluate(p)
  {
    ScoredPlayer(p, Evaluate(p))
  }

  /** `playersWithScores`: the eligible players, in order, each with its score. */
  function PlayersWithScores(aaa: seq<Player>): (s: seq<ScoredPlayer>)
    ensures |s| <= |aaa|
  {
    if |aaa| == 0 then []
    else
      var rest := PlayersWithScores(aaa[..|aaa| - 1]);
      var p := aaa[|aaa| - 1];
      if Eligible(p) then rest + [Scored(p)] else rest
  }

  /** The board lists exactly the eligible players, each with its own score. */
  lemma {:induction false} PlayersWithScoresMembers(aaa: seq<Player>)
    ensures forall x :: x in PlayersWithScores(aaa) <==> x.player in aaa && Eligible(x.player) && x == Scored(x.player)
  {
    if |aaa| > 0 {
      var init, p := aaa[..|aaa| - 1], aaa[|aaa| - 1];
      PlayersWithScoresMembers(init);
      assert aaa == init + [p];
      forall x
        ensures x in PlayersWithScores(aaa) <==> x.player in aaa && Eligible(x.player) && x == Scored(x.player)
      {
        assert x.player in aaa <==> x.player in init || x.player == p;
      }
    }
  }

  /** ASCII `toLowerCase`. */
  function LowerChar(c: char): (d: char)
    ensures 'A' <= c <= 'Z' ==> d as int == c as int + 32
    ensures !('A' <= c <= 'Z') ==> d == c
  {
    if 'A' <= c <= 'Z' then (c as int + 32) as char else c
  }

  function Lower(s: string): (t: string)
    ensures |t| == |s|
    ensures forall i :: 0 <= i < |s| ==> t[i] == LowerChar(s[i])
  {
    seq(|s|, i requires 0 <= i < |s| => LowerChar(s[i]))
  }

  /** `s.includes(t)`. */
  predicate Includes(s: string, t: string)
  {
    exists i :: 0 <= i <= |s| - |t| && OccursAt(s, t, i)
  }

  /** t is the slice of s that starts at i. */
  predicate OccursAt(s: string, t: string, i: nat)
    requires i + |t| <= |s|
  {
    s[i..i + |t|] == t
  }

  /** The empty string is included in every string. */
  lemma IncludesEmpty(s: string)
    ensures Includes(s, "")
  {
    assert OccursAt(s, "", 0);
  }

  /** The search predicate: name, or team when present, contains the term, ignoring case. */
  predicate Matches(p: Player, term: string)
  {
    Includes(Lower(p.name), Lower(term)) || (p.team.Some? && Includes(Lower(p.team.value), Lower(term)))
  }

  /** `filtered.filter(...)` on a non-empty term. */
  function Search(s: seq<ScoredPlayer>, term: string): (r: seq<ScoredPlayer>)
    ensures |r| <= |s|
    ensures forall x :: x in r <==> x in s && Matches(x.player, term)
  {
    if |s| == 0 then []
    else
      var rest := Search(s[..|s| - 1], term);
      var x := s[|s| - 1];
      assert s == s[..|s| - 1] + [x];
      if Matches(x.player, term) then rest + [x] else rest
  }

  /** The `if (searchTerm)` guard: an empty term keeps the list as it is. */
  function SearchIfTerm(s: seq<ScoredPlayer>, term: string): seq<ScoredPlayer>
  {
    if term == "" then s else Search(s, term)
  }

  /** Filtering by the empty term would keep everything anyway. */
  lemma {:induction false} SearchEmptyKeepsAll(s: seq<ScoredPlayer>)
    ensures Search(s, "") == s
  {
    if |s| > 0 {
      SearchEmptyKeepsAll(s[..|s| - 1]);
      IncludesEmpty(Lower(s[|s| - 1].player.name));
      assert s == s[..|s| - 1] + [s[|s| - 1]];
    }
  }

  datatype SortOrder = ByScore | ByWrcPlus | ByAge

  /** The comparator as an ascending key: score and wRC+ (missing = 0) descending,
      age (missing = 30) ascending. */
  function SortKey(order: SortOrder, x: ScoredPlayer): real
  {
    match order
    case ByScore => -(x.kScore.score as real)
    case ByWrcPlus => -Or(Get(x.player, WrcPlus), 0.0)
    case ByAge => Or(Get(x.player, Age), 30.0)
  }

  /** `filteredPlayers`: search, then sort in place. */
  method FilteredPlayers(scored: seq<ScoredPlayer>, term: string, order: SortOrder) returns (filtered: seq<ScoredPlayer>)
    ensures multiset(filtered) == multiset(SearchIfTerm(scored, term))
    ensures SortedBy(filtered, (x: ScoredPlayer) => SortKey(order, x))
  {
    var found := SearchIfTerm(scored, term);
    var a := new ScoredPlayer[|found|](i requires 0 <= i < |found| => found[i]);
    assert a[..] == found;
    SortBy(a, (x: ScoredPlayer) => SortKey(order, x));
    filtered := a[..];
  }

  /** Sorting by score lists higher scores first. */
  lemma ScoreOrderDescending(filtered: seq<ScoredPlayer>, i: nat, j: nat)
    requires SortedBy(filtered, (x: ScoredPlayer) => SortKey(ByScore, x))
    requires i < j < |filtered|
    ensures filtered[i].kScore.score >= filtered[j].kScore.score
  {
    assert SortKey(ByScore, filtered[i]) <= SortKey(ByScore, filtered[j]);
  }

  // ----------------------------------------------------------- paging

  const PlayersPerPage: nat := 12

  /** `Math.ceil(length / PLAYERS_PER_PAGE)`. */
  function TotalPages(n: nat): (t: nat)
    ensures t * PlayersPerPage >= n
    ensures t == 0 || (t - 1) * PlayersPerPage < n
  {
    (n + PlayersPerPage - 1) / PlayersPerPage
  }

  /** A `slice` index: negative counts from the end, and both are clipped to the length. */
  function SliceIndex(i: int, len: nat): (k: nat)
    ensures k <= len
    ensures 0 <= i <= len ==> k == i
  {
    if i < 0 then (if len + i < 0 then 0 else len + i) else if i > len then len else i
  }

  /** `s.slice(start, end)`: the elements from the clipped start up to the clipped end. */
  function Slice<T>(s: seq<T>, start: int, end: int): (r: seq<T>)
    ensures var a, b := SliceIndex(start, |s|), SliceIndex(end, |s|);
            |r| == (if a < b then b - a else 0) && forall k :: 0 <= k < |r| ==> r[k] == s[a + k]
  {
    var a, b := SliceIndex(start, |s|), SliceIndex(end, |s|);
    if a < b then s[a..b] else []
  }

  /** `currentPlayers`: the page's slice of the list. */
  function CurrentPlayers<T>(s: seq<T>, currentPage: int): (page: seq<T>)
    ensures |page| <= PlayersPerPage
  {
    var start := (currentPage - 1) * PlayersPerPage;
    Slice(s, start, start + PlayersPerPage)
  }

  /** Every entry of the list is on exactly the page its position says, and that page exists. */
  lemma PageOfIndex<T>(s: seq<T>, i: nat)
    requires i < |s|
    ensures 1 <= i / PlayersPerPage + 1 <= TotalPages(|s|)
    ensures CurrentPlayers(s, i / PlayersPerPage + 1)[i % PlayersPerPage] == s[i]
  {
    var p := i / PlayersPerPage;
    assert p * PlayersPerPage <= i < p * PlayersPerPage + PlayersPerPage;
  }

  /** Pages 1 to k, one after the other. */
  function PagesUpTo<T>(s: seq<T>, k: nat): seq<T>
  {
    if k == 0 then [] else PagesUpTo(s, k - 1) + CurrentPlayers(s, k)
  }

  /** The first k pages are the first k * PlayersPerPage entries, or the whole list. */
  lemma {:induction false} PagesUpToPrefix<T>(s: seq<T>, k: nat)
    ensures PagesUpTo(s, k) == s[..if k * PlayersPerPage < |s| then k * PlayersPerPage else |s|]
  {
    if k > 0 {
      PagesUpToPrefix(s, k - 1);
      var lo := (k - 1) * PlayersPerPage;
      var a := if lo < |s| then lo else |s|;
      var b := if k * PlayersPerPage < |s| then k * PlayersPerPage else |s|;
      var page := CurrentPlayers(s, k);
      assert |page| == b - a;
      assert s[..b] == s[..a] + s[a..b];
      assert page == s[a..b];
    }
  }

  /** Paging loses and repeats nothing: the pages, in order, are the whole list. */
  lemma PagesCoverList<T>(s: seq<T>)
    ensures PagesUpTo(s, TotalPages(|s|)) == s
  {
    PagesUpToPrefix(s, TotalPages(|s|));
  }

  /** A page-number button or an ellipsis. */
  datatype PageItem = Num(n: int) | Ellipsis

  /** What `getPageNumbers()` returns: every page when there are at most seven, otherwise a
      window of seven items that keeps the first and last page and the current one. */
  function PageNumbers(totalPages: nat, currentPage: int): seq<PageItem>
  {
    if totalPages <= 7 then Run(1, totalPages + 1)
    else if currentPage <= 4 then Run(1, 6) + [Ellipsis, Num(totalPages)]
    else if currentPage >= totalPages - 3 then [Num(1), Ellipsis] + Run(totalPages - 4, totalPages + 1)
    else [Num(1), Ellipsis] + Run(currentPage - 1, currentPage + 2) + [Ellipsis, Num(totalPages)]
  }

  /** The page numbers are increasing and real pages, the first and last page are always
      there, the current page is there whenever it exists, and there are never more than
      seven items. */
  lemma PageNumbersShape(totalPages: nat, currentPage: int)
    ensures var pages := PageNumbers(totalPages, currentPage);
            |pages| == (if totalPages <= 7 then totalPages else 7)
            && (forall i, j :: 0 <= i < j < |pages| && pages[i].Num? && pages[j].Num? ==> pages[i].n < pages[j].n)
            && (forall i :: 0 <= i < |pages| && pages[i].Num? ==> 1 <= pages[i].n <= totalPages)
            && (totalPages >= 1 ==> pages[0] == Num(1) && pages[|pages| - 1] == Num(totalPages))
            && (1 <= currentPage <= totalPages ==> Num(currentPage) in pages)
            && (Ellipsis in pages ==> totalPages > 7)
  {
    var pages := PageNumbers(totalPages, currentPage);
    if totalPages <= 7 {
      if 1 <= currentPage <= totalPages {
        assert pages[currentPage - 1] == Num(currentPage);
      }
    } else if currentPage <= 4 {
      if 1 <= currentPage {
        assert pages[currentPage - 1] == Num(currentPage);
      }
    } else if currentPage >= totalPages - 3 {
      if currentPage <= totalPages {
        assert pages[currentPage - totalPages + 6] == Num(currentPage);
      }
    } else {
      assert pages[3] == Num(currentPage);
    }
  }

  /** `getPageNumbers()`, pushing as the component does. */
  method GetPageNumbers(totalPages: nat, currentPage: int) returns (pages: seq<PageItem>)
    ensures pages == PageNumbers(totalPages, currentPage)
  {
    pages := [];
    var maxVisible := 7;
    if totalPages <= maxVisible {
      for i := 1 to totalPages + 1
        invariant pages == Run(1, i)
      {
        pages := pages + [Num(i)];
      }
    } else {
      if currentPage <= 4 {
        for i := 1 to 6
          invariant pages == Run(1, i)
        {
          pages := pages + [Num(i)];
        }
        pages := pages + [Ellipsis];
        pages := pages + [Num(totalPages)];
      } else if currentPage >= totalPages - 3 {
        pages := pages + [Num(1)];
        pages := pages + [Ellipsis];
        for i := totalPages - 4 to totalPages + 1
          invariant pages == [Num(1), Ellipsis] + Run(totalPages - 4, i)
        {
          pages := pages + [Num(i)];
        }
      } else {
        pages := pages + [Num(1)];
        pages := pages + [Ellipsis];
        for i := currentPage - 1 to currentPage + 2
          invariant pages == [Num(1), Ellipsis] + Run(currentPage - 1, i)
        {
          pages := pages + [Num(i)];
        }
        pages := pages + [Ellipsis];
        pages := pages + [Num(totalPages)];
      }
    }
  }

  /** Num(lo), Num(lo + 1), ..., Num(hi - 1). */
  function Run(lo: int, hi: int): (r: seq<PageItem>)
    requires lo <= hi
    ensures |r| == hi - lo
    ensures forall k :: 0 <= k < |r| ==> r[k] == Num(lo + k)
    decreases hi - lo
  {
    if lo == hi then [] else Run(lo, hi - 1) + [Num(hi - 1)]
  }
}
