/** The archetype classifier, the risk grader and the simple KFS score of
    `src/utils/sabermetrics.ts`. Narrative strings are replaced by tags that
    carry the numbers the text would print. */
module Sabermetrics {
  import opened Js
  import opened Players

  // ----------------------------------------------------------- thresholds

  const KElite: real := 18.0
  const KGood: real := 22.0
  const KRisky: real := 25.0
  const KCritical: real := 30.0
  const BbElite: real := 12.0
  const BbGood: real := 9.0
  const BbPoor: real := 6.0
  const BbKElite: real := 0.8
  const BbKGood: real := 0.5
  const BbKSafe: real := 0.4
  const WrcElite: real := 140.0
  const WrcGood: real := 120.0
  const WrcPoor: real := 85.0
  const HrPower: real := 15.0
  const BabipLucky: real := 0.370
  const AgeYoung: real := 26.0
  const AgeOld: real := 32.0

  /** `bb_pct / Math.max(k_pct, 1)`: the divisor is at least 1. */
  function BbK(bb: real, k: real): (r: real)
    ensures r * Max(k, 1.0) == bb
    ensures bb >= 0.0 ==> r >= 0.0
  {
    bb / Max(k, 1.0)
  }

  /** With a non-negative walk rate, more strikeouts never raise BB/K. */
  lemma BbKAntitone(bb: real, k1: real, k2: real)
    requires bb >= 0.0 && k1 <= k2
    ensures BbK(bb, k2) <= BbK(bb, k1)
  {
    var d1, d2 := Max(k1, 1.0), Max(k2, 1.0);
    var r1, r2 := BbK(bb, k1), BbK(bb, k2);
    assert r1 * d1 == bb && r2 * d2 == bb && r2 >= 0.0;
    assert r2 * d1 <= r2 * d2;
    assert (r1 - r2) * d1 >= 0.0;
  }

  /** More walks never lower BB/K. */
  lemma BbKMonotone(bb1: real, bb2: real, k: real)
    requires bb1 <= bb2
    ensures BbK(bb1, k) <= BbK(bb2, k)
  {
    var d := Max(k, 1.0);
    assert BbK(bb2, k) - BbK(bb1, k) == (bb2 - bb1) / d;
  }

  // --------------------------------------------------------- archetypes

  datatype Archetype = Elite | Trap | Safe | Power | Average

  /** The texts of the risk-factor and strength lists, with the values they print.
      `Blank` is the empty string the TRAP list may hold before `filter(Boolean)`. */
  datatype Remark =
    | Blank
    | SharpEye(bb: real) | SteadyContact(k: real) | ProvenProduction(wrc: real)
    | HighStrikeouts(k: real) | WrcOverrated | LuckyBabip(babip: real) | ProvenPop
    | FineBbK(ratio: real) | StableContactRate(k: real) | LowFailureOdds
    | VeryHighStrikeouts(k: real) | FanRisk | CoachingDependent | ProvenHomeRuns(hr: real) | Explosive
    | NoEdge | AdaptationUncertain | NoFlaw

  /** The classifier's result; the Korean name, icon, headline and analysis
      text are fixed per archetype. */
  datatype TypeAnalysis = TypeAnalysis(archetype: Archetype, riskFactors: seq<Remark>, strengths: seq<Remark>)

  /** The inputs after the destructuring defaults of `classifyPlayerType`. */
  datatype Profile = Profile(wrc: real, k: real, bb: real, hr: real, babip: real)

  function ProfileOf(p: Player): (f: Profile)
    ensures Get(p, KPct).Some? ==> f.k == p.stats[KPct]
    ensures Get(p, KPct).None? ==> f.k == 20.0
  {
    Profile(Def(Get(p, WrcPlus), 100.0), Def(Get(p, KPct), 20.0), Def(Get(p, BbPct), 8.0),
            Def(Get(p, Hr), 10.0), Def(Get(p, Babip), 0.300))
  }

  /** The defaults replace only undefined fields: an explicit 0 stays 0. */
  lemma DefaultsOnlyWhenUndefined(p: Player)
    ensures Get(p, WrcPlus) == Some(0.0) ==> ProfileOf(p).wrc == 0.0
    ensures Get(p, KPct) == Some(0.0) ==> ProfileOf(p).k == 0.0
    ensures Get(p, BbPct) == Some(0.0) ==> ProfileOf(p).bb == 0.0
    ensures Get(p, Hr) == Some(0.0) ==> ProfileOf(p).hr == 0.0
    ensures Get(p, Babip) == Some(0.0) ==> ProfileOf(p).babip == 0.0
    ensures p.stats == map[] ==> ProfileOf(p) == Profile(100.0, 20.0, 8.0, 10.0, 0.300)
  {
  }

  /** The condition of each archetype's rule; AVERAGE is the catch-all. */
  predicate Rule(a: Archetype, f: Profile)
  {
    match a
    case Elite => f.k <= KElite && f.bb >= BbGood && f.wrc >= WrcGood
    case Trap => f.wrc >= WrcGood && f.k >= KRisky
    case Safe => BbK(f.bb, f.k) >= BbKSafe && f.k <= KGood
    case Power => f.hr >= HrPower && f.k >= KCritical
    case Average => true
  }

  /** The order in which the rules are tried. */
  const Order: seq<Archetype> := [Elite, Trap, Safe, Power, Average]

  function Position(a: Archetype): (i: nat)
    ensures i < |Order| && Order[i] == a
  {
    match a
    case Elite => 0
    case Trap => 1
    case Safe => 2
    case Power => 3
    case Average => 4
  }

  /** Drops the blank entries, as `filter(Boolean)` does. */
  function NonBlank(s: seq<Remark>): (r: seq<Remark>)
    ensures |r| <= |s|
    ensures forall x :: x in r <==> x in s && x != Blank
    ensures Blank !in s ==> r == s
  {
    if s == [] then []
    else if s[0] == Blank then NonBlank(s[1..])
    else [s[0]] + NonBlank(s[1..])
  }

  /** `classifyPlayerType` on the resolved inputs: the first rule that holds, in Order. */
  function Classify(f: Profile): (t: TypeAnalysis)
    ensures Rule(t.archetype, f)
    ensures forall b :: Position(b) < Position(t.archetype) ==> !Rule(b, f)
  {
    if Rule(Elite, f) then
      TypeAnalysis(Elite, [], [SharpEye(f.bb), SteadyContact(f.k), ProvenProduction(f.wrc)])
    else if Rule(Trap, f) then
      TypeAnalysis(Trap,
                   NonBlank([HighStrikeouts(f.k), WrcOverrated, if f.babip >= BabipLucky then LuckyBabip(f.babip) else Blank]),
                   [ProvenPop])
    else if Rule(Safe, f) then
      TypeAnalysis(Safe, [], [FineBbK(BbK(f.bb, f.k)), StableContactRate(f.k), LowFailureOdds])
    else if Rule(Power, f) then
      TypeAnalysis(Power, [VeryHighStrikeouts(f.k), FanRisk, CoachingDependent], [ProvenHomeRuns(f.hr), Explosive])
    else
      TypeAnalysis(Average, [NoEdge, AdaptationUncertain], [NoFlaw])
  }

  function ClassifyPlayerType(p: Player): (t: TypeAnalysis)
    ensures Rule(t.archetype, ProfileOf(p))
  {
    Classify(ProfileOf(p))
  }

  /** The result is the first archetype of Order whose rule holds, and exactly one. */
  lemma ClassifyFirstMatch(f: Profile, a: Archetype)
    ensures Classify(f).archetype == a <==> Rule(a, f) && forall i :: 0 <= i < Position(a) ==> !Rule(Order[i], f)
  {
    forall i | 0 <= i < |Order|
      ensures Position(Order[i]) == i
    {
    }
  }

  /** POWER is reached only below wRC+ 120: anything at or above with k >= 30 is a TRAP. */
  lemma PowerOnlyBelowGood(f: Profile)
    ensures Classify(f).archetype == Power ==> f.wrc < WrcGood
    ensures f.k >= KCritical && f.wrc >= WrcGood ==> Classify(f).archetype == Trap
  {
  }

  /** No profile satisfies both the SAFE and the POWER rule. */
  lemma SafePowerDisjoint(f: Profile)
    ensures !(Rule(Safe, f) && Rule(Power, f))
  {
  }

  /** ELITE carries no risk factor and three strengths; TRAP carries three risk
      factors exactly when BABIP is lucky, two otherwise. */
  lemma RemarkCounts(f: Profile)
    ensures Classify(f).archetype == Elite ==> Classify(f).riskFactors == [] && |Classify(f).strengths| == 3
    ensures Classify(f).archetype == Trap ==> |Classify(f).riskFactors| == (if f.babip >= BabipLucky then 3 else 2)
  {
    if Classify(f).archetype == Trap {
      var s := [HighStrikeouts(f.k), WrcOverrated, if f.babip >= BabipLucky then LuckyBabip(f.babip) else Blank];
      assert s[2..][1..] == [];
      assert NonBlank(s[2..]) == (if f.babip >= BabipLucky then [s[2]] else []);
      assert NonBlank(s[1..]) == [s[1]] + NonBlank(s[2..]);
      assert NonBlank(s) == [s[0]] + NonBlank(s[1..]);
    }
  }

  // --------------------------------------------------------------- risk

  datatype Grade = S | A | B | C | D

  /** S is the best grade. */
  function Rank(g: Grade): nat
  {
    match g
    case S => 4
    case A => 3
    case B => 2
    case C => 1
    case D => 0
  }

  /** The grade cuts at 75, 60, 45 and 30. */
  function GradeOf(score: real): (g: Grade)
    ensures g == S <==> score >= 75.0
    ensures g == A <==> 60.0 <= score < 75.0
    ensures g == B <==> 45.0 <= score < 60.0
    ensures g == C <==> 30.0 <= score < 45.0
    ensures g == D <==> score < 30.0
  {
    if score >= 75.0 then S
    else if score >= 60.0 then A
    else if score >= 45.0 then B
    else if score >= 30.0 then C
    else D
  }

  /** The grade is a non-decreasing step function of the score. */
  lemma GradeMonotone(s1: real, s2: real)
    requires s1 <= s2
    ensures Rank(GradeOf(s1)) <= Rank(GradeOf(s2))
  {
  }

  datatype Recommendation = Recommend | ReviewCarefully | NotRecommended

  /** The recommendation depends on the grade alone. */
  function RecommendationFor(g: Grade): (r: Recommendation)
    ensures r == Recommend <==> Rank(g) >= 3
    ensures r == NotRecommended <==> Rank(g) <= 1
  {
    if g == S || g == A then Recommend else if g == B then ReviewCarefully else NotRecommended
  }

  /** The detail lines of `calculateRisk`, with the values they print. */
  datatype Detail =
    | KSevere(k: real) | KCaution(k: real) | KStable(k: real)
    | BbKExcellent(ratio: real) | BbKAggressive(ratio: real)
    | BabipInflated(babip: real)
    | AgeAgainst(age: real) | AgeFor(age: real)

  /** The summary text is chosen by the grade and names the archetype. */
  datatype RiskAnalysis = RiskAnalysis(riskLevel: Grade, details: seq<Detail>, recommendation: Recommendation,
                                       playerType: TypeAnalysis)

  /** The inputs after `calculateRisk`'s destructuring defaults. */
  datatype RiskProfile = RiskProfile(wrc: real, k: real, bb: real, age: real, babip: real, hr: real)

  function RiskProfileOf(p: Player): (f: RiskProfile)
    ensures Get(p, Age).None? ==> f.age == 28.0
    ensures Get(p, Age).Some? ==> f.age == p.stats[Age]
  {
    var c := ProfileOf(p);
    RiskProfile(c.wrc, c.k, c.bb, Def(Get(p, Age), 28.0), c.babip, c.hr)
  }

  function KAdjust(k: real): (a: real)
    ensures -20.0 <= a <= 25.0
  {
    if k < KElite then 25.0
    else if k < KGood then 15.0
    else if k < KRisky then 5.0
    else if k >= KCritical then -20.0
    else -10.0
  }

  function BbAdjust(bb: real): (a: real)
    ensures -8.0 <= a <= 15.0
  {
    if bb >= BbElite then 15.0 else if bb >= BbGood then 8.0 else if bb < BbPoor then -8.0 else 0.0
  }

  function BbKAdjust(r: real): (a: real)
    ensures 0.0 <= a <= 10.0
  {
    if r >= BbKElite then 10.0 else if r >= BbKGood then 5.0 else 0.0
  }

  function WrcAdjust(wrc: real): (a: real)
    ensures -5.0 <= a <= 8.0
  {
    if wrc >= WrcElite then 8.0 else if wrc >= WrcGood then 4.0 else if wrc < WrcPoor then -5.0 else 0.0
  }

  function AgeAdjust(age: real): (a: real)
    ensures -8.0 <= a <= 5.0
  {
    if age < AgeYoung then 5.0 else if age > AgeOld then -8.0 else 0.0
  }

  /** 50 plus every adjustment, before the clamp. The adjustments bottom out at
      -20, -8, 0, -5, 0, -8 and -8, so the raw score is never below 1 and the lower
      clamp of RiskScore never applies. */
  function RawRisk(f: RiskProfile): (s: real)
    ensures 1.0 <= s <= 118.0
  {
    50.0 + KAdjust(f.k) + BbAdjust(f.bb) + BbKAdjust(BbK(f.bb, f.k)) + WrcAdjust(f.wrc)
    + (if f.hr >= HrPower then 5.0 else 0.0) - (if f.babip >= BabipLucky then 8.0 else 0.0) + AgeAdjust(f.age)
  }

  /** The clamped score the grade is read from. */
  function RiskScore(f: RiskProfile): (s: real)
    ensures 0.0 <= s <= 100.0
    ensures RawRisk(f) <= 100.0 ==> s == RawRisk(f)
    ensures RawRisk(f) > 100.0 ==> s == 100.0
  {
    Clamp(RawRisk(f), 0.0, 100.0)
  }

  /** Fewer strikeouts never lower the score (for a non-negative walk rate). */
  lemma RiskScoreAntitoneInK(f: RiskProfile, k: real)
    requires f.bb >= 0.0 && k <= f.k
    ensures RiskScore(f) <= RiskScore(f.(k := k))
  {
    BbKAntitone(f.bb, k, f.k);
    ClampMonotone(RawRisk(f), RawRisk(f.(k := k)), 0.0, 100.0);
  }

  /** More walks never lower the score. */
  lemma RiskScoreMonotoneInBb(f: RiskProfile, bb: real)
    requires 0.0 <= f.bb <= bb
    ensures RiskScore(f) <= RiskScore(f.(bb := bb))
  {
    BbKMonotone(f.bb, bb, f.k);
    ClampMonotone(RawRisk(f), RawRisk(f.(bb := bb)), 0.0, 100.0);
  }

  /** The strikeout line. */
  function KDetail(k: real): (d: seq<Detail>)
    ensures |d| <= 1
  {
    if k >= KCritical then [KSevere(k)]
    else if k >= KRisky then [KCaution(k)]
    else if k <= KElite then [KStable(k)]
    else []
  }

  /** The BB/K line. */
  function BbKDetail(r: real): (d: seq<Detail>)
    ensures |d| <= 1
  {
    if r >= BbKElite then [BbKExcellent(r)] else if r < 0.3 then [BbKAggressive(r)] else []
  }

  /** The BABIP line. */
  function BabipDetail(b: real): (d: seq<Detail>)
    ensures d != [] <==> b >= BabipLucky
  {
    if b >= BabipLucky then [BabipInflated(b)] else []
  }

  /** The age line. */
  function AgeDetail(age: real): (d: seq<Detail>)
    ensures d != [] <==> (age > AgeOld || age < AgeYoung)
  {
    if age > AgeOld then [AgeAgainst(age)] else if age < AgeYoung then [AgeFor(age)] else []
  }

  /** The details, one optional line per topic in the order strikeouts, BB/K, BABIP, age. */
  function Details(f: RiskProfile): (d: seq<Detail>)
    ensures |d| <= 4
  {
    KDetail(f.k) + BbKDetail(BbK(f.bb, f.k)) + BabipDetail(f.babip) + AgeDetail(f.age)
  }

  /** Lines 214-248 of `calculateRisk`: the score is built up one adjustment at a time, then clamped. */
  method ComputeRiskScore(f: RiskProfile) returns (score: real)
    ensures score == RiskScore(f)
  {
    var bbK := BbK(f.bb, f.k);
    score := 50.0;

    if f.k < KElite { score := score + 25.0; }
    else if f.k < KGood { score := score + 15.0; }
    else if f.k < KRisky { score := score + 5.0; }
    else if f.k >= KCritical { score := score - 20.0; }
    else { score := score - 10.0; }
    assert score == 50.0 + KAdjust(f.k);

    if f.bb >= BbElite { score := score + 15.0; }
    else if f.bb >= BbGood { score := score + 8.0; }
    else if f.bb < BbPoor { score := score - 8.0; }
    assert score == 50.0 + KAdjust(f.k) + BbAdjust(f.bb);

    if bbK >= BbKElite { score := score + 10.0; }
    else if bbK >= BbKGood { score := score + 5.0; }
    assert score == 50.0 + KAdjust(f.k) + BbAdjust(f.bb) + BbKAdjust(bbK);

    if f.wrc >= WrcElite { score := score + 8.0; }
    else if f.wrc >= WrcGood { score := score + 4.0; }
    else if f.wrc < WrcPoor { score := score - 5.0; }
    assert score == 50.0 + KAdjust(f.k) + BbAdjust(f.bb) + BbKAdjust(bbK) + WrcAdjust(f.wrc);

    if f.hr >= HrPower { score := score + 5.0; }
    if f.babip >= BabipLucky { score := score - 8.0; }

    if f.age < AgeYoung { score := score + 5.0; }
    else if f.age > AgeOld { score := score - 8.0; }

    score := Max(0.0, Min(100.0, score));
  }

  /** Lines 262-290: each topic pushes at most one line. */
  method ComputeDetails(f: RiskProfile) returns (details: seq<Detail>)
    ensures details == Details(f)
  {
    var bbK := BbK(f.bb, f.k);
    details := [];
    if f.k >= KCritical { details := details + [KSevere(f.k)]; }
    else if f.k >= KRisky { details := details + [KCaution(f.k)]; }
    else if f.k <= KElite { details := details + [KStable(f.k)]; }
    assert details == KDetail(f.k);

    if bbK >= BbKElite { details := details + [BbKExcellent(bbK)]; }
    else if bbK < 0.3 { details := details + [BbKAggressive(bbK)]; }
    assert details == KDetail(f.k) + BbKDetail(bbK);

    if f.babip >= BabipLucky { details := details + [BabipInflated(f.babip)]; }
    assert details == KDetail(f.k) + BbKDetail(bbK) + BabipDetail(f.babip);

    if f.age > AgeOld { details := details + [AgeAgainst(f.age)]; }
    else if f.age < AgeYoung { details := details + [AgeFor(f.age)]; }
  }

  /** `calculateRisk`. */
  method CalculateRisk(p: Player) returns (r: RiskAnalysis)
    ensures r.riskLevel == GradeOf(RiskScore(RiskProfileOf(p)))
    ensures r.details == Details(RiskProfileOf(p))
    ensures r.recommendation == RecommendationFor(r.riskLevel)
    ensures r.playerType == ClassifyPlayerType(p)
  {
    var f := RiskProfileOf(p);
    var score := ComputeRiskScore(f);

    var level: Grade;
    if score >= 75.0 { level := S; }
    else if score >= 60.0 { level := A; }
    else if score >= 45.0 { level := B; }
    else if score >= 30.0 { level := C; }
    else { level := D; }

    var playerType := ClassifyPlayerType(p);
    var details := ComputeDetails(f);
    var recommendation := if level == S || level == A then Recommend
                          else if level == B then ReviewCarefully else NotRecommended;
    r := RiskAnalysis(level, details, recommendation, playerType);
  }

  // ---------------------------------------------------------- simple KFS

  /** The inner `normalize`: (v − lo) / (hi − lo) clamped to [0, 1]. */
  function Normalize(v: real, lo: real, hi: real): (r: real)
    requires lo < hi
    ensures 0.0 <= r <= 1.0
    ensures v <= lo ==> r == 0.0
    ensures v >= hi ==> r == 1.0
    ensures lo <= v <= hi ==> r * (hi - lo) == v - lo
  {
    RatioFacts(v, lo, hi);
    Clamp((v - lo) / (hi - lo), 0.0, 1.0)
  }

  lemma RatioFacts(v: real, lo: real, hi: real)
    requires lo < hi
    ensures v <= lo ==> (v - lo) / (hi - lo) <= 0.0
    ensures v >= hi ==> (v - lo) / (hi - lo) >= 1.0
    ensures (v - lo) / (hi - lo) * (hi - lo) == v - lo
  {
    var w, q := hi - lo, (v - lo) / (hi - lo);
    assert q * w == v - lo;
    assert (q - 1.0) * w == v - hi;
    ProductSign(q, w);
    ProductSign(q - 1.0, w);
  }

  /** With a positive factor, a product has the sign of the other factor. */
  lemma ProductSign(a: real, w: real)
    requires w > 0.0
    ensures a * w >= 0.0 ==> a >= 0.0
    ensures a * w <= 0.0 ==> a <= 0.0
  {
  }

  lemma NormalizeMonotone(v1: real, v2: real, lo: real, hi: real)
    requires lo < hi && v1 <= v2
    ensures Normalize(v1, lo, hi) <= Normalize(v2, lo, hi)
  {
    var w := hi - lo;
    var q1, q2 := (v1 - lo) / w, (v2 - lo) / w;
    assert q1 * w == v1 - lo && q2 * w == v2 - lo;
    ClampMonotone(q1, q2, 0.0, 1.0);
  }

  const WBabip: real := 0.224
  const WObp: real := 0.218
  const WHr: real := 0.216
  const WGdp: real := 0.198
  const WAvg: real := 0.174

  /** The five components on a 0–100 scale; each missing or zero field takes its `||` default. */
  datatype KfsParts = KfsParts(babip: real, obp: real, hr: real, avg: real, gdp: real)

  function KfsPartsOf(p: Player): (c: KfsParts)
    ensures 0.0 <= c.babip <= 100.0 && 0.0 <= c.obp <= 100.0 && 0.0 <= c.hr <= 100.0
    ensures 0.0 <= c.avg <= 100.0 && 0.0 <= c.gdp <= 100.0
  {
    KfsParts(Normalize(Or(Get(p, Babip), 0.300), 0.250, 0.380) * 100.0,
             Normalize(Or(Get(p, Obp), 0.330), 0.280, 0.420) * 100.0,
             Normalize(Or(Get(p, Hr), 10.0), 0.0, 35.0) * 100.0,
             Normalize(Or(Get(p, Avg), 0.260), 0.220, 0.320) * 100.0,
             Normalize(Or(Get(p, Gdp), 8.0), 0.0, 20.0) * 100.0)
  }

  /** The weighted sum before rounding. */
  function KfsRaw(c: KfsParts): real
  {
    c.babip * WBabip + c.obp * WObp + c.hr * WHr + c.gdp * WGdp + c.avg * WAvg
  }

  /** The weights sum to 1.03, so the weighted sum of components in [0, 100] lies in [0, 103]. */
  lemma KfsRawBounds(c: KfsParts)
    requires 0.0 <= c.babip <= 100.0 && 0.0 <= c.obp <= 100.0 && 0.0 <= c.hr <= 100.0
    requires 0.0 <= c.avg <= 100.0 && 0.0 <= c.gdp <= 100.0
    ensures WBabip + WObp + WHr + WGdp + WAvg == 1.03
    ensures 0.0 <= KfsRaw(c) <= 103.0
    ensures c == KfsParts(100.0, 100.0, 100.0, 100.0, 100.0) ==> KfsRaw(c) == 103.0
  {
  }

  /** `calculateSimpleKFS`: rounded to one decimal, within [0, 103]. */
  function SimpleKfs(p: Player): (r: real)
    ensures 0.0 <= r <= 103.0 && OneDecimal(r)
    ensures KfsRaw(KfsPartsOf(p)) - 0.05 < r <= KfsRaw(KfsPartsOf(p)) + 0.05
  {
    KfsRawBounds(KfsPartsOf(p));
    Round1Within(KfsRaw(KfsPartsOf(p)), 0, 103);
    Round1(KfsRaw(KfsPartsOf(p)))
  }

  /** Raising a non-zero home-run count never lowers the score. */
  lemma SimpleKfsMonotoneInHr(p: Player, hr: real)
    requires Get(p, Hr).Some? && 0.0 < p.stats[Hr] <= hr
    ensures SimpleKfs(p) <= SimpleKfs(With(p, Hr, hr))
  {
    var q := With(p, Hr, hr);
    NormalizeMonotone(p.stats[Hr], hr, 0.0, 35.0);
    assert KfsPartsOf(q) == KfsPartsOf(p).(hr := Normalize(hr, 0.0, 35.0) * 100.0);
    Round1Monotone(KfsRaw(KfsPartsOf(p)), KfsRaw(KfsPartsOf(q)));
  }

  /** The `||` default makes a 0 count as the default: zero home runs score like ten. */
  lemma SimpleKfsZeroIsDefault(p: Player)
    ensures SimpleKfs(With(p, Hr, 0.0)) == SimpleKfs(With(p, Hr, 10.0))
  {
    assert KfsPartsOf(With(p, Hr, 0.0)) == KfsPartsOf(With(p, Hr, 10.0));
  }

  datatype Verdict = EliteVerdict | Plus | AverageVerdict | BelowAverage | Poor

  function VerdictRank(v: Verdict): nat
  {
    match v
    case EliteVerdict => 4
    case Plus => 3
    case AverageVerdict => 2
    case BelowAverage => 1
    case Poor => 0
  }

  /** The verdict tier of `generateDeepDiveAnalysis`, cut at 70, 60, 50 and 40. */
  function VerdictOf(score: real): (v: Verdict)
    ensures v == EliteVerdict <==> score >= 70.0
    ensures v == Plus <==> 60.0 <= score < 70.0
    ensures v == AverageVerdict <==> 50.0 <= score < 60.0
    ensures v == BelowAverage <==> 40.0 <= score < 50.0
    ensures v == Poor <==> score < 40.0
  {
    if score >= 70.0 then EliteVerdict
    else if score >= 60.0 then Plus
    else if score >= 50.0 then AverageVerdict
    else if score >= 40.0 then BelowAverage
    else Poor
  }

  lemma VerdictMonotone(s1: real, s2: real)
    requires s1 <= s2
    ensures VerdictRank(VerdictOf(s1)) <= VerdictRank(VerdictOf(s2))
  {
  }

  /** The deep-dive verdict is read from the simple KFS score. */
  function DeepDiveVerdict(p: Player): (v: Verdict)
    ensures v == VerdictOf(SimpleKfs(p))
    ensures SimpleKfs(p) >= 70.0 <==> v == EliteVerdict
  {
    VerdictOf(SimpleKfs(p))
  }

  /** More home runs never worsen the deep-dive verdict of a record that has some. */
  lemma DeepDiveVerdictMonotoneInHr(p: Player, hr: real)
    requires Get(p, Hr).Some? && 0.0 < p.stats[Hr] <= hr
    ensures VerdictRank(DeepDiveVerdict(p)) <= VerdictRank(DeepDiveVerdict(With(p, Hr, hr)))
  {
    SimpleKfsMonotoneInHr(p, hr);
    VerdictMonotone(SimpleKfs(p), SimpleKfs(With(p, Hr, hr)));
  }

  // ----------------------------------------------------- success factors

  datatype Factor = Eye(bb: real) | Contact(k: real) | InPlay(babip: real)

  datatype Paragraph = Drivers(factors: seq<Factor>) | EnvironmentIndependent | Balanced

  /** The title names `player`; the paragraphs analyse `preData` when it is given. */
  datatype SuccessAnalysis = SuccessAnalysis(subject: string, paragraphs: seq<Paragraph>)

  /** The factors found in a record, in the order walks, strikeouts, BABIP. */
  function Factors(t: Player): (fs: seq<Factor>)
    ensures |fs| <= 3
    ensures Eye(Def(Get(t, BbPct), 8.0)) in fs <==> Def(Get(t, BbPct), 8.0) >= 10.0
    ensures Contact(Def(Get(t, KPct), 20.0)) in fs <==> Def(Get(t, KPct), 20.0) <= 18.0
  {
    var k, bb, babip := Def(Get(t, KPct), 20.0), Def(Get(t, BbPct), 8.0), Def(Get(t, Babip), 0.300);
    (if bb >= 10.0 then [Eye(bb)] else [])
    + (if k <= 18.0 then [Contact(k)] else [])
    + (if 0.320 <= babip <= 0.360 then [InPlay(babip)] else [])
  }

  /** `generateSuccessAnalysis`, pushing factors and paragraphs as the source does. */
  method GenerateSuccessAnalysis(player: Player, preData: Option<Player>) returns (r: SuccessAnalysis)
    ensures r.subject == player.name
    ensures var fs := Factors(if preData.Some? then preData.value else player);
            if fs != [] then r.paragraphs == [Drivers(fs), EnvironmentIndependent]
            else r.paragraphs == [Balanced]
  {
    var target := if preData.Some? then preData.value else player;
    var k, bb, babip := Def(Get(target, KPct), 20.0), Def(Get(target, BbPct), 8.0), Def(Get(target, Babip), 0.300);
    var factors: seq<Factor> := [];
    if bb >= 10.0 { factors := factors + [Eye(bb)]; }
    if k <= 18.0 { factors := factors + [Contact(k)]; }
    if babip >= 0.320 && babip <= 0.360 { factors := factors + [InPlay(babip)]; }
    assert factors == Factors(target);

    var paragraphs: seq<Paragraph> := [];
    if |factors| > 0 {
      paragraphs := paragraphs + [Drivers(factors)];
      paragraphs := paragraphs + [EnvironmentIndependent];
    } else {
      paragraphs := paragraphs + [Balanced];
    }
    r := SuccessAnalysis(player.name, paragraphs);
  }

  /** Two paragraphs when a factor is found, one fallback otherwise. */
  lemma SuccessParagraphCount(t: Player)
    ensures |Factors(t)| <= 3
    ensures Factors(t) == [] <==> (Def(Get(t, BbPct), 8.0) < 10.0 && Def(Get(t, KPct), 20.0) > 18.0
                                   && !(0.320 <= Def(Get(t, Babip), 0.300) <= 0.360))
  {
  }

  // -------------------------------------------------------- context note

  datatype Note = IntroNote | OverviewNote | FailureNote | CorrelationNote | DistributionNote
                | KfsNote | ScoutingNote | PredictionNote | DefaultNote

  const SectionIds: set<string> :=
    {"intro", "overview", "failure", "correlation", "distribution", "kfs", "aaa-scouting", "prediction"}

  /** `generateContextNote`: a known section id selects its note, anything else the default. */
  function ContextNote(id: string): (n: Note)
    ensures n == DefaultNote <==> id !in SectionIds
  {
    if id == "intro" then IntroNote
    else if id == "overview" then OverviewNote
    else if id == "failure" then FailureNote
    else if id == "correlation" then CorrelationNote
    else if id == "distribution" then DistributionNote
    else if id == "kfs" then KfsNote
    else if id == "aaa-scouting" then ScoutingNote
    else if id == "prediction" then PredictionNote
    else DefaultNote
  }
}
