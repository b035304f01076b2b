/** `calculateKFSScore` of `src/utils/kfsScore.ts`: five groups of weighted
    deviations from a baseline, summed and clamped to [0, 100], with a
    predicted wRC+ and a success probability derived from the clamped total. */
module KfsScore {
  import opened Js

  /** Every field may be undefined; a destructuring default then applies. */
  datatype KfsInputs = KfsInputs(wrcPlus: Option<real>, kPct: Option<real>, bbPct: Option<real>, hr: Option<real>,
                                 pa: Option<real>, babip: Option<real>, obp: Option<real>, slg: Option<real>,
                                 gdp: Option<real>, avg: Option<real>, woba: Option<real>)

  /** The inputs after the defaults. */
  datatype Resolved = Resolved(wrcPlus: real, kPct: real, bbPct: real, hr: real, pa: real, babip: real,
                               obp: real, slg: real, gdp: real, avg: real, woba: real)

  function Resolve(i: KfsInputs): (r: Resolved)
    ensures i.pa.None? ==> r.pa == 300.0
    ensures i.pa.Some? ==> r.pa == i.pa.value
    ensures i.kPct == Some(0.0) ==> r.kPct == 0.0
  {
    Resolved(Def(i.wrcPlus, 100.0), Def(i.kPct, 20.0), Def(i.bbPct, 8.0), Def(i.hr, 10.0), Def(i.pa, 300.0),
             Def(i.babip, 0.300), Def(i.obp, 0.320), Def(i.slg, 0.400), Def(i.gdp, 10.0), Def(i.avg, 0.280),
             Def(i.woba, 0.350))
  }

  // the weights
  const KFactor: real := 0.05
  const BbFactor: real := 0.01
  const HrFactor: real := 0.22
  const AvgFactor: real := 0.17
  const BabipFactor: real := 0.22
  const ObpFactor: real := 0.22
  const SlgFactor: real := 0.07
  const WobaFactor: real := 0.16
  const WrcFactor: real := 0.12
  const GdpFactor: real := 0.20

  /** The five group scores; the breakdown reports them rounded. */
  datatype Groups = Groups(discipline: real, power: real, contact: real, value: real, experience: real)

  /** Home runs per 600 plate appearances. */
  function HrRate(r: Resolved): (h: real)
    requires r.pa != 0.0
    ensures h * r.pa == r.hr * 600.0
  {
    (r.hr / r.pa) * 600.0
  }

  function GroupsOf(r: Resolved): Groups
    requires r.pa != 0.0
  {
    Groups((25.0 - r.kPct) * KFactor + (r.bbPct - 5.0) * BbFactor,
           HrRate(r) * HrFactor,
           (r.avg - 0.280) * 1000.0 * AvgFactor + (r.babip - 0.300) * 1000.0 * BabipFactor,
           (r.obp - 0.320) * 1000.0 * ObpFactor + (r.slg - 0.400) * 1000.0 * SlgFactor
           + (r.woba - 0.350) * 1000.0 * WobaFactor + (r.wrcPlus - 100.0) * WrcFactor,
           (r.gdp - 10.0) * GdpFactor)
  }

  /** `rawTotalScore`: the sum of the five groups. */
  function RawTotal(g: Groups): real
  {
    g.discipline + g.power + g.contact + g.value + g.experience
  }

  /** The ten weighted terms written out one by one, with no grouping. */
  function FlatTotal(r: Resolved): real
    requires r.pa != 0.0
  {
    KFactor * (25.0 - r.kPct) + BbFactor * (r.bbPct - 5.0) + HrFactor * HrRate(r)
    + AvgFactor * (1000.0 * r.avg - 280.0) + BabipFactor * (1000.0 * r.babip - 300.0)
    + ObpFactor * (1000.0 * r.obp - 320.0) + SlgFactor * (1000.0 * r.slg - 400.0)
    + WobaFactor * (1000.0 * r.woba - 350.0) + WrcFactor * (r.wrcPlus - 100.0) + GdpFactor * (r.gdp - 10.0)
  }

  /** The grouped total is the sum of the ten weighted terms. */
  lemma GroupedIsFlat(r: Resolved)
    requires r.pa != 0.0
    ensures RawTotal(GroupsOf(r)) == FlatTotal(r)
  {
  }

  /** At the baseline every term but power is 0, so the raw total is the power score. */
  lemma BaselineOnlyPower(r: Resolved)
    requires r.pa != 0.0
    requires r.kPct == 25.0 && r.bbPct == 5.0 && r.avg == 0.280 && r.babip == 0.300 && r.obp == 0.320
    requires r.slg == 0.400 && r.woba == 0.350 && r.wrcPlus == 100.0 && r.gdp == 10.0
    ensures GroupsOf(r).discipline == 0.0 && GroupsOf(r).contact == 0.0
    ensures GroupsOf(r).value == 0.0 && GroupsOf(r).experience == 0.0
    ensures RawTotal(GroupsOf(r)) == GroupsOf(r).power
  {
  }

  /** `successProbability` before rounding: 0.95 of the total, kept within [5, 95]. */
  function Probability(total: real): (p: real)
    ensures 5.0 <= p <= 95.0
    ensures 5.0 <= total * 0.95 <= 95.0 ==> p == total * 0.95
  {
    Min(95.0, Max(5.0, total * 0.95))
  }

  lemma ProbabilityMonotone(t1: real, t2: real)
    requires t1 <= t2
    ensures Probability(t1) <= Probability(t2)
    ensures Round1(Probability(t1)) <= Round1(Probability(t2))
  {
    Round1Monotone(Probability(t1), Probability(t2));
  }

  /** `Math.round(wrcPlus * 0.4 + 100 * 0.6 + (totalScore - 50) * 0.6)`. */
  function PredictedWrcPlus(wrcPlus: real, total: real): (w: int)
    ensures wrcPlus * 0.4 + 60.0 + (total - 50.0) * 0.6 - 0.5 < w as real
    ensures w as real <= wrcPlus * 0.4 + 60.0 + (total - 50.0) * 0.6 + 0.5
  {
    Round(wrcPlus * 0.4 + 100.0 * 0.6 + (total - 50.0) * 0.6)
  }

  lemma PredictedWrcPlusMonotone(w1: real, t1: real, w2: real, t2: real)
    requires w1 <= w2 && t1 <= t2
    ensures PredictedWrcPlus(w1, t1) <= PredictedWrcPlus(w2, t2)
  {
    RoundMonotone(w1 * 0.4 + 100.0 * 0.6 + (t1 - 50.0) * 0.6, w2 * 0.4 + 100.0 * 0.6 + (t2 - 50.0) * 0.6);
  }

  datatype KfsResult = KfsResult(score: real, predictedWrcPlus: int, successProbability: real, breakdown: Groups)

  /** Each group rounded to one decimal. */
  function RoundGroups(g: Groups): (b: Groups)
    ensures OneDecimal(b.discipline) && OneDecimal(b.power) && OneDecimal(b.contact)
            && OneDecimal(b.value) && OneDecimal(b.experience)
    ensures g.discipline - 0.05 < b.discipline <= g.discipline + 0.05
    ensures g.power - 0.05 < b.power <= g.power + 0.05
    ensures g.contact - 0.05 < b.contact <= g.contact + 0.05
    ensures g.value - 0.05 < b.value <= g.value + 0.05
    ensures g.experience - 0.05 < b.experience <= g.experience + 0.05
  {
    Groups(Round1(g.discipline), Round1(g.power), Round1(g.contact), Round1(g.value), Round1(g.experience))
  }

  /** `calculateKFSScore`. A plate-appearance count of 0 divides by zero and is excluded. */
  function CalculateKfsScore(i: KfsInputs): (res: KfsResult)
    requires Resolve(i).pa != 0.0
    ensures 0.0 <= res.score <= 100.0
    ensures 5.0 <= res.successProbability <= 95.0
    ensures var total := Clamp(RawTotal(GroupsOf(Resolve(i))), 0.0, 100.0);
            total - 0.05 < res.score <= total + 0.05 && OneDecimal(res.score)
            && res.score == Round1(total)
            && res.predictedWrcPlus == PredictedWrcPlus(Resolve(i).wrcPlus, total)
            && res.successProbability == Round1(Probability(total))
    ensures res.breakdown == RoundGroups(GroupsOf(Resolve(i)))
  {
    var r := Resolve(i);
    var g := GroupsOf(r);
    var total := Clamp(RawTotal(g), 0.0, 100.0);
    Round1Within(total, 0, 100);
    Round1Within(Probability(total), 5, 95);
    KfsResult(Round1(total), PredictedWrcPlus(r.wrcPlus, total), Round1(Probability(total)), RoundGroups(g))
  }

  /** A higher raw total never lowers the score or the probability. */
  lemma ScoreMonotone(i: KfsInputs, j: KfsInputs)
    requires Resolve(i).pa != 0.0 && Resolve(j).pa != 0.0
    requires RawTotal(GroupsOf(Resolve(i))) <= RawTotal(GroupsOf(Resolve(j)))
    ensures CalculateKfsScore(i).score <= CalculateKfsScore(j).score
    ensures CalculateKfsScore(i).successProbability <= CalculateKfsScore(j).successProbability
  {
    var ti := Clamp(RawTotal(GroupsOf(Resolve(i))), 0.0, 100.0);
    var tj := Clamp(RawTotal(GroupsOf(Resolve(j))), 0.0, 100.0);
    ClampMonotone(RawTotal(GroupsOf(Resolve(i))), RawTotal(GroupsOf(Resolve(j))), 0.0, 100.0);
    Round1Monotone(ti, tj);
    ProbabilityMonotone(ti, tj);
  }

  /** The breakdown is not clamped: with 200 home runs and wRC+ 200 the score is
      capped at 100 while the reported groups sum past it. */
  lemma BreakdownUnclamped()
    ensures var res := CalculateKfsScore(KfsInputs(Some(200.0), None, None, Some(200.0), None, None, None, None, None, None, None));
            res.score == 100.0 && res.breakdown.power == 88.0 && res.breakdown.value == 12.0
            && res.breakdown.discipline + res.breakdown.power + res.breakdown.value > 100.0
  {
    var i := KfsInputs(Some(200.0), None, None, Some(200.0), None, None, None, None, None, None, None);
    var r := Resolve(i);
    assert HrRate(r) == 400.0;
    var g := GroupsOf(r);
    assert g == Groups(0.28, 88.0, 0.0, 12.0, 0.0);
    assert Round1(0.28) == 0.3 && Round1(88.0) == 88.0 && Round1(12.0) == 12.0;
    assert Round1(100.0) == 100.0;
  }
}
