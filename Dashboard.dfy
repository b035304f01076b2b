/** `src/pages/Dashboard.tsx`: the four headline numbers over the KBO records —
    how many have a season, their average wRC+ and home runs, and the share
    with a wRC+ above 110 — each 0 when there is nothing to average over. */
module Dashboard {
  import opened Js
  import opened Players
  import opened Summary

  /** `s.filter(keep)`. */
  function Keep(s: seq<Player>, keep: Player -> bool): (r: seq<Player>)
    ensures |r| <= |s|
  {
    if |s| == 0 then []
    else
      var rest := Keep(s[..|s| - 1], keep);
      if keep(s[|s| - 1]) then rest + [s[|s| - 1]] else rest
  }

  /** The filter keeps every kept record as often as it occurs, and nothing else. */
  lemma {:induction false} KeepCounts(s: seq<Player>, keep: Player -> bool)
    ensures forall p :: multiset(Keep(s, keep))[p] == if keep(p) then multiset(s)[p] else 0
  {
    if |s| > 0 {
      KeepCounts(s[..|s| - 1], keep);
      assert s == s[..|s| - 1] + [s[|s| - 1]];
    }
  }

  /** A filtered list is a sub-multiset of the list. */
  lemma KeepSubset(s: seq<Player>, keep: Player -> bool)
    ensures multiset(Keep(s, keep)) <= multiset(s)
  {
    KeepCounts(s, keep);
  }

  /** `p.season`. */
  predicate HasSeason(p: Player)
  {
    Truthy(Get(p, Season))
  }

  /** `p.wrc_plus`. */
  predicate HasWrc(p: Player)
  {
    Truthy(Get(p, WrcPlus))
  }

  /** `(p.wrc_plus || 0) > 110`. */
  predicate Succeeded(p: Player)
  {
    Or(Get(p, WrcPlus), 0.0) > 110.0
  }

  function PlayersWithSeason(kbo: seq<Player>): seq<Player>
  {
    Keep(kbo, HasSeason)
  }

  function PlayersWithWrc(kbo: seq<Player>): seq<Player>
  {
    Keep(PlayersWithSeason(kbo), HasWrc)
  }

  /** `p.k || 0` over a list. */
  function Values(s: seq<Player>, k: Stat): (v: seq<real>)
    ensures |v| == |s| && forall i :: 0 <= i < |s| ==> v[i] == Or(Get(s[i], k), 0.0)
  {
    seq(|s|, i requires 0 <= i < |s| => Or(Get(s[i], k), 0.0))
  }

  /** `totalPlayers`. */
  function TotalPlayers(kbo: seq<Player>): (n: nat)
    ensures n <= |kbo|
  {
    |PlayersWithSeason(kbo)|
  }

  /** The guarded rounded mean: 0 for no records. */
  function RoundedMean(s: seq<Player>, k: Stat): (a: int)
    ensures |s| == 0 ==> a == 0
  {
    if |s| > 0 then Round(Mean(Values(s, k)).value) else 0
  }

  /** `avgWrcPlus`: over the records with a season and a wRC+. */
  function AvgWrcPlus(kbo: seq<Player>): (a: int)
    ensures |PlayersWithWrc(kbo)| == 0 ==> a == 0
  {
    RoundedMean(PlayersWithWrc(kbo), WrcPlus)
  }

  /** `avgHR`: over every record with a season. */
  function AvgHr(kbo: seq<Player>): (a: int)
    ensures TotalPlayers(kbo) == 0 ==> a == 0
  {
    RoundedMean(PlayersWithSeason(kbo), Hr)
  }

  /** `Math.round((hits / n) * 100)`. */
  function Percentage(hits: nat, n: nat): int
    requires n > 0
  {
    Round((hits as real / n as real) * 100.0)
  }

  /** A rounded share of a whole is a percentage: 0 for no hits and 100 for all. */
  lemma PercentageBounds(hits: nat, n: nat)
    requires 0 < n && hits <= n
    ensures 0 <= Percentage(hits, n) <= 100
    ensures hits == 0 ==> Percentage(hits, n) == 0
    ensures hits == n ==> Percentage(hits, n) == 100
  {
    var x := (hits as real / n as real) * 100.0;
    DivBounds(hits as real, n as real, 0.0, 1.0);
    RoundWithin(x, 0, 100);
    if hits == n {
      DivBounds(n as real, n as real, 1.0, 1.0);
    }
  }

  /** `successRate`: the percentage, rounded, of the records with a wRC+ whose wRC+ is above 110. */
  function SuccessRate(kbo: seq<Player>): (r: int)
    ensures |PlayersWithWrc(kbo)| == 0 ==> r == 0
  {
    var w := PlayersWithWrc(kbo);
    if |w| > 0 then Percentage(|Keep(w, Succeeded)|, |w|) else 0
  }

  /** Each record with a season counts once per occurrence; records without one do not count. */
  lemma TotalPlayersCounts(kbo: seq<Player>)
    ensures forall p :: multiset(PlayersWithSeason(kbo))[p] == if HasSeason(p) then multiset(kbo)[p] else 0
  {
    KeepCounts(kbo, HasSeason);
  }

  /** The records averaged for wRC+ are among those counted, and are exactly those with a
      non-zero wRC+. */
  lemma WrcSubsetOfSeason(kbo: seq<Player>)
    ensures multiset(PlayersWithWrc(kbo)) <= multiset(PlayersWithSeason(kbo))
    ensures forall p :: p in PlayersWithWrc(kbo) <==> p in kbo && HasSeason(p) && HasWrc(p)
  {
    KeepSubset(PlayersWithSeason(kbo), HasWrc);
    KeepCounts(PlayersWithSeason(kbo), HasWrc);
    KeepCounts(kbo, HasSeason);
    forall p ensures p in PlayersWithWrc(kbo) <==> p in kbo && HasSeason(p) && HasWrc(p)
    {
      assert p in PlayersWithWrc(kbo) <==> multiset(PlayersWithWrc(kbo))[p] > 0;
      assert p in PlayersWithSeason(kbo) <==> multiset(PlayersWithSeason(kbo))[p] > 0;
      assert p in kbo <==> multiset(kbo)[p] > 0;
    }
  }

  /** The success rate is a percentage, 0 when no record has a wRC+ above 110 and 100 when
      every one does; a wRC+ of exactly 110 is not a success. */
  lemma SuccessRateBounds(kbo: seq<Player>)
    ensures 0 <= SuccessRate(kbo) <= 100
    ensures (forall p :: p in PlayersWithWrc(kbo) ==> !Succeeded(p)) ==> SuccessRate(kbo) == 0
    ensures |PlayersWithWrc(kbo)| > 0 && (forall p :: p in PlayersWithWrc(kbo) ==> Succeeded(p)) ==>
              SuccessRate(kbo) == 100
  {
    var w := PlayersWithWrc(kbo);
    if |w| > 0 {
      PercentageBounds(|Keep(w, Succeeded)|, |w|);
      if forall p :: p in w ==> !Succeeded(p) {
        NoneKept(w, Succeeded);
      }
      if forall p :: p in w ==> Succeeded(p) {
        AllKept(w, Succeeded);
      }
    }
  }

  /** Nothing is kept when no element passes. */
  lemma {:induction false} NoneKept(s: seq<Player>, keep: Player -> bool)
    requires forall p :: p in s ==> !keep(p)
    ensures Keep(s, keep) == []
  {
    if |s| > 0 {
      NoneKept(s[..|s| - 1], keep);
    }
  }

  /** Everything is kept when every element passes. */
  lemma {:induction false} AllKept(s: seq<Player>, keep: Player -> bool)
    requires forall p :: p in s ==> keep(p)
    ensures Keep(s, keep) == s
  {
    if |s| > 0 {
      AllKept(s[..|s| - 1], keep);
      assert s == s[..|s| - 1] + [s[|s| - 1]];
    }
  }

  /** Averages of values within integer bounds stay within them, so a wRC+ average lies
      between the least and the greatest wRC+, and a home-run average is never negative. */
  lemma RoundedMeanWithin(s: seq<Player>, k: Stat, lo: int, hi: int)
    requires |s| > 0
    requires forall i :: 0 <= i < |s| ==> lo as real <= Or(Get(s[i], k), 0.0) <= hi as real
    ensures lo <= RoundedMean(s, k) <= hi
    ensures RoundedMean(s, k) == Round(Mean(Values(s, k)).value)
  {
    MeanWithin(Values(s, k), lo as real, hi as real);
    RoundWithin(Mean(Values(s, k)).value, lo, hi);
  }
}
