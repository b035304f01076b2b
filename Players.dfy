/** The player record every component reads: a name, an optional team and a
    set of optional numeric properties. A property that is absent from
    `stats` is `undefined` in the source. */
module Players {
  import opened Js

  /** The numeric properties the core reads. The data files spell some of them
      two ways and the components disagree on which they read (`wrc_plus` and
      `'wrc+'`, `k_pct` and `'k%'`, `bb_pct` and `'bb%'`), so both spellings are
      separate keys here. */
  datatype Stat =
    | Year | KboEntryYear | Season | Age | Pa | Hr
    | Avg | Babip | Obp | Slg | Woba | Gdp
    | WrcPlus | KPct | BbPct
    | LdPct | GbPct | IffbPct | SwstrPct
    | WrcPlusKey | KPctKey | BbPctKey

  /** Every key, in declaration order. */
  const AllStats: seq<Stat> :=
    [Year, KboEntryYear, Season, Age, Pa, Hr, Avg, Babip, Obp, Slg, Woba, Gdp,
     WrcPlus, KPct, BbPct, LdPct, GbPct, IffbPct, SwstrPct, WrcPlusKey, KPctKey, BbPctKey]

  /** Where a key sits in `AllStats`. */
  function StatIndex(k: Stat): (i: nat)
    ensures i < |AllStats| && AllStats[i] == k
  {
    match k
    case Year => 0
    case KboEntryYear => 1
    case Season => 2
    case Age => 3
    case Pa => 4
    case Hr => 5
    case Avg => 6
    case Babip => 7
    case Obp => 8
    case Slg => 9
    case Woba => 10
    case Gdp => 11
    case WrcPlus => 12
    case KPct => 13
    case BbPct => 14
    case LdPct => 15
    case GbPct => 16
    case IffbPct => 17
    case SwstrPct => 18
    case WrcPlusKey => 19
    case KPctKey => 20
    case BbPctKey => 21
  }

  /** `AllStats` lists every key once. */
  lemma AllStatsDistinct()
    ensures forall i :: 0 <= i < |AllStats| ==> StatIndex(AllStats[i]) == i
  {
  }

  datatype Player = Player(name: string, team: Option<string>, stats: map<Stat, real>)

  /** `player[key]`: the value, or undefined. */
  function Get(p: Player, k: Stat): (r: Option<real>)
    ensures r.Some? <==> k in p.stats
    ensures r.Some? ==> r.value == p.stats[k]
  {
    if k in p.stats then Some(p.stats[k]) else None
  }

  /** The record with one property set. */
  function With(p: Player, k: Stat, v: real): (q: Player)
    ensures Get(q, k) == Some(v)
    ensures forall j :: j != k ==> Get(q, j) == Get(p, j)
    ensures q.name == p.name && q.team == p.team
  {
    p.(stats := p.stats[k := v])
  }
}
