/** `src/components/PlayerList.tsx`: the ten KBO players with the highest
    wRC+, the player shown in detail, and that player's pre-KBO record. */
module PlayerList {
  import opened Js
  import opened Players
  import opened Matching
  import opened Sorting

  const TopCount: nat := 10

  /** `p.season && p.wrc_plus`. */
  predicate Qualifies(p: Player)
  {
    Truthy(Get(p, Season)) && Truthy(Get(p, WrcPlus))
  }

  /** `p.wrc_plus || 0`, the sort key. */
  function Wrc(p: Player): real
  {
    Or(Get(p, WrcPlus), 0.0)
  }

  /** The comparator `(b.wrc_plus || 0) - (a.wrc_plus || 0)` as an ascending key. */
  function NegWrc(p: Player): real
  {
    -Wrc(p)
  }

  /** `kboData.filter(p => p.season && p.wrc_plus)`. */
  function Qualifying(kbo: seq<Player>): (q: seq<Player>)
    ensures |q| <= |kbo|
  {
    if |kbo| == 0 then []
    else
      var rest := Qualifying(kbo[..|kbo| - 1]);
      if Qualifies(kbo[|kbo| - 1]) then rest + [kbo[|kbo| - 1]] else rest
  }

  /** The filter keeps exactly the qualifying records. */
  lemma {:induction false} QualifyingMembers(kbo: seq<Player>)
    ensures forall p :: p in Qualifying(kbo) <==> p in kbo && Qualifies(p)
  {
    if |kbo| > 0 {
      QualifyingMembers(kbo[..|kbo| - 1]);
      assert kbo == kbo[..|kbo| - 1] + [kbo[|kbo| - 1]];
    }
  }

  /** `topPlayers`: the qualifying records sorted by decreasing wRC+, the first ten.
      Every qualifying record left out has a wRC+ no higher than the last one kept. */
  method TopPlayers(kbo: seq<Player>) returns (top: seq<Player>)
    ensures |top| == if |Qualifying(kbo)| < TopCount then |Qualifying(kbo)| else TopCount
    ensures forall i, j :: 0 <= i < j < |top| ==> Wrc(top[i]) >= Wrc(top[j])
    ensures multiset(top) <= multiset(Qualifying(kbo))
    ensures forall p :: p in multiset(Qualifying(kbo)) - multiset(top) ==> Wrc(p) <= Wrc(top[|top| - 1])
  {
    var qualifying := Qualifying(kbo);
    var a := new Player[|qualifying|](i requires 0 <= i < |qualifying| => qualifying[i]);
    assert a[..] == qualifying;
    SortBy(a, NegWrc);
    var sorted := a[..];
    var n := if a.Length < TopCount then a.Length else TopCount;
    top := sorted[..n];
    var rest := sorted[n..];
    assert sorted == top + rest;
    assert multiset(qualifying) == multiset(top) + multiset(rest);
    SortedSplit(sorted, top, rest);
  }

  /** Splitting a list sorted by decreasing wRC+: the front is in decreasing order and
      nothing behind it is higher than its last element. */
  lemma SortedSplit(sorted: seq<Player>, top: seq<Player>, rest: seq<Player>)
    requires SortedBy(sorted, NegWrc) && sorted == top + rest
    ensures forall i, j :: 0 <= i < j < |top| ==> Wrc(top[i]) >= Wrc(top[j])
    ensures |top| > 0 ==> forall p :: p in multiset(rest) ==> Wrc(p) <= Wrc(top[|top| - 1])
  {
    forall i, j | 0 <= i < j < |top| ensures Wrc(top[i]) >= Wrc(top[j])
    {
      assert top[i] == sorted[i] && top[j] == sorted[j];
      assert NegWrc(sorted[i]) <= NegWrc(sorted[j]);
    }
    if |top| > 0 {
      forall p | p in multiset(rest) ensures Wrc(p) <= Wrc(top[|top| - 1])
      {
        assert p in rest;
        var k :| 0 <= k < |rest| && rest[k] == p;
        assert sorted[|top| + k] == p && sorted[|top| - 1] == top[|top| - 1];
        assert NegWrc(sorted[|top| - 1]) <= NegWrc(sorted[|top| + k]);
      }
    }
  }

  /** The top list holds only qualifying KBO records. */
  lemma TopAreQualifying(kbo: seq<Player>, top: seq<Player>, p: Player)
    requires multiset(top) <= multiset(Qualifying(kbo)) && p in top
    ensures p in kbo && Qualifies(p)
  {
    assert p in multiset(top);
    assert p in multiset(Qualifying(kbo));
    QualifyingMembers(kbo);
  }

  /** `topPlayers.find(p => p.name === selectedPlayer) || topPlayers[0]`; `None` when the
      list is empty, and then the component renders nothing. */
  function CurrentPlayer(top: seq<Player>, selected: Option<string>): (c: Option<Player>)
    ensures c.None? <==> |top| == 0
    ensures c.Some? ==> c.value in top
  {
    var found := if selected.Some? then FindByName(top, selected.value) else None;
    if found.Some? then found else if |top| > 0 then Some(top[0]) else None
  }

  /** The selected player is shown when listed, the first of the same name; otherwise the
      top player is. */
  lemma CurrentPlayerChoice(top: seq<Player>, selected: string)
    requires |top| > 0
    ensures (exists i :: 0 <= i < |top| && top[i].name == selected) ==>
              CurrentPlayer(top, Some(selected)).value.name == selected
    ensures (forall i :: 0 <= i < |top| ==> top[i].name != selected) ==>
              CurrentPlayer(top, Some(selected)) == Some(top[0])
    ensures CurrentPlayer(top, None) == Some(top[0])
  {
  }

  /** `preKboData.find(p => p.name === currentPlayer?.name)`. */
  function PreData(pre: seq<Player>, current: Option<Player>): (d: Option<Player>)
    ensures d.Some? ==> current.Some? && d.value in pre && d.value.name == current.value.name
    ensures current.None? ==> d.None?
  {
    if current.Some? then FindByName(pre, current.value.name) else None
  }

  /** The pre-KBO record shown is the first of the player's name, and there is none only
      when no record has it. */
  lemma PreDataFirst(pre: seq<Player>, current: Player)
    ensures PreData(pre, Some(current)).None? <==> forall j :: 0 <= j < |pre| ==> pre[j].name != current.name
    ensures PreData(pre, Some(current)).Some? ==>
              exists i :: 0 <= i < |pre| && pre[i] == PreData(pre, Some(current)).value
                          && forall j :: 0 <= j < i ==> pre[j].name != current.name
  {
  }
}
