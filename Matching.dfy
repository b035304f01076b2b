/** Joining the pre-KBO records with the first-year KBO records. The two batch
    scripts join on the name and the KBO entry year; the chart components join
    on the name alone. Every join is a linear first-match `find`. */
module Matching {
  import opened Js
  import opened Players

  /** A matched `{ pre, kbo }` record. */
  datatype Pair = Pair(pre: Player, kbo: Player)

  /** `k.name === pre.name && k.kbo_entry_year === pre.kbo_entry_year`; two undefined years are equal. */
  predicate SameEntry(k: Player, pre: Player)
  {
    k.name == pre.name && Get(k, KboEntryYear) == Get(pre, KboEntryYear)
  }

  /** The index of the first record of `s` at or after `from` that is the same entry as `pre`. */
  function FindEntryFrom(s: seq<Player>, pre: Player, from: nat): (r: Option<nat>)
    requires from <= |s|
    ensures r.Some? ==> from <= r.value < |s| && SameEntry(s[r.value], pre)
    ensures r.Some? ==> forall j :: from <= j < r.value ==> !SameEntry(s[j], pre)
    ensures r.None? ==> forall j :: from <= j < |s| ==> !SameEntry(s[j], pre)
    decreases |s| - from
  {
    if from == |s| then None
    else if SameEntry(s[from], pre) then Some(from)
    else FindEntryFrom(s, pre, from + 1)
  }

  /** `kboData.find(k => same entry as pre)`: the first match, as an index. */
  function FindEntry(s: seq<Player>, pre: Player): (r: Option<nat>)
    ensures r.Some? ==> r.value < |s| && SameEntry(s[r.value], pre)
    ensures r.Some? ==> forall j :: 0 <= j < r.value ==> !SameEntry(s[j], pre)
    ensures r.None? <==> forall j :: 0 <= j < |s| ==> !SameEntry(s[j], pre)
  {
    FindEntryFrom(s, pre, 0)
  }

  /** The pairs the merge loop has pushed after the first n pre records. */
  function MergedTo(pre: seq<Player>, kbo: seq<Player>, n: nat): (m: seq<Pair>)
    requires n <= |pre|
    ensures |m| <= n
  {
    if n == 0 then []
    else
      var rest := MergedTo(pre, kbo, n - 1);
      var f := FindEntry(kbo, pre[n - 1]);
      if f.Some? then rest + [Pair(pre[n - 1], kbo[f.value])] else rest
  }

  function Merged(pre: seq<Player>, kbo: seq<Player>): (m: seq<Pair>)
    ensures |m| <= |pre|
  {
    MergedTo(pre, kbo, |pre|)
  }

  /** The merge loop of both scripts: one pair per pre record with a matching KBO record. */
  method Merge(pre: seq<Player>, kbo: seq<Player>) returns (merged: seq<Pair>)
    ensures merged == Merged(pre, kbo)
  {
    merged := [];
    for i := 0 to |pre|
      invariant merged == MergedTo(pre, kbo, i)
    {
      var found := FindEntry(kbo, pre[i]);
      if found.Some? {
        merged := merged + [Pair(pre[i], kbo[found.value])];
      }
    }
  }

  /** Every KBO record of the merged pairs defines `wrc_plus`. */
  predicate KboDefinesWrc(m: seq<Pair>)
  {
    forall i :: 0 <= i < |m| ==> WrcPlus in m[i].kbo.stats
  }

  /** `mergedData.map(d => d.kbo.wrc_plus)`. */
  function KboWrcs(m: seq<Pair>): (s: seq<real>)
    requires KboDefinesWrc(m)
    ensures |s| == |m|
    ensures forall i :: 0 <= i < |m| ==> s[i] == m[i].kbo.stats[WrcPlus]
  {
    seq(|m|, i requires 0 <= i < |m| => m[i].kbo.stats[WrcPlus])
  }

  /** A pre record has a match somewhere in kbo. */
  predicate HasEntry(kbo: seq<Player>, p: Player)
  {
    exists j :: 0 <= j < |kbo| && SameEntry(kbo[j], p)
  }

  /** The pre records that have a match, in their order. */
  function MatchedPre(pre: seq<Player>, kbo: seq<Player>, n: nat): (s: seq<Player>)
    requires n <= |pre|
  {
    if n == 0 then []
    else if HasEntry(kbo, pre[n - 1]) then MatchedPre(pre, kbo, n - 1) + [pre[n - 1]]
    else MatchedPre(pre, kbo, n - 1)
  }

  /** The pre halves of the merged pairs. */
  function PreOf(m: seq<Pair>): (s: seq<Player>)
    ensures |s| == |m|
    ensures forall i :: 0 <= i < |m| ==> s[i] == m[i].pre
  {
    seq(|m|, i requires 0 <= i < |m| => m[i].pre)
  }

  /** The pre halves of the merged pairs are exactly the matched pre records, in pre order. */
  lemma {:induction false} MergedCorrect(pre: seq<Player>, kbo: seq<Player>, n: nat)
    requires n <= |pre|
    ensures PreOf(MergedTo(pre, kbo, n)) == MatchedPre(pre, kbo, n)
  {
    if n > 0 {
      MergedCorrect(pre, kbo, n - 1);
      var rest := MergedTo(pre, kbo, n - 1);
      var f := FindEntry(kbo, pre[n - 1]);
      if f.Some? {
        assert HasEntry(kbo, pre[n - 1]);
        var m := MergedTo(pre, kbo, n);
        assert m == rest + [Pair(pre[n - 1], kbo[f.value])];
        assert PreOf(m) == PreOf(rest) + [pre[n - 1]];
      } else {
        assert !HasEntry(kbo, pre[n - 1]);
      }
    }
  }

  /** The KBO half of each merged pair is the first KBO record of its entry. */
  lemma MergedKboIsFirstMatch(pre: seq<Player>, kbo: seq<Player>, i: nat)
    requires i < |Merged(pre, kbo)|
    ensures FindEntry(kbo, Merged(pre, kbo)[i].pre).Some?
    ensures Merged(pre, kbo)[i].kbo == kbo[FindEntry(kbo, Merged(pre, kbo)[i].pre).value]
    ensures SameEntry(Merged(pre, kbo)[i].kbo, Merged(pre, kbo)[i].pre)
  {
    KboHalves(pre, kbo, |pre|);
  }

  lemma {:induction false} KboHalves(pre: seq<Player>, kbo: seq<Player>, n: nat)
    requires n <= |pre|
    ensures forall i :: 0 <= i < |MergedTo(pre, kbo, n)| ==>
              FindEntry(kbo, MergedTo(pre, kbo, n)[i].pre).Some? &&
              MergedTo(pre, kbo, n)[i].kbo == kbo[FindEntry(kbo, MergedTo(pre, kbo, n)[i].pre).value]
  {
    if n > 0 {
      KboHalves(pre, kbo, n - 1);
    }
  }

  // -------------------------------------------------------- by name only

  /** The index of the first record of `s` at or after `from` named `name`. */
  function FindNameFrom(s: seq<Player>, name: string, from: nat): (r: Option<nat>)
    requires from <= |s|
    ensures r.Some? ==> from <= r.value < |s| && s[r.value].name == name
    ensures r.Some? ==> forall j :: from <= j < r.value ==> s[j].name != name
    ensures r.None? ==> forall j :: from <= j < |s| ==> s[j].name != name
    decreases |s| - from
  {
    if from == |s| then None
    else if s[from].name == name then Some(from)
    else FindNameFrom(s, name, from + 1)
  }

  /** `data.find(p => p.name === name)`: the first record with the name, or undefined. */
  function FindByName(s: seq<Player>, name: string): (r: Option<Player>)
    ensures r.Some? ==> r.value in s && r.value.name == name
    ensures r.None? <==> forall j :: 0 <= j < |s| ==> s[j].name != name
    ensures r.Some? ==> exists i :: 0 <= i < |s| && s[i] == r.value && forall j :: 0 <= j < i ==> s[j].name != name
  {
    var f := FindNameFrom(s, name, 0);
    if f.Some? then Some(s[f.value]) else None
  }
}
