/** `scripts/analyze_correlations.js`: for every numeric property of the first
    merged pre-KBO record, the Pearson coefficient of that property (0 where it
    is missing) against KBO wRC+, sorted in place by decreasing |r|. Each
    sorted result is one line of the output file. */
module AnalyzeCorrelations {
  import opened Js
  import opened Players
  import opened Correlation
  import opened Matching
  import opened Sorting

  /** `{ key, corr }`. */
  datatype KeyCorr = KeyCorr(key: Stat, corr: Coef)

  /** `Object.keys(sample).filter(key => typeof sample[key] === 'number')`: the
      properties the record defines, in key order. */
  function NumericKeys(p: Player): (keys: seq<Stat>)
    ensures forall k :: k in keys <==> k in p.stats
    ensures forall i, j :: 0 <= i < j < |keys| ==> StatIndex(keys[i]) < StatIndex(keys[j])
    ensures forall i, j :: 0 <= i < j < |keys| ==> keys[i] != keys[j]
  {
    PresentFrom(p, 0)
  }

  /** The properties the record defines, from position `from` of `AllStats` on. */
  function PresentFrom(p: Player, from: nat): (keys: seq<Stat>)
    requires from <= |AllStats|
    ensures forall k :: k in keys <==> k in p.stats && StatIndex(k) >= from
    ensures forall i, j :: 0 <= i < j < |keys| ==> StatIndex(keys[i]) < StatIndex(keys[j])
    decreases |AllStats| - from
  {
    if from == |AllStats| then []
    else
      var rest := PresentFrom(p, from + 1);
      AllStatsDistinct();
      if AllStats[from] in p.stats then [AllStats[from]] + rest else rest
  }

  /** `mergedData.map(d => d.pre[key] || 0)`. */
  function Values(m: seq<Pair>, key: Stat): (v: seq<real>)
    ensures |v| == |m|
    ensures forall i :: 0 <= i < |m| ==> v[i] == Or(Get(m[i].pre, key), 0.0)
  {
    seq(|m|, i requires 0 <= i < |m| => Or(Get(m[i].pre, key), 0.0))
  }

  /** A property a record lacks counts as 0, and so does an explicit 0. */
  lemma MissingIsZero(m: seq<Pair>, key: Stat, i: nat)
    requires i < |m|
    ensures key !in m[i].pre.stats ==> Values(m, key)[i] == 0.0
    ensures key in m[i].pre.stats ==> Values(m, key)[i] == m[i].pre.stats[key]
  {
  }

  /** The correlation of one property with KBO wRC+. */
  function KeyCorrelation(m: seq<Pair>, key: Stat): (c: KeyCorr)
    requires KboDefinesWrc(m)
    ensures c.key == key && Valid(c.corr)
  {
    KeyCorr(key, Pearson(Values(m, key), KboWrcs(m)))
  }

  /** `numericKeys.map(...)`: one result per key, in key order. */
  function Correlations(m: seq<Pair>, keys: seq<Stat>): (cs: seq<KeyCorr>)
    requires KboDefinesWrc(m)
    ensures |cs| == |keys|
    ensures forall i :: 0 <= i < |keys| ==> cs[i] == KeyCorrelation(m, keys[i])
  {
    seq(|keys|, i requires 0 <= i < |keys| => KeyCorrelation(m, keys[i]))
  }

  /** |r| is what the comparator compares; r² orders the same way. Every
      coefficient `Pearson` returns is valid. */
  function Strength(c: KeyCorr): real
  {
    if Valid(c.corr) then Square(c.corr) else 0.0
  }

  /** Comparing strengths is comparing the absolute values of the coefficients. */
  lemma StrengthIsAbs(a: KeyCorr, b: KeyCorr, ra: real, rb: real)
    requires Denotes(a.corr, ra) && Denotes(b.corr, rb)
    ensures Strength(a) >= Strength(b) <==> Abs(ra) >= Abs(rb)
  {
    DenotesSquare(a.corr, ra);
    DenotesSquare(b.corr, rb);
    SquareNegate(ra);
    SquareNegate(rb);
    SquareOrder(Abs(ra), Abs(rb));
  }

  /** Non-increasing |r|. */
  predicate ByStrength(s: seq<KeyCorr>)
  {
    forall i, j :: 0 <= i < j < |s| ==> Strength(s[i]) >= Strength(s[j])
  }

  /** Sorted by decreasing strength: ascending by the negated strength. */
  function Weakness(c: KeyCorr): real
  {
    -Strength(c)
  }

  /** `correlations.sort((a, b) => Math.abs(b.corr) - Math.abs(a.corr))`. */
  method SortByStrength(a: array<KeyCorr>)
    modifies a
    ensures ByStrength(a[..])
    ensures multiset(a[..]) == old(multiset(a[..]))
  {
    SortBy(a, Weakness);
  }

  predicate DefinesWrc(pre: seq<Player>, kbo: seq<Player>)
  {
    KboDefinesWrc(Merged(pre, kbo))
  }

  /** The script, from the two record lists to the sorted results. `mergedData[0]`
      must exist, and every matched KBO record must define wRC+. */
  method Analyze(pre: seq<Player>, kbo: seq<Player>) returns (results: seq<KeyCorr>)
    requires |Merged(pre, kbo)| >= 1 && DefinesWrc(pre, kbo)
    ensures var m := Merged(pre, kbo);
            multiset(results) == multiset(Correlations(m, NumericKeys(m[0].pre)))
    ensures ByStrength(results)
  {
    var mergedData := Merge(pre, kbo);
    var sample := mergedData[0].pre;
    var numericKeys := NumericKeys(sample);
    var correlations := Correlations(mergedData, numericKeys);
    var sorted := new KeyCorr[|correlations|](i requires 0 <= i < |correlations| => correlations[i]);
    assert sorted[..] == correlations;
    SortByStrength(sorted);
    results := sorted[..];
  }

  /** The sorted results hold one result per numeric key of the sample, each
      with its own key's coefficient. */
  lemma ResultsPerKey(m: seq<Pair>, results: seq<KeyCorr>)
    requires |m| >= 1 && KboDefinesWrc(m)
    requires multiset(results) == multiset(Correlations(m, NumericKeys(m[0].pre)))
    ensures |results| == |NumericKeys(m[0].pre)|
    ensures forall r :: r in results ==> r.key in m[0].pre.stats && r == KeyCorrelation(m, r.key)
    ensures forall k :: k in m[0].pre.stats ==> KeyCorrelation(m, k) in results
  {
    var keys := NumericKeys(m[0].pre);
    var cs := Correlations(m, keys);
    SameElements(results, cs);
    CorrelationsPerKey(m, keys);
  }

  lemma CorrelationsPerKey(m: seq<Pair>, keys: seq<Stat>)
    requires KboDefinesWrc(m)
    ensures forall r :: r in Correlations(m, keys) ==> r.key in keys && r == KeyCorrelation(m, r.key)
    ensures forall k :: k in keys ==> KeyCorrelation(m, k) in Correlations(m, keys)
  {
    var cs := Correlations(m, keys);
    forall r | r in cs
      ensures r.key in keys && r == KeyCorrelation(m, r.key)
    {
      var i :| 0 <= i < |cs| && cs[i] == r;
      assert keys[i] in keys;
    }
    forall k | k in keys
      ensures KeyCorrelation(m, k) in cs
    {
      var i :| 0 <= i < |keys| && keys[i] == k;
      assert cs[i] in cs;
    }
  }
}
