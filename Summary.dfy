/** The summary statistics the chart components show: the mean, the median
    of a sorted copy, the population variance, the least and greatest value,
    and the sorted copy itself. A mean, median or variance of no values is
    `NaN` in the source and `None` here. */
module Summary {
  import opened Js
  import opened Correlation
  import opened Sorting

  // ------------------------------------------------------------ sums

  /** Sums agree on sequences that agree on the summed prefix. */
  lemma {:induction false} SumToAgree(s: seq<real>, t: seq<real>, n: nat)
    requires n <= |s| && n <= |t| && s[..n] == t[..n]
    ensures SumTo(s, n) == SumTo(t, n)
  {
    if n > 0 {
      assert s[..n - 1] == s[..n][..n - 1] && t[..n - 1] == t[..n][..n - 1];
      assert s[n - 1] == s[..n][n - 1] && t[n - 1] == t[..n][n - 1];
      SumToAgree(s, t, n - 1);
    }
  }

  /** The sum of a non-empty sequence is the sum of all but the last, plus the last. */
  lemma SumLast(s: seq<real>)
    requires |s| > 0
    ensures Sum(s) == Sum(s[..|s| - 1]) + s[|s| - 1]
  {
    var init := s[..|s| - 1];
    assert s[..|s| - 1] == init[..|init|];
    SumToAgree(s, init, |s| - 1);
  }

  /** The sum of a concatenation is the sum of the sums. */
  lemma {:induction false} SumConcat(a: seq<real>, b: seq<real>)
    ensures Sum(a + b) == Sum(a) + Sum(b)
  {
    if |b| == 0 {
      assert a + b == a;
    } else {
      var ab := a + b;
      SumLast(ab);
      SumLast(b);
      assert ab[..|ab| - 1] == a + b[..|b| - 1];
      SumConcat(a, b[..|b| - 1]);
    }
  }

  /** Reordering the values keeps their sum. */
  lemma {:induction false} SumPermutation(s: seq<real>, t: seq<real>)
    requires multiset(s) == multiset(t)
    ensures Sum(s) == Sum(t)
    decreases |s|
  {
    SameElements(s, t);
    if |s| > 0 {
      var x := s[|s| - 1];
      assert x in s;
      var i :| 0 <= i < |t| && t[i] == x;
      var rest := t[..i] + t[i + 1..];
      assert t == t[..i] + [x] + t[i + 1..];
      assert s == s[..|s| - 1] + [x];
      assert multiset(s[..|s| - 1]) == multiset(s) - multiset{x};
      assert multiset(rest) == multiset(t) - multiset{x};
      SumPermutation(s[..|s| - 1], rest);
      SumLast(s);
      SumConcat(t[..i], t[i + 1..]);
      SumConcat(t[..i] + [x], t[i + 1..]);
      SumConcat(t[..i], [x]);
      assert Sum([x]) == x by { SumLast([x]); }
    }
  }

  /** Values within [lo, hi] sum to within [n lo, n hi]. */
  lemma {:induction false} SumToBounds(s: seq<real>, n: nat, lo: real, hi: real)
    requires n <= |s|
    requires forall i :: 0 <= i < n ==> lo <= s[i] <= hi
    ensures (n as real) * lo <= SumTo(s, n) <= (n as real) * hi
  {
    if n > 0 {
      SumToBounds(s, n - 1, lo, hi);
      assert (n as real) * lo == ((n - 1) as real) * lo + lo;
      assert (n as real) * hi == ((n - 1) as real) * hi + hi;
    }
  }

  // --------------------------------------------------------- extremes

  /** `Math.min(...s)` of a non-empty sequence. */
  function SeqMin(s: seq<real>): (m: real)
    requires |s| > 0
    ensures m in s && forall i :: 0 <= i < |s| ==> m <= s[i]
  {
    if |s| == 1 then s[0]
    else
      var rest := SeqMin(s[..|s| - 1]);
      assert forall i :: 0 <= i < |s| - 1 ==> s[..|s| - 1][i] == s[i];
      Min(rest, s[|s| - 1])
  }

  /** `Math.max(...s)` of a non-empty sequence. */
  function SeqMax(s: seq<real>): (m: real)
    requires |s| > 0
    ensures m in s && forall i :: 0 <= i < |s| ==> s[i] <= m
  {
    if |s| == 1 then s[0]
    else
      var rest := SeqMax(s[..|s| - 1]);
      assert forall i :: 0 <= i < |s| - 1 ==> s[..|s| - 1][i] == s[i];
      Max(rest, s[|s| - 1])
  }

  // ------------------------------------------------------------ mean

  /** `s.reduce((a, b) => a + b, 0) / s.length`. */
  function Mean(s: seq<real>): (m: Option<real>)
    ensures m.None? <==> |s| == 0
  {
    if |s| == 0 then None else Some(Sum(s) / (|s| as real))
  }

  /** The mean lies between the least and the greatest value. */
  lemma MeanBetween(s: seq<real>)
    requires |s| > 0
    ensures SeqMin(s) <= Mean(s).value <= SeqMax(s)
  {
    MeanWithin(s, SeqMin(s), SeqMax(s));
  }

  /** Values within [lo, hi] have their mean within [lo, hi]. */
  lemma MeanWithin(s: seq<real>, lo: real, hi: real)
    requires |s| > 0
    requires forall i :: 0 <= i < |s| ==> lo <= s[i] <= hi
    ensures lo <= Mean(s).value <= hi
  {
    SumToBounds(s, |s|, lo, hi);
    DivBounds(Sum(s), |s| as real, lo, hi);
  }

  /** n lo <= a <= n hi with n > 0 puts a / n within [lo, hi]. */
  lemma DivBounds(a: real, n: real, lo: real, hi: real)
    requires n > 0.0 && n * lo <= a <= n * hi
    ensures lo <= a / n <= hi
  {
    assert (a / n) * n == a;
  }

  /** The mean does not depend on the order of the values. */
  lemma MeanPermutation(s: seq<real>, t: seq<real>)
    requires multiset(s) == multiset(t)
    ensures Mean(s) == Mean(t)
  {
    SameElements(s, t);
    SumPermutation(s, t);
  }

  // -------------------------------------------------------- variance

  /** (s[0] - mu)² + … + (s[n-1] - mu)². */
  function SqDevTo(s: seq<real>, mu: real, n: nat): real
    requires n <= |s|
  {
    if n == 0 then 0.0 else SqDevTo(s, mu, n - 1) + Sq(s[n - 1] - mu)
  }

  /** A sum of squares is never negative, and is 0 exactly when every term is. */
  lemma {:induction false} SqDevToZero(s: seq<real>, mu: real, n: nat)
    requires n <= |s|
    ensures SqDevTo(s, mu, n) >= 0.0
    ensures SqDevTo(s, mu, n) == 0.0 <==> forall i :: 0 <= i < n ==> s[i] == mu
  {
    if n > 0 {
      SqDevToZero(s, mu, n - 1);
      SquareNonNegative(s[n - 1] - mu);
      if s[n - 1] != mu {
        SquarePositive(s[n - 1] - mu);
      }
    }
  }

  /** `s.reduce((sum, d) => sum + Math.pow(d - mean, 2), 0) / s.length`: the population
      variance, about the mean of the same values. */
  function Variance(s: seq<real>): (v: Option<real>)
    ensures v.None? <==> |s| == 0
  {
    if |s| == 0 then None else Some(SqDevTo(s, Mean(s).value, |s|) / (|s| as real))
  }

  /** The variance is never negative, and is 0 exactly when every value is the mean. */
  lemma VarianceZero(s: seq<real>)
    requires |s| > 0
    ensures Variance(s).value >= 0.0
    ensures Variance(s).value == 0.0 <==> forall i :: 0 <= i < |s| ==> s[i] == Mean(s).value
  {
    SqDevToZero(s, Mean(s).value, |s|);
  }

  // ---------------------------------------------------------- median

  /** The identity key: ascending numeric order, `(a, b) => a - b`. */
  function Id(x: real): real
  {
    x
  }

  predicate Ascending(s: seq<real>)
  {
    SortedBy(s, Id)
  }

  /** `[...s].sort((a, b) => a - b)`: a sorted copy; `s` itself is not reordered. */
  method SortedCopy(s: seq<real>) returns (t: seq<real>)
    ensures Ascending(t) && multiset(t) == multiset(s)
  {
    var a := new real[|s|](i requires 0 <= i < |s| => s[i]);
    assert a[..] == s;
    SortBy(a, Id);
    t := a[..];
  }

  /** The middle element for odd length, the mean of the two middle elements for even
      length; `NaN` for no elements. */
  function Median(s: seq<real>): (m: Option<real>)
    ensures m.None? <==> |s| == 0
  {
    if |s| == 0 then None
    else if |s| % 2 == 1 then Some(s[|s| / 2])
    else Some((s[|s| / 2 - 1] + s[|s| / 2]) / 2.0)
  }

  /** On sorted values the median has at least half the values on each side, and so lies
      between the least and the greatest. */
  lemma MedianSplits(s: seq<real>)
    requires |s| > 0 && Ascending(s)
    ensures forall i :: 0 <= i < |s| / 2 ==> s[i] <= Median(s).value
    ensures forall i :: (|s| - 1) / 2 < i < |s| ==> Median(s).value <= s[i]
    ensures s[0] <= Median(s).value <= s[|s| - 1]
  {
    var m, h := Median(s).value, |s| / 2;
    if |s| % 2 == 0 {
      assert Id(s[h - 1]) <= Id(s[h]) || h - 1 == h;
      forall i | 0 <= i < h ensures s[i] <= m
      {
        assert Id(s[i]) <= Id(s[h - 1]) || i == h - 1;
      }
      forall i | (|s| - 1) / 2 < i < |s| ensures m <= s[i]
      {
        assert Id(s[h]) <= Id(s[i]) || i == h;
      }
    } else {
      forall i | 0 <= i < h ensures s[i] <= m
      {
        assert Id(s[i]) <= Id(s[h]);
      }
      forall i | (|s| - 1) / 2 < i < |s| ensures m <= s[i]
      {
        assert Id(s[h]) <= Id(s[i]);
      }
    }
    if |s| > 1 {
      assert 0 < |s| / 2 && (|s| - 1) / 2 < |s| - 1;
    }
  }
}
