/** Pearson's correlation coefficient by the sum formula, as both batch
    scripts and the correlation chart compute it:

      r = (n Σxy − Σx Σy) / sqrt((n Σx² − (Σx)²) (n Σy² − (Σy)²)),  0 when the root is 0.

    A square root of a real is not a real Dafny can compute, so a coefficient
    is kept exactly as the pair `Coef(num, sq)` standing for num / sqrt(sq)
    with sq > 0; the degenerate case is `Zero`. Everything the code does with
    a coefficient (compare two of them, test |r| against a cut, sort by |r|)
    is decided exactly from the sign of num and from num² / sq, which is r². */
module Correlation {
  import opened Js

  // ---------------------------------------------------------------- sums

  /** s[0] + … + s[n-1]. */
  function SumTo(s: seq<real>, n: nat): real
    requires n <= |s|
  {
    if n == 0 then 0.0 else SumTo(s, n - 1) + s[n - 1]
  }

  /** `x.reduce((a, b) => a + b, 0)`. */
  function Sum(s: seq<real>): real
  {
    SumTo(s, |s|)
  }

  /** x[0] y[0] + … + x[n-1] y[n-1]. */
  function DotTo(x: seq<real>, y: seq<real>, n: nat): real
    requires |x| == |y| && n <= |x|
  {
    if n == 0 then 0.0 else DotTo(x, y, n - 1) + x[n - 1] * y[n - 1]
  }

  /** `x.reduce((sum, xi, i) => sum + xi * y[i], 0)`; with y = x it is Σx². */
  function Dot(x: seq<real>, y: seq<real>): real
    requires |x| == |y|
  {
    DotTo(x, y, |x|)
  }

  /** The numerator n Σxy − Σx Σy. */
  function Numerator(x: seq<real>, y: seq<real>): real
    requires |x| == |y|
  {
    |x| as real * Dot(x, y) - Sum(x) * Sum(y)
  }

  /** n Σx² − (Σx)², one factor under the root. */
  function Spread(x: seq<real>): real
  {
    Numerator(x, x)
  }

  /** a², kept as a function so that a square is one term wherever it appears. */
  function Sq(a: real): real
  {
    a * a
  }

  // ------------------------------------------------- the coefficient value

  /** num / sqrt(sq). */
  datatype Coef = Coef(num: real, sq: real)

  predicate Valid(c: Coef) { c.sq > 0.0 }

  const Zero: Coef := Coef(0.0, 1.0)

  /** r² of a coefficient: never negative, and 0 exactly when r is. */
  function Square(c: Coef): (q: real)
    requires Valid(c)
    ensures q >= 0.0
    ensures q == 0.0 <==> c.num == 0.0
  {
    SquareBasics(c);
    Sq(c.num) / c.sq
  }

  lemma SquareBasics(c: Coef)
    requires Valid(c)
    ensures Sq(c.num) / c.sq >= 0.0
    ensures Sq(c.num) / c.sq == 0.0 <==> c.num == 0.0
  {
    SquareNonNegative(c.num);
    DivSign(Sq(c.num), c.sq);
    if c.num != 0.0 {
      SquarePositive(c.num);
    }
  }

  lemma MulNonNegative(a: real, b: real)
    requires a >= 0.0 && b >= 0.0
    ensures a * b >= 0.0
  {
  }

  lemma MulPositive(a: real, b: real)
    requires a > 0.0 && b > 0.0
    ensures a * b > 0.0
  {
  }

  lemma SquareNonNegative(a: real)
    ensures Sq(a) >= 0.0
  {
    if a < 0.0 {
      MulPositive(-a, -a);
    } else {
      MulNonNegative(a, a);
    }
  }

  lemma SquarePositive(a: real)
    requires a != 0.0
    ensures Sq(a) > 0.0
  {
    assert Sq(a) / a == a;
  }

  lemma SquareNegate(a: real)
    ensures Sq(-a) == Sq(a) && Sq(Abs(a)) == Sq(a)
  {
  }

  lemma DivSign(a: real, b: real)
    requires b > 0.0
    ensures a >= 0.0 ==> a / b >= 0.0
    ensures a > 0.0 ==> a / b > 0.0
    ensures a == 0.0 ==> a / b == 0.0
  {
    var q := a / b;
    assert q * b == a;
    if q < 0.0 {
      MulPositive(-q, b);
    }
    if q == 0.0 {
      assert q * b == 0.0;
    }
  }

  lemma MulCancel(a: real, b: real, c: real)
    requires c > 0.0 && a * c == b * c
    ensures a == b
  {
    assert (a - b) * c == 0.0;
  }

  /** `r` is the real number the pair stands for: r² = num² / sq with the sign of num. */
  ghost predicate Denotes(c: Coef, r: real)
  {
    Valid(c) && Sq(r) * c.sq == Sq(c.num) && (r > 0.0 <==> c.num > 0.0) && (r < 0.0 <==> c.num < 0.0)
  }

  /** For 0 <= r1, r2: r1 < r2 exactly when r1² < r2². */
  lemma {:induction false} SquareOrder(r1: real, r2: real)
    requires 0.0 <= r1 && 0.0 <= r2
    ensures r1 < r2 <==> Sq(r1) < Sq(r2)
  {
    var d, e := r2 - r1, r2 + r1;
    assert Sq(r2) - Sq(r1) == d * e;
    if r1 < r2 {
      MulPositive(d, e);
    } else {
      MulNonNegative(-d, e);
      assert (-d) * e == -(d * e);
    }
  }

  /** A pair stands for one real at most. */
  lemma {:induction false} DenotesUnique(c: Coef, r1: real, r2: real)
    requires Denotes(c, r1) && Denotes(c, r2)
    ensures r1 == r2
  {
    MulCancel(Sq(r1), Sq(r2), c.sq);
    if r1 >= 0.0 && r2 >= 0.0 {
      SquareOrder(r1, r2);
      SquareOrder(r2, r1);
    } else {
      assert r1 <= 0.0 && r2 <= 0.0;
      SquareNegate(r1);
      SquareNegate(r2);
      SquareOrder(-r1, -r2);
      SquareOrder(-r2, -r1);
    }
  }

  /** Square is the square of the denoted value. */
  lemma DenotesSquare(c: Coef, r: real)
    requires Denotes(c, r)
    ensures Square(c) == Sq(r)
  {
    assert Sq(r) * c.sq == Sq(c.num);
  }

  /** The comparison `a > b` of the denoted values. */
  predicate Gt(a: Coef, b: Coef)
    requires Valid(a) && Valid(b)
  {
    if a.num >= 0.0 then b.num < 0.0 || Square(a) > Square(b)
    else b.num < 0.0 && Square(a) < Square(b)
  }

  /** `a >= b`. */
  predicate Ge(a: Coef, b: Coef)
    requires Valid(a) && Valid(b)
  {
    !Gt(b, a)
  }

  /** Gt decides the real comparison of the denoted values. */
  lemma {:induction false} GtMeansGreater(a: Coef, b: Coef, ra: real, rb: real)
    requires Denotes(a, ra) && Denotes(b, rb)
    ensures Gt(a, b) <==> ra > rb
  {
    DenotesSquare(a, ra);
    DenotesSquare(b, rb);
    if ra >= 0.0 && rb >= 0.0 {
      SquareOrder(rb, ra);
    } else if ra < 0.0 && rb < 0.0 {
      SquareNegate(ra);
      SquareNegate(rb);
      SquareOrder(-ra, -rb);
    }
  }

  lemma GtIrreflexive(a: Coef)
    requires Valid(a)
    ensures !Gt(a, a) && Ge(a, a)
  {
  }

  /** A strict improvement is in particular no loss. */
  lemma GtImpliesGe(a: Coef, b: Coef)
    requires Valid(a) && Valid(b) && Gt(a, b)
    ensures Ge(a, b) && !Gt(b, a)
  {
  }

  lemma {:induction false} GeTransitive(a: Coef, b: Coef, c: Coef)
    requires Valid(a) && Valid(b) && Valid(c)
    requires Ge(a, b) && Ge(b, c)
    ensures Ge(a, c)
  {
    var sa, sb, sc := Square(a), Square(b), Square(c);
    assert sa == 0.0 <==> a.num == 0.0;
    assert sb == 0.0 <==> b.num == 0.0;
    assert sc == 0.0 <==> c.num == 0.0;
  }

  /** |r| >= t, for a cut t >= 0: r² >= t². */
  predicate AbsAtLeast(c: Coef, t: real)
  {
    Sq(c.num) >= Sq(t) * c.sq
  }

  /** AbsAtLeast decides `Math.abs(r) >= t` of the denoted value. */
  lemma {:induction false} AbsAtLeastMeans(c: Coef, r: real, t: real)
    requires Denotes(c, r) && t >= 0.0
    ensures AbsAtLeast(c, t) <==> Abs(r) >= t
  {
    SquareNegate(r);
    SquareOrder(Abs(r), t);
    assert Sq(c.num) == Sq(r) * c.sq;
    if Abs(r) >= t {
      assert Sq(r) >= Sq(t);
      assert Sq(r) * c.sq >= Sq(t) * c.sq;
    } else {
      assert Sq(r) < Sq(t);
      assert Sq(r) * c.sq < Sq(t) * c.sq;
    }
  }

  /** A cut on |r| is the same cut on r². */
  lemma AbsAtLeastBySquare(c: Coef, t: real)
    requires Valid(c)
    ensures AbsAtLeast(c, t) <==> Square(c) >= Sq(t)
  {
    var s := Square(c);
    assert s * c.sq == Sq(c.num);
    if AbsAtLeast(c, t) {
      assert s * c.sq >= Sq(t) * c.sq;
    } else {
      assert s * c.sq < Sq(t) * c.sq;
    }
  }

  // ------------------------------------------------------- the coefficient

  /** `calculateCorrelation(x, y)` of the scripts. */
  function Pearson(x: seq<real>, y: seq<real>): (r: Coef)
    requires |x| == |y|
    ensures Valid(r)
  {
    SpreadNonNegative(x);
    SpreadNonNegative(y);
    var d := Spread(x) * Spread(y);
    if d == 0.0 then Zero else Coef(Numerator(x, y), d)
  }

  /** The degenerate case: a zero root gives 0, and fewer than two values always do. */
  lemma {:induction false} PearsonDegenerate(x: seq<real>, y: seq<real>)
    requires |x| == |y|
    ensures Spread(x) == 0.0 || Spread(y) == 0.0 ==> Pearson(x, y) == Zero
    ensures |x| < 2 ==> Spread(x) == 0.0 && Pearson(x, y) == Zero
  {
    if |x| == 1 {
      assert SumTo(x, 1) == x[0] && DotTo(x, x, 1) == x[0] * x[0];
    }
  }

  /** Otherwise the pair is the numerator over the product of the two spreads, both positive. */
  lemma PearsonRegular(x: seq<real>, y: seq<real>)
    requires |x| == |y| && Spread(x) != 0.0 && Spread(y) != 0.0
    ensures Spread(x) > 0.0 && Spread(y) > 0.0
    ensures Pearson(x, y) == Coef(Numerator(x, y), Spread(x) * Spread(y))
  {
    SpreadNonNegative(x);
    SpreadNonNegative(y);
    MulPositive(Spread(x), Spread(y));
  }

  /** Swapping the two sequences gives the same coefficient. */
  lemma {:induction false} PearsonSymmetric(x: seq<real>, y: seq<real>)
    requires |x| == |y|
    ensures Pearson(x, y) == Pearson(y, x)
  {
    DotSymmetric(x, y);
    assert Numerator(x, y) == Numerator(y, x);
  }

  /** |r| <= 1 for every input (Cauchy–Schwarz): r² <= 1, hence -1 <= r <= 1. */
  lemma {:induction false} PearsonBounded(x: seq<real>, y: seq<real>)
    requires |x| == |y|
    ensures Square(Pearson(x, y)) <= 1.0
    ensures forall r :: Denotes(Pearson(x, y), r) ==> -1.0 <= r <= 1.0
  {
    var c := Pearson(x, y);
    if c != Zero {
      NumeratorSquareBounded(x, y);
      assert Sq(c.num) <= c.sq;
      RatioAtMostOne(Sq(c.num), c.sq);
    }
    forall r | Denotes(c, r) ensures -1.0 <= r <= 1.0 {
      SquareAtMostOne(c, r);
    }
  }

  lemma SquareAtMostOne(c: Coef, r: real)
    requires Denotes(c, r) && Square(c) <= 1.0
    ensures -1.0 <= r <= 1.0
  {
    DenotesSquare(c, r);
    SquareNegate(r);
    SquareOrder(1.0, Abs(r));
  }

  lemma RatioAtMostOne(a: real, b: real)
    requires b > 0.0 && a <= b
    ensures a / b <= 1.0
  {
  }

  /** A sequence with non-zero spread correlates with itself exactly: r = 1. */
  lemma PearsonSelf(x: seq<real>)
    requires Spread(x) != 0.0
    ensures Pearson(x, x).num > 0.0 && Square(Pearson(x, x)) == 1.0
    ensures Denotes(Pearson(x, x), 1.0)
  {
    PearsonRegular(x, x);
    var s := Spread(x);
    assert Pearson(x, x) == Coef(s, s * s);
    assert s * s / (s * s) == 1.0;
  }

  /** The scenario x = [10, 20], y = [1, 2] gives r = 1 exactly. */
  lemma PearsonExample()
    ensures Denotes(Pearson([10.0, 20.0], [1.0, 2.0]), 1.0)
  {
    var x, y := [10.0, 20.0], [1.0, 2.0];
    assert SumTo(x, 1) == 10.0 && SumTo(y, 1) == 1.0;
    assert Sum(x) == 30.0 && Sum(y) == 3.0;
    assert DotTo(x, y, 1) == 10.0 && DotTo(x, x, 1) == 100.0 && DotTo(y, y, 1) == 1.0;
    assert Dot(x, y) == 50.0 && Dot(x, x) == 500.0 && Dot(y, y) == 5.0;
    assert Numerator(x, y) == 10.0 && Spread(x) == 100.0 && Spread(y) == 1.0;
  }

  // ----------------------------------------------------- Cauchy–Schwarz

  lemma {:induction false} DotToSymmetric(x: seq<real>, y: seq<real>, n: nat)
    requires |x| == |y| && n <= |x|
    ensures DotTo(x, y, n) == DotTo(y, x, n)
  {
    if n > 0 {
      DotToSymmetric(x, y, n - 1);
    }
  }

  lemma DotSymmetric(x: seq<real>, y: seq<real>)
    requires |x| == |y|
    ensures Dot(x, y) == Dot(y, x)
  {
    DotToSymmetric(x, y, |x|);
  }

  lemma {:induction false} DotSelfNonNegative(x: seq<real>, n: nat)
    requires n <= |x|
    ensures DotTo(x, x, n) >= 0.0
  {
    if n > 0 {
      DotSelfNonNegative(x, n - 1);
      SquareNonNegative(x[n - 1]);
    }
  }

  /** Σ_{i<n} (a_i q − p b_i)². */
  function CrossTo(a: seq<real>, b: seq<real>, p: real, q: real, n: nat): real
    requires |a| == |b| && n <= |a|
  {
    if n == 0 then 0.0 else CrossTo(a, b, p, q, n - 1) + Sq(a[n - 1] * q - p * b[n - 1])
  }

  lemma {:induction false} CrossToNonNegative(a: seq<real>, b: seq<real>, p: real, q: real, n: nat)
    requires |a| == |b| && n <= |a|
    ensures CrossTo(a, b, p, q, n) >= 0.0
  {
    if n > 0 {
      CrossToNonNegative(a, b, p, q, n - 1);
      SquareNonNegative(a[n - 1] * q - p * b[n - 1]);
    }
  }

  /** W == q² A − 2 p q C + p² B. */
  predicate CrossShape(W: real, A: real, B: real, C: real, p: real, q: real)
  {
    W == Sq(q) * A - 2.0 * p * q * C + Sq(p) * B
  }

  /** Σ (a_i q − p b_i)² == q² Σa² − 2 p q Σab + p² Σb², up to n. */
  predicate CrossExpansionHolds(a: seq<real>, b: seq<real>, p: real, q: real, n: nat)
    requires |a| == |b| && n <= |a|
  {
    CrossShape(CrossTo(a, b, p, q, n), DotTo(a, a, n), DotTo(b, b, n), DotTo(a, b, n), p, q)
  }

  lemma {:induction false} CrossExpansion(a: seq<real>, b: seq<real>, p: real, q: real, n: nat)
    requires |a| == |b| && n <= |a|
    ensures CrossExpansionHolds(a, b, p, q, n)
  {
    if n == 0 {
    } else {
      CrossExpansion(a, b, p, q, n - 1);
      CrossExpansionExtend(a, b, p, q, n);
    }
  }

  lemma CrossExpansionExtend(a: seq<real>, b: seq<real>, p: real, q: real, n: nat)
    requires |a| == |b| && 0 < n <= |a|
    requires CrossExpansionHolds(a, b, p, q, n - 1)
    ensures CrossExpansionHolds(a, b, p, q, n)
  {
    CrossAlgebra(DotTo(a, a, n - 1), DotTo(b, b, n - 1), DotTo(a, b, n - 1), CrossTo(a, b, p, q, n - 1),
                 a[n - 1], b[n - 1], a[n - 1] * q - p * b[n - 1], p, q,
                 DotTo(a, a, n), DotTo(b, b, n), DotTo(a, b, n), CrossTo(a, b, p, q, n));
  }

  lemma CrossAlgebra(A: real, B: real, C: real, W: real, x: real, y: real, t: real, p: real, q: real,
                     A': real, B': real, C': real, W': real)
    requires CrossShape(W, A, B, C, p, q)
    requires t == x * q - p * y
    requires A' == A + x * x && B' == B + y * y && C' == C + x * y && W' == W + Sq(t)
    ensures CrossShape(W', A', B', C', p, q)
  {
    SquareExpansion(x, y, p, q, t);
    var sq, sp := Sq(q), Sq(p);
    assert sq * A' == sq * A + sq * (x * x);
    assert sp * B' == sp * B + sp * (y * y);
    assert p * q * C' == p * q * C + p * q * (x * y);
  }

  /** (x q − p y)² == q² x² − 2 p q x y + p² y². */
  lemma SquareExpansion(x: real, y: real, p: real, q: real, t: real)
    requires t == x * q - p * y
    ensures Sq(t) == Sq(q) * (x * x) - 2.0 * p * q * (x * y) + Sq(p) * (y * y)
  {
    var u, v := x * q, p * y;
    assert t * t == u * u - 2.0 * u * v + v * v;
    assert u * u == (q * q) * (x * x);
    assert v * v == (p * p) * (y * y);
    assert u * v == p * q * (x * y);
  }

  /** C² <= A B, the shape of the inequality on three sums. */
  predicate SquareBelowProduct(A: real, B: real, C: real)
  {
    Sq(C) <= A * B
  }

  /** q² A − 2 p q C + p² B >= 0: a sum of squares. */
  predicate CrossBound(A: real, B: real, C: real, p: real, q: real)
  {
    Sq(q) * A - 2.0 * p * q * C + Sq(p) * B >= 0.0
  }

  lemma CrossNonNegative(a: seq<real>, b: seq<real>, n: nat, p: real, q: real)
    requires |a| == |b| && n <= |a|
    ensures CrossBound(DotTo(a, a, n), DotTo(b, b, n), DotTo(a, b, n), p, q)
  {
    CrossExpansion(a, b, p, q, n);
    assert CrossExpansionHolds(a, b, p, q, n);
    CrossToNonNegative(a, b, p, q, n);
  }

  lemma CauchySchwarzStep(A: real, B: real, C: real, p: real, q: real, A': real, B': real, C': real)
    requires SquareBelowProduct(A, B, C)
    requires CrossBound(A, B, C, p, q)
    requires A' == A + p * p && B' == B + q * q && C' == C + p * q
    ensures SquareBelowProduct(A', B', C')
  {
    assert Sq(C + p * q) == Sq(C) + 2.0 * p * q * C + Sq(p) * Sq(q);
    assert (A + p * p) * (B + q * q) == A * B + Sq(q) * A + Sq(p) * B + Sq(p) * Sq(q);
  }

  /** (Σ a_i b_i)² <= (Σ a_i²)(Σ b_i²), up to n. */
  predicate CauchySchwarzHolds(a: seq<real>, b: seq<real>, n: nat)
    requires |a| == |b| && n <= |a|
  {
    SquareBelowProduct(DotTo(a, a, n), DotTo(b, b, n), DotTo(a, b, n))
  }

  lemma {:induction false} CauchySchwarz(a: seq<real>, b: seq<real>, n: nat)
    requires |a| == |b| && n <= |a|
    ensures CauchySchwarzHolds(a, b, n)
  {
    if n == 0 {
    } else {
      CauchySchwarz(a, b, n - 1);
      CauchySchwarzExtend(a, b, n);
    }
  }

  /** The inequality up to n − 1 extends to n. */
  lemma CauchySchwarzExtend(a: seq<real>, b: seq<real>, n: nat)
    requires |a| == |b| && 0 < n <= |a|
    requires CauchySchwarzHolds(a, b, n - 1)
    ensures CauchySchwarzHolds(a, b, n)
  {
    CrossNonNegative(a, b, n - 1, a[n - 1], b[n - 1]);
    CauchySchwarzStep(DotTo(a, a, n - 1), DotTo(b, b, n - 1), DotTo(a, b, n - 1), a[n - 1], b[n - 1],
                      DotTo(a, a, n), DotTo(b, b, n), DotTo(a, b, n));
  }

  // ------------------------------------------- the numerator, centred

  /** The sequence x_i − m. */
  function Centred(x: seq<real>, m: real): (c: seq<real>)
    ensures |c| == |x|
    ensures forall i :: 0 <= i < |x| ==> c[i] == x[i] - m
  {
    seq(|x|, i requires 0 <= i < |x| => x[i] - m)
  }

  /** M == D − q X − p Y + m p q: a centred dot product from the uncentred sums. */
  predicate CentredShape(M: real, m: real, D: real, X: real, Y: real, p: real, q: real)
  {
    M == D - q * X - p * Y + m * p * q
  }

  /** Σ_{i<n} (x_i − p)(y_i − q) == Σxy − q Σx − p Σy + n p q. */
  predicate CentredHolds(x: seq<real>, y: seq<real>, p: real, q: real, n: nat)
    requires |x| == |y| && n <= |x|
  {
    CentredShape(DotTo(Centred(x, p), Centred(y, q), n), n as real, DotTo(x, y, n), SumTo(x, n), SumTo(y, n), p, q)
  }

  lemma {:induction false} CentredDot(x: seq<real>, y: seq<real>, p: real, q: real, n: nat)
    requires |x| == |y| && n <= |x|
    ensures CentredHolds(x, y, p, q, n)
  {
    if n == 0 {
    } else {
      CentredDot(x, y, p, q, n - 1);
      CentredDotExtend(x, y, p, q, n);
    }
  }

  lemma CentredDotExtend(x: seq<real>, y: seq<real>, p: real, q: real, n: nat)
    requires |x| == |y| && 0 < n <= |x|
    requires CentredHolds(x, y, p, q, n - 1)
    ensures CentredHolds(x, y, p, q, n)
  {
    var u, v := Centred(x, p), Centred(y, q);
    assert u[n - 1] == x[n - 1] - p && v[n - 1] == y[n - 1] - q;
    assert DotTo(u, v, n) == DotTo(u, v, n - 1) + u[n - 1] * v[n - 1];
    assert DotTo(x, y, n) == DotTo(x, y, n - 1) + x[n - 1] * y[n - 1];
    assert SumTo(x, n) == SumTo(x, n - 1) + x[n - 1] && SumTo(y, n) == SumTo(y, n - 1) + y[n - 1];
    CentredAlgebra(DotTo(x, y, n - 1), SumTo(x, n - 1), SumTo(y, n - 1), x[n - 1], y[n - 1], p, q,
                   (n - 1) as real, u[n - 1], v[n - 1], DotTo(u, v, n - 1), DotTo(u, v, n),
                   DotTo(x, y, n), SumTo(x, n), SumTo(y, n), n as real);
  }

  lemma CentredAlgebra(D: real, X: real, Y: real, a: real, b: real, p: real, q: real, m: real,
                       s: real, t: real, U: real, U': real, D': real, X': real, Y': real, m': real)
    requires CentredShape(U, m, D, X, Y, p, q)
    requires s == a - p && t == b - q && U' == U + s * t
    requires D' == D + a * b && X' == X + a && Y' == Y + b && m' == m + 1.0
    ensures CentredShape(U', m', D', X', Y', p, q)
  {
    assert s * t == a * b - q * a - p * b + p * q;
    assert m' * p * q == m * p * q + p * q;
  }

  /** N D − X Y == N M when M is the dot product centred on the means X / N and Y / N. */
  lemma NumeratorAlgebra(N: real, D: real, X: real, Y: real, p: real, q: real, M: real, R: real)
    requires N > 0.0 && p == X / N && q == Y / N
    requires CentredShape(M, N, D, X, Y, p, q) && R == N * D - X * Y
    ensures R == N * M
  {
    assert p * N == X && q * N == Y;
    assert N * M == N * D - (q * N) * X - (p * N) * Y + (p * N) * (q * N);
  }

  /** The mean of a non-empty sequence. */
  function Mean(x: seq<real>): real
    requires |x| > 0
  {
    Sum(x) / |x| as real
  }

  /** n Σ (x_i − x̄)(y_i − ȳ) is the numerator. */
  lemma NumeratorCentred(x: seq<real>, y: seq<real>)
    requires |x| == |y| && |x| > 0
    ensures Numerator(x, y) == |x| as real * Dot(Centred(x, Mean(x)), Centred(y, Mean(y)))
  {
    CentredDot(x, y, Mean(x), Mean(y), |x|);
    assert CentredHolds(x, y, Mean(x), Mean(y), |x|);
    NumeratorAlgebra(|x| as real, Dot(x, y), Sum(x), Sum(y), Mean(x), Mean(y),
                     Dot(Centred(x, Mean(x)), Centred(y, Mean(y))), Numerator(x, y));
  }

  /** Scaling the three sums by N > 0 keeps C² <= A B. */
  lemma ScaleAlgebra(N: real, A: real, B: real, C: real, A': real, B': real, C': real)
    requires N > 0.0 && SquareBelowProduct(A, B, C)
    requires A' == N * A && B' == N * B && C' == N * C
    ensures SquareBelowProduct(A', B', C')
  {
    var n2 := N * N;
    MulPositive(N, N);
    assert Sq(C') == n2 * Sq(C);
    assert A' * B' == n2 * (A * B);
  }

  /** (n Σxy − Σx Σy)² <= (n Σx² − (Σx)²)(n Σy² − (Σy)²). */
  lemma NumeratorSquareBounded(x: seq<real>, y: seq<real>)
    requires |x| == |y|
    ensures SquareBelowProduct(Spread(x), Spread(y), Numerator(x, y))
  {
    if |x| > 0 {
      var u, v := Centred(x, Mean(x)), Centred(y, Mean(y));
      NumeratorCentred(x, y);
      NumeratorCentred(x, x);
      NumeratorCentred(y, y);
      CauchySchwarz(u, v, |x|);
      assert CauchySchwarzHolds(u, v, |x|);
      ScaleAlgebra(|x| as real, Dot(u, u), Dot(v, v), Dot(u, v), Spread(x), Spread(y), Numerator(x, y));
    }
  }

  /** Each factor under the root is >= 0, so the root is always real. */
  lemma SpreadNonNegative(x: seq<real>)
    ensures Spread(x) >= 0.0
  {
    if |x| > 0 {
      var u := Centred(x, Mean(x));
      NumeratorCentred(x, x);
      DotSelfNonNegative(u, |u|);
      MulNonNegative(|x| as real, Dot(u, u));
    }
  }
}
