/** The JavaScript value semantics the scoring code leans on, over exact reals:
    an optional number (a property that may be undefined), the two different
    ways the code substitutes a default, truthiness, Math.round and the
    clamps built from Math.min and Math.max. */
module Js {

  datatype Option<T> = None | Some(value: T)

  /** `x || d`: the default replaces an undefined value and also a 0. */
  function Or(x: Option<real>, d: real): (r: real)
    ensures r == d <==> (x == None || x == Some(0.0) || x == Some(d))
    ensures r != d ==> x == Some(r)
  {
    if x.Some? && x.value != 0.0 then x.value else d
  }

  /** A non-zero default makes the result non-zero, so `x || d` is a safe divisor. */
  lemma OrNonZero(x: Option<real>, d: real)
    requires d != 0.0
    ensures Or(x, d) != 0.0
  {
  }

  /** A destructuring default `{ k = d } = o`: only an undefined value is replaced. */
  function Def(x: Option<real>, d: real): (r: real)
    ensures x.Some? ==> r == x.value
    ensures x.None? ==> r == d
  {
    match x
    case Some(v) => v
    case None => d
  }

  /** JavaScript truthiness of an optional number (NaN is not modelled). */
  predicate Truthy(x: Option<real>)
  {
    x.Some? && x.value != 0.0
  }

  /** A `||` default differs from a destructuring default only on an explicit 0. */
  lemma OrAgreesWithDefExceptZero(x: Option<real>, d: real)
    ensures x != Some(0.0) ==> Or(x, d) == Def(x, d)
    ensures x == Some(0.0) ==> Or(x, d) == d && Def(x, d) == 0.0
  {
  }

  /** Math.round: the nearest integer, halves rounded up. */
  function Round(x: real): (r: int)
    ensures x - 0.5 < r as real <= x + 0.5
  {
    (x + 0.5).Floor
  }

  /** A real with at most one decimal: ten times it is an integer. */
  predicate OneDecimal(r: real)
  {
    (r * 10.0).Floor as real == r * 10.0
  }

  /** `Math.round(x * 10) / 10`: rounding to one decimal. */
  function Round1(x: real): (r: real)
    ensures OneDecimal(r)
    ensures x - 0.05 < r <= x + 0.05
  {
    Round(x * 10.0) as real / 10.0
  }

  /** The two facts of Round1's contract pin its result: no other one-decimal real
      lies in the window. */
  lemma Round1Unique(x: real, y: real)
    requires OneDecimal(y) && x - 0.05 < y <= x + 0.05
    ensures y == Round1(x)
  {
    var n := (y * 10.0).Floor;
    assert x * 10.0 - 0.5 < n as real <= x * 10.0 + 0.5;
    assert n == Round(x * 10.0);
  }

  /** Math.round is monotone. */
  lemma RoundMonotone(x: real, y: real)
    requires x <= y
    ensures Round(x) <= Round(y)
  {
  }

  /** Math.round maps an integral bound to itself, so [lo, hi] stays [lo, hi]. */
  lemma RoundWithin(x: real, lo: int, hi: int)
    requires lo as real <= x <= hi as real
    ensures lo <= Round(x) <= hi
  {
    RoundMonotone(lo as real, x);
    RoundMonotone(x, hi as real);
    assert Round(lo as real) == lo;
    assert Round(hi as real) == hi;
  }

  /** One-decimal rounding keeps a value with one-decimal bounds within them. */
  lemma Round1Within(x: real, lo: int, hi: int)
    requires lo as real <= x <= hi as real
    ensures lo as real <= Round1(x) <= hi as real
  {
    RoundWithin(x * 10.0, lo * 10, hi * 10);
  }

  /** One-decimal rounding is monotone. */
  lemma Round1Monotone(x: real, y: real)
    requires x <= y
    ensures Round1(x) <= Round1(y)
  {
    RoundMonotone(x * 10.0, y * 10.0);
  }

  function Min(a: real, b: real): (r: real)
    ensures r <= a && r <= b && (r == a || r == b)
  {
    if a <= b then a else b
  }

  function Max(a: real, b: real): (r: real)
    ensures r >= a && r >= b && (r == a || r == b)
  {
    if a >= b then a else b
  }

  /** `Math.max(lo, Math.min(hi, x))`. */
  function Clamp(x: real, lo: real, hi: real): (r: real)
    requires lo <= hi
    ensures lo <= r <= hi
    ensures lo <= x <= hi ==> r == x
    ensures x < lo ==> r == lo
    ensures x > hi ==> r == hi
  {
    Max(lo, Min(hi, x))
  }

  /** A clamp is monotone in the clamped value. */
  lemma ClampMonotone(x: real, y: real, lo: real, hi: real)
    requires lo <= hi && x <= y
    ensures Clamp(x, lo, hi) <= Clamp(y, lo, hi)
  {
  }

  /** Math.abs. */
  function Abs(x: real): (r: real)
    ensures r >= 0.0 && (r == x || r == -x)
  {
    if x < 0.0 then -x else x
  }
}
