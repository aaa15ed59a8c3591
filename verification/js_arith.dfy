/** The small part of JavaScript's number semantics the application relies on,
    over exact reals: truncation toward zero, the truncated remainder `%`,
    `Math.min`/`Math.max`, and the number values a computation can produce.
    NaN never reaches the modelled code paths and is not represented. */
module JsArith {

  /** A JavaScript number that is not NaN. */
  datatype Number = Finite(value: real) | PosInfinity | NegInfinity

  /** Truncation toward zero: what `%` uses for its quotient, and what
      `parseInt` yields for a plain decimal numeral. */
  function Trunc(x: real): (t: int)
    ensures 0.0 <= x ==> 0 <= t && t as real <= x < t as real + 1.0
    ensures x < 0.0 ==> t <= 0 && t as real - 1.0 < x <= t as real
  {
    if x >= 0.0 then x.Floor else -((-x).Floor)
  }

  /** `x` is an integer multiple of `b`. */
  predicate MultipleOf(x: real, b: real)
    requires b > 0.0
  {
    (x / b).Floor as real == x / b
  }

  /** JavaScript's `a % b` for a positive divisor: the result keeps the sign
      of the dividend `a`, unlike Dafny's Euclidean `%`. */
  function Rem(a: real, b: real): (r: real)
    requires b > 0.0
    ensures 0.0 <= a ==> 0.0 <= r < b
    ensures a < 0.0 ==> -b < r <= 0.0
    ensures MultipleOf(a - r, b)
  {
    var t := Trunc(a / b);
    RemFacts(a, b, t);
    a - b * (t as real)
  }

  lemma RemFacts(a: real, b: real, t: int)
    requires b > 0.0 && t == Trunc(a / b)
    ensures 0.0 <= a ==> 0.0 <= a - b * (t as real) < b
    ensures a < 0.0 ==> -b < a - b * (t as real) <= 0.0
    ensures MultipleOf(b * (t as real), b)
  {
    var x := t as real;
    Distribute(b, x);
    if 0.0 <= a {
      assert 0.0 <= a / b;
      BelowQuotient(x, a, b);
      AboveQuotient(x + 1.0, a, b);
    } else {
      assert a / b < 0.0;
      BelowQuotient(x - 1.0, a, b);
      AboveQuotient(x, a, b);
    }
    MultipleOfProduct(b, t);
  }

  lemma MultipleOfProduct(b: real, t: int)
    requires b > 0.0
    ensures MultipleOf(b * (t as real), b)
  {
    CancelFactor(b, t as real);
  }

  /** Helpers that move a bound across a positive divisor. */
  lemma BelowQuotient(x: real, a: real, b: real)
    requires b > 0.0
    ensures x <= a / b ==> b * x <= a
    ensures x < a / b ==> b * x < a
  {
  }

  lemma AboveQuotient(y: real, a: real, b: real)
    requires b > 0.0
    ensures a / b <= y ==> a <= b * y
    ensures a / b < y ==> a < b * y
  {
  }

  lemma Distribute(b: real, x: real)
    ensures b * (x + 1.0) == b * x + b
    ensures b * (x - 1.0) == b * x - b
  {
  }

  lemma CancelFactor(b: real, x: real)
    requires b > 0.0
    ensures (b * x) / b == x
  {
  }

  /** `Math.round`: the nearest integer, halves rounded toward +infinity
      (so -2.5 rounds to -2, not -3). */
  function Round(y: real): (n: int)
    ensures y - 0.5 < n as real <= y + 0.5
  {
    (y + 0.5).Floor
  }

  /** `Math.round` is the only integer in the half-open window (y - 1/2, y + 1/2]. */
  lemma RoundUnique(y: real, k: int)
    requires y - 0.5 < k as real <= y + 0.5
    ensures Round(y) == k
  {
  }

  /** `Math.min` on two non-NaN numbers. */
  function Min(a: real, b: real): (m: real)
    ensures m <= a && m <= b
    ensures m == a || m == b
  {
    if a <= b then a else b
  }

  /** `Math.max` on two non-NaN numbers. */
  function Max(a: real, b: real): (m: real)
    ensures a <= m && b <= m
    ensures m == a || m == b
  {
    if a >= b then a else b
  }
}
