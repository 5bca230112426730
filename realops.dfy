/** The two floating-point operations the encoder relies on, over exact reals:
    the remainder operator `%`, whose quotient is truncated toward zero, and the
    conversion `(x / u) as u64` of a quotient to an unsigned integer. */
module RealOps {

  /** Truncation toward zero. */
  function Trunc(v: real): (t: int)
    ensures v >= 0.0 ==> t as real <= v < t as real + 1.0
    ensures v < 0.0 ==> v <= t as real < v + 1.0
  {
    if v >= 0.0 then v.Floor else -((-v).Floor)
  }

  /** Conversion to `u64`: truncation, with every negative value going to 0. */
  function AsU64(x: real): (n: nat)
    ensures x >= 0.0 ==> n as real <= x < n as real + 1.0
    ensures x < 1.0 ==> n == 0
  {
    if x < 0.0 then 0 else x.Floor
  }

  /** `(x / u) as u64`: the number of whole divisors in a non-negative `x`. */
  function DivAsU64(x: real, u: real): (n: nat)
    requires u > 0.0
    ensures x >= 0.0 ==> n as real * u <= x < n as real * u + u
    ensures x < 0.0 ==> n == 0
  {
    QuotientFacts(x, u);
    AsU64(x / u)
  }

  /** `x % u`: the remainder has the sign of `x` and is smaller than `u` in
      magnitude; for non-negative `x` it completes the quotient. */
  function FRem(x: real, u: real): (r: real)
    requires u > 0.0
    ensures -u < r < u
    ensures x >= 0.0 ==> 0.0 <= r && x == DivAsU64(x, u) as real * u + r
    ensures x < 0.0 ==> r <= 0.0
  {
    RemainderFacts(x, u);
    x - Trunc(x / u) as real * u
  }

  /** A value below k divisors has fewer than k whole divisors. */
  lemma CountBelow(x: real, u: real, k: nat)
    requires u > 0.0 && k >= 1
    ensures x < k as real * u ==> DivAsU64(x, u) < k
  {
    var n := DivAsU64(x, u);
    if 0.0 <= x < k as real * u && n >= k {
      MulMono(k as real, n as real, u);
    }
  }

  lemma MulMono(a: real, b: real, u: real)
    requires a <= b && u > 0.0
    ensures a * u <= b * u
  {
  }

  lemma MulStrict(a: real, b: real, u: real)
    requires a < b && u > 0.0
    ensures a * u < b * u
  {
  }

  lemma DivNonneg(x: real, u: real)
    requires x >= 0.0 && u > 0.0
    ensures x / u >= 0.0
  {
  }

  lemma DivMul(x: real, u: real)
    requires u > 0.0
    ensures (x / u) * u == x
  {
  }

  /** The floor of a non-negative quotient brackets the dividend. */
  lemma FloorBrackets(x: real, u: real)
    requires x >= 0.0 && u > 0.0
    ensures (x / u).Floor >= 0
    ensures (x / u).Floor as real * u <= x < (x / u).Floor as real * u + u
  {
    var q := x / u;
    DivNonneg(x, u);
    var f := q.Floor;
    DivMul(x, u);
    MulMono(f as real, q, u);
    MulStrict(q, f as real + 1.0, u);
    assert (f as real + 1.0) * u == f as real * u + u;
    assert x < f as real * u + u;
  }

  lemma QuotientFacts(x: real, u: real)
    requires u > 0.0
    ensures x >= 0.0 ==> AsU64(x / u) as real * u <= x < AsU64(x / u) as real * u + u
    ensures x < 0.0 ==> AsU64(x / u) == 0
  {
    if x >= 0.0 {
      FloorBrackets(x, u);
      DivNonneg(x, u);
    } else {
      DivNonneg(-x, u);
      assert -x / u == -(x / u);
    }
  }

  lemma RemainderFacts(x: real, u: real)
    requires u > 0.0
    ensures -u < x - Trunc(x / u) as real * u < u
    ensures x >= 0.0 ==> 0.0 <= x - Trunc(x / u) as real * u && Trunc(x / u) == AsU64(x / u)
    ensures x < 0.0 ==> x - Trunc(x / u) as real * u <= 0.0
  {
    if x >= 0.0 {
      FloorBrackets(x, u);
      DivNonneg(x, u);
    } else {
      FloorBrackets(-x, u);
      assert -x / u == -(x / u);
    }
  }
}
