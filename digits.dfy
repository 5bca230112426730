/** Decimal digit arithmetic on mesh codes: the digit count and the digit
    extractor that reads groups of digits counted from the most significant one. */
module Digits {

  function Pow10(n: nat): (p: nat)
    ensures p >= 1
  {
    if n == 0 then 1 else 10 * Pow10(n - 1)
  }

  /** Number of decimal digits; zero counts as one digit. */
  function NumDigits(t: nat): (n: nat)
    ensures n >= 1
  {
    if t < 10 then 1 else 1 + NumDigits(t / 10)
  }

  /** The integer value of `(t % 10^(n-start)) / 10^(n-stop)` truncated to a
      byte, where n is the digit count of t; 0 when t has fewer than `stop` digits. */
  function Slice(t: nat, start: nat, stop: nat): (r: nat)
    requires start <= stop
    ensures r < 256
    ensures NumDigits(t) < stop ==> r == 0
  {
    var n := NumDigits(t);
    if n < stop then 0
    else (t % Pow10(n - start)) / Pow10(n - stop) % 256
  }

  /** The extractor applied to every code of a batch. */
  function SliceBatch(codes: seq<nat>, start: nat, stop: nat): (r: seq<nat>)
    requires start <= stop
    ensures |r| == |codes|
    ensures forall k {:trigger r[k]} :: 0 <= k < |codes| ==> r[k] == Slice(codes[k], start, stop)
  {
    seq(|codes|, k requires 0 <= k < |codes| => Slice(codes[k], start, stop))
  }

  // ---------------------------------------------------------------- arithmetic helpers

  lemma Pow10Add(a: nat, b: nat)
    ensures Pow10(a + b) == Pow10(a) * Pow10(b)
  {
    if a > 0 {
      Pow10Add(a - 1, b);
      assert Pow10(a + b) == 10 * Pow10(a - 1 + b);
    }
  }

  lemma MulAtLeast(d: int, m: int)
    requires d >= 1 && m > 0
    ensures d * m >= m
  {
  }

  /** Integer division and remainder are determined by q*m + x with 0 <= x < m. */
  lemma DivModUnique(a: int, m: int, q: int, x: int)
    requires m > 0 && 0 <= x < m && a == q * m + x
    ensures a / m == q && a % m == x
  {
    var q', x' := a / m, a % m;
    assert (q - q') * m == x' - x;
    if q > q' {
      MulAtLeast(q - q', m);
    } else if q' > q {
      MulAtLeast(q' - q, m);
    }
  }

  /** Appending decimal digits to a code: the prefix and each digit can be
      read back by division and remainder. */
  lemma AppendDigit(base: nat, d: nat)
    requires d <= 9
    ensures (base * 10 + d) / 10 == base && (base * 10 + d) % 10 == d
  {
    DivModUnique(base * 10 + d, 10, base, d);
  }

  lemma AppendTwoDigits(base: nat, d1: nat, d0: nat)
    requires d1 <= 9 && d0 <= 9
    ensures (base * 100 + d1 * 10 + d0) / 100 == base
    ensures (base * 100 + d1 * 10 + d0) / 10 % 10 == d1
    ensures (base * 100 + d1 * 10 + d0) % 10 == d0
  {
    var v := base * 100 + d1 * 10 + d0;
    DivModUnique(v, 100, base, d1 * 10 + d0);
    DivModUnique(v, 10, base * 10 + d1, d0);
    AppendDigit(base, d1);
  }

  lemma AppendThreeDigits(base: nat, d2: nat, d1: nat, d0: nat)
    requires d2 <= 9 && d1 <= 9 && d0 <= 9
    ensures (base * 1000 + d2 * 100 + d1 * 10 + d0) / 1000 == base
    ensures (base * 1000 + d2 * 100 + d1 * 10 + d0) / 100 % 10 == d2
    ensures (base * 1000 + d2 * 100 + d1 * 10 + d0) / 10 % 10 == d1
    ensures (base * 1000 + d2 * 100 + d1 * 10 + d0) % 10 == d0
  {
    var v := base * 1000 + d2 * 100 + d1 * 10 + d0;
    DivModUnique(v, 1000, base, d2 * 100 + d1 * 10 + d0);
    AppendTwoDigits(base * 10 + d2, d1, d0);
    assert v == (base * 10 + d2) * 100 + d1 * 10 + d0;
    DivModUnique(v, 100, base * 10 + d2, d1 * 10 + d0);
    AppendDigit(base, d2);
  }

  lemma {:induction false} NumDigitsIs(t: nat, n: nat)
    requires n >= 1 && Pow10(n - 1) <= t < Pow10(n)
    ensures NumDigits(t) == n
  {
    if n > 1 {
      assert t >= 10;
      DivModUnique(t, 10, t / 10, t % 10);
      NumDigitsIs(t / 10, n - 1);
    }
  }

  lemma {:induction false} NumDigitsBounds(t: nat)
    ensures t < Pow10(NumDigits(t))
    ensures t >= 1 ==> Pow10(NumDigits(t) - 1) <= t
  {
    if t >= 10 {
      NumDigitsBounds(t / 10);
    }
  }

  lemma QuotientBelow(x: int, p: int, k: int)
    requires p > 0 && 0 <= x < k * p
    ensures x / p < k
  {
  }

  /** A single extracted digit is a decimal digit. */
  lemma SliceDigitBound(t: nat, i: nat)
    ensures Slice(t, i, i + 1) <= 9
  {
    var n := NumDigits(t);
    if n >= i + 1 {
      var p, big := Pow10(n - (i + 1)), Pow10(n - i);
      assert big == 10 * p;
      assert Slice(t, i, i + 1) == (t % big) / p % 256;
      SliceDigitCore(t, big, p);
    }
  }

  lemma SliceDigitCore(t: nat, big: nat, p: nat)
    requires p >= 1 && big == 10 * p
    ensures (t % big) / p % 256 <= 9
  {
    QuotientBelow(t % big, p, 10);
  }


  /** A quotient is bounded by the multiples of the divisor that bound the dividend. */
  lemma QuotientBetween(t: int, p: int, lo: int, hi: int)
    requires p >= 1 && lo * p <= t < hi * p
    ensures lo <= t / p < hi
  {
    var q, x := t / p, t % p;
    assert t == q * p + x && 0 <= x < p;
    if q < lo {
      MulBetween(q, p, q, lo);
    } else if q >= hi {
      MulBetween(hi, p, hi, q + 1);
    }
  }

  /** The first two digits of a code with at least two digits form a
      number from 10 to 99. */
  lemma LeadingPairBound(t: nat)
    requires NumDigits(t) >= 2
    ensures 10 <= Slice(t, 0, 2) <= 99
  {
    var n := NumDigits(t);
    NumDigitsBounds(t);
    var p, big := Pow10(n - 2), Pow10(n);
    assert Pow10(1) == 10 && Pow10(2) == 100;
    Pow10Add(2, n - 2);
    Pow10Add(1, n - 2);
    assert n - 1 == 1 + (n - 2) && n == 2 + (n - 2);
    assert Slice(t, 0, 2) == (t % big) / p % 256;
    LeadingPairCore(t, big, p);
  }

  lemma LeadingPairCore(t: nat, big: nat, p: nat)
    requires p >= 1 && big == 100 * p && 10 * p <= t < big
    ensures 10 <= (t % big) / p % 256 <= 99
  {
    DivModUnique(t, big, 0, t);
    QuotientBetween(t, p, 10, 100);
  }


  /** The extractor's behaviour on the examples the implementation documents. */
  lemma SliceExamples()
    ensures Slice(12345, 0, 1) == 1 && Slice(12345, 1, 2) == 2 && Slice(12345, 4, 5) == 5
    ensures Slice(12345, 0, 2) == 12 && Slice(12345, 1, 4) == 234 && Slice(12345, 3, 5) == 45
    ensures Slice(12345, 6, 7) == 0
  {
    assert Pow10(0) == 1 && Pow10(1) == 10 && Pow10(2) == 100 && Pow10(3) == 1000;
    assert Pow10(4) == 10000 && Pow10(5) == 100000;
    NumDigitsIs(12345, 5);
    assert Slice(12345, 0, 1) == 12345 % 100000 / 10000 % 256;
    assert Slice(12345, 1, 2) == 12345 % 10000 / 1000 % 256;
    assert Slice(12345, 4, 5) == 12345 % 10 / 1 % 256;
    assert Slice(12345, 0, 2) == 12345 % 100000 / 1000 % 256;
    assert Slice(12345, 1, 4) == 12345 % 10000 / 10 % 256;
    assert Slice(12345, 3, 5) == 12345 % 100 / 1 % 256;
  }

  lemma SliceBatchExamples()
    ensures SliceBatch([123, 456, 7890], 0, 1) == [1, 4, 7]
    ensures SliceBatch([123, 456, 7890], 1, 3) == [23, 56, 89]
  {
    ThreeDigitExample(123);
    ThreeDigitExample(456);
    FourDigitExample(7890);
    SliceBatchOfThree(123, 456, 7890, 0, 1, 1, 4, 7);
    SliceBatchOfThree(123, 456, 7890, 1, 3, 23, 56, 89);
  }

  lemma SliceBatchOfThree(x: nat, y: nat, z: nat, start: nat, stop: nat, a: nat, b: nat, c: nat)
    requires start <= stop
    requires Slice(x, start, stop) == a && Slice(y, start, stop) == b && Slice(z, start, stop) == c
    ensures SliceBatch([x, y, z], start, stop) == [a, b, c]
  {
    var r := SliceBatch([x, y, z], start, stop);
    assert r == [r[0], r[1], r[2]];
  }


  lemma ThreeDigitExample(t: nat)
    requires 100 <= t < 1000
    ensures Slice(t, 0, 1) == t / 100 && Slice(t, 1, 3) == t % 100
  {
    assert Pow10(0) == 1 && Pow10(2) == 100 && Pow10(3) == 1000;
    NumDigitsIs(t, 3);
    assert Slice(t, 0, 1) == (t % 1000) / 100 % 256;
    assert Slice(t, 1, 3) == (t % 100) / 1 % 256;
    DivModUnique(t, 1000, 0, t);
  }

  lemma FourDigitExample(t: nat)
    requires 1000 <= t < 10000
    ensures Slice(t, 0, 1) == t / 1000 && Slice(t, 1, 3) == t % 1000 / 10
  {
    assert Pow10(1) == 10 && Pow10(3) == 1000 && Pow10(4) == 10000;
    NumDigitsIs(t, 4);
    assert Slice(t, 0, 1) == (t % 10000) / 1000 % 256;
    assert Slice(t, 1, 3) == (t % 1000) / 10 % 256;
    DivModUnique(t, 10000, 0, t);
  }


  lemma SliceSmallExamples()
    ensures Slice(0, 0, 1) == 0 && Slice(5, 0, 1) == 5 && Slice(5, 2, 2) == 0
  {
  }

  // ---------------------------------------------------------------- digit layout

  /** The value of a big-endian sequence of decimal digits. */
  function Digits(ds: seq<nat>): nat {
    if |ds| == 0 then 0 else Digits(ds[..|ds| - 1]) * 10 + ds[|ds| - 1]
  }

  predicate AllDecimal(ds: seq<nat>) {
    forall i :: 0 <= i < |ds| ==> ds[i] <= 9
  }

  lemma {:induction false} DigitsBound(ds: seq<nat>)
    requires AllDecimal(ds)
    ensures Digits(ds) < Pow10(|ds|)
  {
    if |ds| > 0 {
      DigitsBound(ds[..|ds| - 1]);
    }
  }

  lemma {:induction false} DigitsAppend(a: seq<nat>, b: seq<nat>)
    ensures Digits(a + b) == Digits(a) * Pow10(|b|) + Digits(b)
    decreases |b|
  {
    if |b| > 0 {
      var b' := b[..|b| - 1];
      assert (a + b)[..|a + b| - 1] == a + b';
      DigitsAppend(a, b');
      assert b[..|b| - 1] == b';
      assert Digits(a + b) == Digits(a + b') * 10 + b[|b| - 1];
      assert Digits(b) == Digits(b') * 10 + b[|b| - 1];
      assert Pow10(|b|) == 10 * Pow10(|b'|);
      ShiftDigit(Digits(a), Pow10(|b'|), Digits(b'), b[|b| - 1]);
    } else {
      assert a + b == a;
    }
  }

  lemma ShiftDigit(x: int, p: int, y: int, d: int)
    ensures (x * p + y) * 10 + d == x * (10 * p) + (y * 10 + d)
  {
  }

  /** A mesh code laid out as the two-digit row `ab`, the two-digit column `cd`
      and the further single digits `ds`. */
  function Code(ab: nat, cd: nat, ds: seq<nat>): nat {
    (ab * 100 + cd) * Pow10(|ds|) + Digits(ds)
  }

  lemma MulBetween(a: int, p: int, lo: int, hi: int)
    requires lo <= a < hi && p >= 1
    ensures lo * p <= a * p && (a + 1) * p <= hi * p
  {
  }

  /** A prefix times 10^m plus something below 10^m leaves the prefix as quotient. */
  lemma ShiftedBounds(prefix: nat, m: nat, low: nat, lo: nat, hi: nat)
    requires lo <= prefix < hi && low < Pow10(m)
    ensures lo * Pow10(m) <= prefix * Pow10(m) + low < hi * Pow10(m)
  {
    MulBetween(prefix, Pow10(m), lo, hi);
  }

  lemma CodeDigitCount(ab: nat, cd: nat, ds: seq<nat>)
    requires 10 <= ab <= 99 && cd <= 99 && AllDecimal(ds)
    ensures NumDigits(Code(ab, cd, ds)) == 4 + |ds|
  {
    var m := |ds|;
    DigitsBound(ds);
    Pow10Add(3, m);
    Pow10Add(4, m);
    assert Pow10(3) == 1000 && Pow10(4) == 10000;
    ShiftedBounds(ab * 100 + cd, m, Digits(ds), 1000, 10000);
    assert 4 + m - 1 == 3 + m;
    NumDigitsIs(Code(ab, cd, ds), 4 + m);
  }

  lemma Regroup(prefix: int, pi: int, pr: int, dlo: int, dhi: int)
    ensures prefix * (pi * pr) + (dlo * pr + dhi) == (prefix * pi + dlo) * pr + dhi
  {
  }

  lemma DigitsSingle(d: nat)
    ensures Digits([d]) == d
  {
    assert [d][..0] == [];
  }

  lemma DigitsDropFirst(hi: seq<nat>)
    requires |hi| > 0 && AllDecimal(hi)
    ensures Digits(hi) == hi[0] * Pow10(|hi| - 1) + Digits(hi[1..])
    ensures Digits(hi[1..]) < Pow10(|hi| - 1)
  {
    var rest := hi[1..];
    assert hi == [hi[0]] + rest;
    DigitsAppend([hi[0]], rest);
    DigitsSingle(hi[0]);
    assert AllDecimal(rest) by {
      forall k | 0 <= k < |rest| ensures rest[k] <= 9 {
        assert rest[k] == hi[1 + k];
      }
    }
    DigitsBound(rest);
  }

  lemma DigitAtCore(c: int, prefix: nat, pm: nat, pi: nat, pr: nat, pr1: nat, dlo: nat, dhi: nat, d: nat, drest: nat)
    requires pr1 >= 1 && pr == 10 * pr1 && d <= 9 && drest < pr1
    requires c == prefix * pm + (dlo * pr + dhi) && pm == pi * pr && dhi == d * pr1 + drest
    ensures (c % pr) / pr1 == d
  {
    Regroup(prefix, pi, pr, dlo, dhi);
    DivModUnique(c, pr, prefix * pi + dlo, dhi);
    DivModUnique(dhi, pr1, d, drest);
  }

  lemma AllDecimalSuffix(ds: seq<nat>, i: nat)
    requires AllDecimal(ds) && i <= |ds|
    ensures AllDecimal(ds[i..])
  {
    forall k | 0 <= k < |ds| - i ensures ds[i..][k] <= 9 {
      assert ds[i..][k] == ds[i + k];
    }
  }

  /** The digits of `ds` split around position `i`, with the powers of ten
      that separate the parts. */
  lemma DigitSplit(ds: seq<nat>, i: nat)
    requires AllDecimal(ds) && i < |ds|
    ensures Digits(ds) == Digits(ds[..i]) * Pow10(|ds| - i) + Digits(ds[i..])
    ensures Digits(ds[i..]) == ds[i] * Pow10(|ds| - i - 1) + Digits(ds[i + 1..])
    ensures Digits(ds[i + 1..]) < Pow10(|ds| - i - 1)
    ensures Pow10(|ds|) == Pow10(i) * Pow10(|ds| - i)
    ensures Pow10(|ds| - i) == 10 * Pow10(|ds| - i - 1)
  {
    var lo, hi := ds[..i], ds[i..];
    assert ds == lo + hi;
    DigitsAppend(lo, hi);
    AllDecimalSuffix(ds, i);
    DigitsDropFirst(hi);
    assert hi[0] == ds[i] && hi[1..] == ds[i + 1..];
    Pow10Add(i, |ds| - i);
  }

  lemma DigitAt(prefix: nat, ds: seq<nat>, i: nat)
    requires AllDecimal(ds) && i < |ds|
    ensures var c := prefix * Pow10(|ds|) + Digits(ds);
      (c % Pow10(|ds| - i)) / Pow10(|ds| - i - 1) == ds[i]
  {
    DigitSplit(ds, i);
    DigitAtCore(prefix * Pow10(|ds|) + Digits(ds), prefix, Pow10(|ds|), Pow10(i), Pow10(|ds| - i),
                Pow10(|ds| - i - 1), Digits(ds[..i]), Digits(ds[i..]), ds[i], Digits(ds[i + 1..]));
  }




  lemma LeadCore(ab: nat, cd: nat, p: nat, d: nat)
    requires ab <= 99 && cd <= 99 && p >= 1 && d < p
    ensures ((ab * 100 + cd) * p + d) % (10000 * p) / (100 * p) == ab
    ensures ((ab * 100 + cd) * p + d) % (100 * p) / p == cd
  {
    var c := (ab * 100 + cd) * p + d;
    assert c == ab * (100 * p) + (cd * p + d);
    MulBetween(cd, p, 0, 100);
    MulBetween(ab * 100 + cd, p, 0, 10000);
    DivModUnique(c, 10000 * p, 0, c);
    DivModUnique(c, 100 * p, ab, cd * p + d);
    DivModUnique(cd * p + d, p, cd, d);
  }

  lemma CodeRow(ab: nat, cd: nat, ds: seq<nat>)
    requires 10 <= ab <= 99 && cd <= 99 && AllDecimal(ds)
    ensures Slice(Code(ab, cd, ds), 0, 2) == ab
  {
    var c, m := Code(ab, cd, ds), |ds|;
    var p := Pow10(m);
    CodeDigitCount(ab, cd, ds);
    DigitsBound(ds);
    Pow10Add(4, m);
    Pow10Add(2, m);
    assert Pow10(4) == 10000 && Pow10(2) == 100;
    assert NumDigits(c) - 2 == 2 + m;
    LeadCore(ab, cd, p, Digits(ds));
    assert Slice(c, 0, 2) == (c % (10000 * p)) / (100 * p) % 256;
  }

  lemma CodeColumn(ab: nat, cd: nat, ds: seq<nat>)
    requires 10 <= ab <= 99 && cd <= 99 && AllDecimal(ds)
    ensures Slice(Code(ab, cd, ds), 2, 4) == cd
  {
    var c, m := Code(ab, cd, ds), |ds|;
    var p := Pow10(m);
    CodeDigitCount(ab, cd, ds);
    DigitsBound(ds);
    Pow10Add(2, m);
    assert Pow10(2) == 100;
    assert NumDigits(c) - 2 == 2 + m && NumDigits(c) - 4 == m;
    assert Slice(c, 2, 4) == (c % (100 * p)) / p % 256;
    LeadCore(ab, cd, p, Digits(ds));
  }

  lemma CodeDigit(ab: nat, cd: nat, ds: seq<nat>, i: nat)
    requires 10 <= ab <= 99 && cd <= 99 && AllDecimal(ds) && i < |ds|
    ensures Slice(Code(ab, cd, ds), 4 + i, 5 + i) == ds[i]
  {
    var m := |ds|;
    CodeDigitCount(ab, cd, ds);
    DigitAt(ab * 100 + cd, ds, i);
    SliceByCount(Code(ab, cd, ds), 4 + m, 4 + i, 5 + i, ds[i]);
  }

  /** The extractor on a code of known length, when the unmasked group is
      already known to be a byte. */
  lemma SliceByCount(t: nat, n: nat, start: nat, stop: nat, v: nat)
    requires NumDigits(t) == n && start <= stop <= n && v < 256
    requires (t % Pow10(n - start)) / Pow10(n - stop) == v
    ensures Slice(t, start, stop) == v
  {
  }

  /** Reading a laid-out code back with the extractor recovers every group. */
  lemma CodeLayout(ab: nat, cd: nat, ds: seq<nat>)
    requires 10 <= ab <= 99 && cd <= 99 && AllDecimal(ds)
    ensures NumDigits(Code(ab, cd, ds)) == 4 + |ds|
    ensures Slice(Code(ab, cd, ds), 0, 2) == ab
    ensures Slice(Code(ab, cd, ds), 2, 4) == cd
    ensures forall i :: 0 <= i < |ds| ==> Slice(Code(ab, cd, ds), 4 + i, 5 + i) == ds[i]
  {
    CodeDigitCount(ab, cd, ds);
    CodeRow(ab, cd, ds);
    CodeColumn(ab, cd, ds);
    forall i | 0 <= i < |ds| ensures Slice(Code(ab, cd, ds), 4 + i, 5 + i) == ds[i] {
      CodeDigit(ab, cd, ds, i);
    }
  }
}
