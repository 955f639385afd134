/** Exact integer arithmetic on token amounts at a decimal scale, with BigInt's truncating division. */
module FixedPoint {

  /** The two scales the configured tokens use: 6 decimals (USDC, USDT) and 18 (DAI, CRV, CVX). */
  const E6: int := 1000000
  const E18: int := 1000000000000000000

  /** `10n ** n`. */
  function Pow10(n: nat): (r: nat)
    ensures r >= 1
    ensures n > 0 ==> r >= 10
  {
    if n == 0 then 1 else 10 * Pow10(n - 1)
  }

  lemma {:induction false} Pow10Add(a: nat, b: nat)
    ensures Pow10(a + b) == Pow10(a) * Pow10(b)
    decreases a
  {
    if a > 0 {
      Pow10Add(a - 1, b);
      assert Pow10(a + b) == 10 * Pow10(a - 1 + b);
    }
  }

  /**
   * BigInt `a / d`: the quotient rounded toward zero. Dafny's `/` is Euclidean
   * and rounds negative dividends down instead, so the two differ on every
   * negative `a` that `d` does not divide.
   */
  function TruncDiv(a: int, d: int): (q: int)
    requires d > 0
    ensures a >= 0 ==> 0 <= q && q * d <= a < q * d + d
    ensures a < 0 ==> q <= 0 && a <= q * d < a + d
  {
    if a >= 0 then a / d
    else
      var p := (-a) / d;
      assert (-p) * d == -(p * d);
      -p
  }

  /** The quotient is determined by its defining inequalities. */
  lemma TruncDivUnique(a: int, d: int, q: int)
    requires d > 0
    requires a >= 0 ==> 0 <= q && q * d <= a < q * d + d
    requires a < 0 ==> q <= 0 && a <= q * d < a + d
    ensures q == TruncDiv(a, d)
  {
    var t := TruncDiv(a, d);
    if q < t {
      MulStep(q, t - 1, d);
    } else if t < q {
      MulStep(t, q - 1, d);
    }
  }

  /** `x <= y` scales to `x * d + d <= y * d + d` for positive `d`. */
  lemma MulStep(x: int, y: int, d: int)
    requires d > 0 && x <= y
    ensures x * d + d <= (y + 1) * d
  {
    assert (y + 1) * d == y * d + d;
    assert (y - x) * d >= 0;
  }

  /** Truncating division is symmetric about zero. */
  lemma TruncDivNegate(a: int, d: int)
    requires d > 0
    ensures TruncDiv(-a, d) == -TruncDiv(a, d)
  {
    var q := TruncDiv(a, d);
    assert (-q) * d == -(q * d);
    TruncDivUnique(-a, d, -q);
  }

  /** Truncating division preserves `<=`. */
  lemma TruncDivMonotone(a: int, b: int, d: int)
    requires d > 0 && a <= b
    ensures TruncDiv(a, d) <= TruncDiv(b, d)
  {
    var qa, qb := TruncDiv(a, d), TruncDiv(b, d);
    if qa > qb {
      MulStep(qb, qa - 1, d);
      assert qb * d + d <= qa * d;
    }
  }

  /** Dividing a multiple of `d` is exact. */
  lemma TruncDivExact(x: int, d: int)
    requires d > 0
    ensures TruncDiv(x * d, d) == x
  {
    if x >= 0 {
      assert x * d >= 0;
    } else {
      assert x * d < 0 && x * d + d <= 0;
    }
    TruncDivUnique(x * d, d, x);
  }

  /**
   * Converts an amount held at `from` decimals to `to` decimals:
   * `amount * 10n ** to / 10n ** from`, as the swap sizing writes it.
   */
  function Rescale(amount: int, from: nat, to: nat): int
  {
    TruncDiv(amount * Pow10(to), Pow10(from))
  }

  /** Going up in scale multiplies by the power of ten between the scales, losing nothing. */
  lemma RescaleUp(amount: int, from: nat, to: nat)
    requires from <= to
    ensures Rescale(amount, from, to) == amount * Pow10(to - from)
  {
    Pow10Add(from, to - from);
    assert amount * Pow10(to) == (amount * Pow10(to - from)) * Pow10(from);
    TruncDivExact(amount * Pow10(to - from), Pow10(from));
  }

  /** Rescaling up and back down again returns the original amount. */
  lemma RescaleRoundTrip(amount: int, from: nat, to: nat)
    requires from <= to
    ensures Rescale(Rescale(amount, from, to), to, from) == amount
  {
    RescaleUp(amount, from, to);
    var up := amount * Pow10(to - from);
    Pow10Add(from, to - from);
    assert up * Pow10(from) == amount * Pow10(to);
    TruncDivExact(amount, Pow10(to));
  }

  /** Rescaling preserves `<=`. */
  lemma RescaleMonotone(a: int, b: int, from: nat, to: nat)
    requires a <= b
    ensures Rescale(a, from, to) <= Rescale(b, from, to)
  {
    var p := Pow10(to);
    assert b * p - a * p == (b - a) * p;
    TruncDivMonotone(a * p, b * p, Pow10(from));
  }

  /** Rescaling never turns a non-negative amount negative. */
  lemma RescaleNonNegative(a: int, from: nat, to: nat)
    requires a >= 0
    ensures Rescale(a, from, to) >= 0
  {
    assert a * Pow10(to) >= 0;
  }
}
