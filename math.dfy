/**
 * The two helpers of the harness's `math` module that the liquidity preview
 * calls. That module is not part of this model: both definitions below are
 * ASSUMED (an integer square root of the product, and a floor-divided
 * proportion), chosen because they agree with the liquidity the add-liquidity
 * tests expect.
 */
module HarnessMath {
  import opened Types

  lemma MulMonotone(a: nat, b: nat, c: nat)
    requires a <= b
    ensures a * c <= b * c
  {
  }

  lemma SquareMonotone(a: nat, b: nat)
    requires a <= b
    ensures a * a <= b * b
  {
    MulMonotone(a, b, a);
    MulMonotone(a, b, b);
  }

  /** One step of the square root: from the root of n / 4 to a bracket for the root of n. */
  lemma IsqrtStep(n: nat, h: nat)
    requires h * h <= n / 4 < (h + 1) * (h + 1)
    ensures (2 * h) * (2 * h) <= n < (2 * h + 2) * (2 * h + 2)
  {
    var m := n / 4;
    assert n == 4 * m + n % 4;
    assert (2 * h) * (2 * h) == 4 * (h * h);
    assert (2 * h + 2) * (2 * h + 2) == 4 * ((h + 1) * (h + 1));
  }

  /** The integer square root: the largest r with r * r <= n. */
  function Isqrt(n: nat): (r: nat)
    ensures r * r <= n < (r + 1) * (r + 1)
    decreases n
  {
    if n < 4 then (if n == 0 then 0 else 1)
    else
      var h := Isqrt(n / 4);
      IsqrtStep(n, h);
      if (2 * h + 1) * (2 * h + 1) <= n then 2 * h + 1 else 2 * h
  }

  /** The bracket in Isqrt's contract has only one solution. */
  lemma IsqrtUnique(n: nat, r: nat)
    requires r * r <= n < (r + 1) * (r + 1)
    ensures Isqrt(n) == r
  {
    var s := Isqrt(n);
    if s < r {
      SquareMonotone(s + 1, r);
    } else if r < s {
      SquareMonotone(r + 1, s);
    }
  }

  lemma IsqrtMonotone(m: nat, n: nat)
    requires m <= n
    ensures Isqrt(m) <= Isqrt(n)
  {
    var a, b := Isqrt(m), Isqrt(n);
    if b < a {
      SquareMonotone(b + 1, a);
    }
  }

  /** A root of a product never exceeds the larger factor, so it fits where the factors do. */
  lemma ProductBound(a: nat, b: nat, m: nat)
    requires a <= m && b <= m
    ensures a * b <= m * m
  {
    MulMonotone(a, m, b);
    MulMonotone(b, m, m);
  }

  /** A number whose square is at most m * m is at most m. */
  lemma RootBound(p: nat, r: nat, m: nat)
    requires r * r <= p <= m * m
    ensures r <= m
  {
    if m < r {
      assert m * m < (m + 1) * (m + 1);
      SquareMonotone(m + 1, r);
    }
  }

  /** A root of a product never exceeds the larger factor, so it fits where the factors do. */
  lemma IsqrtOfProductBound(a: nat, b: nat)
    ensures Isqrt(a * b) <= if a < b then b else a
  {
    var m := if a < b then b else a;
    ProductBound(a, b, m);
    RootBound(a * b, Isqrt(a * b), m);
  }

  /** ASSUMED `initial_liquidity(a, b)`: the integer square root of a * b. */
  function InitialLiquidity(a: u64, b: u64): (r: u64)
    ensures r * r <= a * b < (r + 1) * (r + 1)
  {
    IsqrtOfProductBound(a, b);
    Isqrt(a * b)
  }

  /** Floor division is the unique quotient that brackets the dividend. */
  lemma FloorDivUnique(n: nat, d: nat, q: nat)
    requires d > 0 && q * d <= n < (q + 1) * d
    ensures n / d == q
  {
    var p := n / d;
    assert n == p * d + n % d;
    if p < q {
      MulMonotone(p + 1, q, d);
    } else if q < p {
      MulMonotone(q + 1, p, d);
    }
  }

  lemma DivMonotone(x: nat, y: nat, d: nat)
    requires x <= y && d > 0
    ensures x / d <= y / d
  {
    var p, q := x / d, y / d;
    assert x == p * d + x % d && y == q * d + y % d;
    if q < p {
      MulMonotone(q + 1, p, d);
    }
  }

  /**
   * ASSUMED `proportional_value(n1, n2, d)`: floor(n1 * n2 / d). It panics,
   * modelled as `None`, when d is zero or the quotient does not fit a `u64`.
   */
  function ProportionalValue(numerator1: u64, numerator2: u64, denominator: u64): (r: Option<u64>)
    ensures r.Some? <==> denominator > 0 && numerator1 * numerator2 / denominator <= U64_MAX
    ensures r.Some? ==>
      r.value * denominator <= numerator1 * numerator2 < (r.value + 1) * denominator
  {
    if denominator == 0 then None
    else
      var q := numerator1 * numerator2 / denominator;
      assert numerator1 * numerator2 == q * denominator + numerator1 * numerator2 % denominator;
      if q <= U64_MAX then Some(q) else None
  }

  /** A larger first numerator never gives a smaller proportion. */
  lemma ProportionalValueMonotone(x: u64, y: u64, t: u64, d: u64)
    requires x <= y && ProportionalValue(y, t, d).Some?
    ensures ProportionalValue(x, t, d).Some?
    ensures ProportionalValue(x, t, d).value <= ProportionalValue(y, t, d).value
  {
    MulMonotone(x, y, t);
    DivMonotone(x * t, y * t, d);
  }

  lemma MulStrict(a: nat, b: nat, k: nat)
    requires a < b && k > 0
    ensures k * a < k * b
  {
  }

  /** Cancelling a common factor of dividend and divisor. */
  lemma DivCancel(n: nat, d: nat, k: nat)
    requires d > 0 && k > 0
    ensures (k * n) / (k * d) == n / d
  {
    var q: nat := n / d;
    assert n == q * d + n % d;
    var lo: nat := q * d;
    var hi: nat := (q + 1) * d;
    MulMonotone(lo, n, k);
    MulStrict(n, hi, k);
    assert q * (k * d) == lo * k;
    assert (q + 1) * (k * d) == k * hi;
    FloorDivUnique(k * n, k * d, q);
  }

  /** Scaling the first numerator and the denominator alike leaves the proportion as it was. */
  lemma ProportionalValueScale(x: u64, t: u64, d: u64, k: nat)
    requires k > 0 && d > 0 && k * x <= U64_MAX && k * d <= U64_MAX
    ensures ProportionalValue(k * x, t, k * d) == ProportionalValue(x, t, d)
  {
    var kx: u64 := k * x;
    var kd: u64 := k * d;
    QuotientScale(x, t, d, k);
    assert kx * t / kd == x * t / d;
  }

  /** The quotient behind `ProportionalValueScale`, on plain naturals. */
  lemma QuotientScale(x: nat, t: nat, d: nat, k: nat)
    requires k > 0 && d > 0
    ensures (k * x) * t / (k * d) == x * t / d
  {
    var n: nat := x * t;
    MulAssoc(k, x, t);
    DivCancel(n, d, k);
  }

  lemma MulAssoc(a: nat, b: nat, c: nat)
    ensures (a * b) * c == a * (b * c)
  {
  }
}
