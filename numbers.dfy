/** Integer helpers standing in for `Math.min` and `Math.round` of a
    quotient. */
module Numbers {

  function Min(a: int, b: int): (r: int)
    ensures r <= a && r <= b && (r == a || r == b)
  {
    if a <= b then a else b
  }

  /** `Math.round(p / q)`: the integer nearest to the exact quotient, halves
      rounded up (towards positive infinity). */
  function RoundDiv(p: int, q: int): (r: int)
    requires q != 0
    ensures q > 0 ==> q * (2 * r - 1) <= 2 * p < q * (2 * r + 1)
    ensures q < 0 ==> -q * (2 * r - 1) <= -2 * p < -q * (2 * r + 1)
  {
    var a, b := if q > 0 then p else -p, if q > 0 then q else -q;
    FloorDivBounds(2 * a + b, 2 * b);
    (2 * a + b) / (2 * b)
  }

  lemma FloorDivBounds(x: int, d: int)
    requires d > 0
    ensures d * (x / d) <= x < d * (x / d) + d
  {
  }

  /** Integer division by a positive divisor is determined by its bounds. */
  lemma DivUnique(x: int, d: int, k: int)
    requires d > 0 && d * k <= x < d * k + d
    ensures x / d == k
  {
    var m := x / d;
    FloorDivBounds(x, d);
    if m < k {
      MulMonotone(d, m + 1, k);
    } else if m > k {
      MulMonotone(d, k + 1, m);
    }
  }

  lemma MulMonotone(d: int, a: int, b: int)
    requires d > 0 && a <= b
    ensures d * a <= d * b
  {
    assert d * b - d * a == d * (b - a);
  }

  /** Rounding an exact quotient gives the quotient. */
  lemma RoundDivExact(k: int, q: int)
    requires q > 0
    ensures RoundDiv(k * q, q) == k
  {
    assert 2 * (k * q) + q == (2 * q) * k + q;
    DivUnique(2 * (k * q) + q, 2 * q, k);
  }

  /** A quotient of at least `k` rounds to at least `k`. */
  lemma RoundDivAtLeast(p: int, q: int, k: int)
    requires q > 0 && p >= k * q
    ensures RoundDiv(p, q) >= k
  {
    var x, d := 2 * p + q, 2 * q;
    FloorDivBounds(x, d);
    assert x >= d * k by {
      assert d * k == 2 * (k * q);
    }
    if x / d < k {
      MulMonotone(d, x / d + 1, k);
    }
  }

  /** A quotient of at most `k` rounds to at most `k`. */
  lemma RoundDivAtMost(p: int, q: int, k: int)
    requires q > 0 && p <= k * q
    ensures RoundDiv(p, q) <= k
  {
    var x, d := 2 * p + q, 2 * q;
    FloorDivBounds(x, d);
    assert x < d * (k + 1) by {
      assert d * (k + 1) == 2 * (k * q) + 2 * q;
    }
    if x / d > k {
      MulMonotone(d, k + 1, x / d);
    }
  }
}
