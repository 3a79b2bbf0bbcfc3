/** Small facts of integer and real arithmetic the solver does not find on
    its own (products are non-linear). */
module Arith {

  lemma MulMono(d: int, a: int, b: int)
    requires d > 0 && a <= b
    ensures d * a <= d * b
  {
    assert d * b - d * a == d * (b - a);
  }

  /** The quotient is the `q` whose multiple brackets `n`. */
  lemma DivIs(n: int, d: int, q: int)
    requires d > 0 && d * q <= n < d * q + d
    ensures n / d == q
  {
    var r := n / d;
    assert d * r <= n < d * r + d;
    assert d * (r + 1) == d * r + d;
    assert d * (q + 1) == d * q + d;
    if r < q {
      MulMono(d, r + 1, q);
      assert false;
    }
    if r > q {
      MulMono(d, q + 1, r);
      assert false;
    }
  }

  lemma RealMulStrict(k: real, a: real, b: real)
    requires k > 0.0 && a < b
    ensures k * a < k * b
  {
    assert k * b - k * a == k * (b - a);
  }

  lemma RealMulMono(k: real, a: real, b: real)
    requires k > 0.0 && a <= b
    ensures k * a <= k * b
  {
    assert k * b - k * a == k * (b - a);
  }

  /** Converting a product to a real is the product of the conversions. */
  lemma CastMul(a: int, b: int)
    ensures (a * b) as real == (a as real) * (b as real)
  {
  }

  /** `lo·n <= s <= hi·n` puts `s / n` between `lo` and `hi`. */
  lemma MeanBetween(s: real, n: real, lo: real, hi: real)
    requires n > 0.0 && lo * n <= s <= hi * n
    ensures lo <= s / n <= hi
  {
    var m := s / n;
    assert m * n == s;
    if m < lo {
      RealMulStrict(n, m, lo);
      assert false;
    }
    if m > hi {
      RealMulStrict(n, hi, m);
      assert false;
    }
  }
}
