/** Small facts of ordered-field arithmetic that the solver does not find on
    its own once products of two unknowns appear. */
module RealArith {

  lemma MulMono(a: real, b: real, c: real)
    requires a <= b && c >= 0.0
    ensures a * c <= b * c
  {
  }

  lemma MulStrict(a: real, b: real, c: real)
    requires a < b && c > 0.0
    ensures a * c < b * c
  {
  }

  lemma NonposTimesNonneg(a: real, c: real)
    requires a <= 0.0 && c >= 0.0
    ensures a * c <= 0.0
  {
  }

  lemma NegTimesPos(a: real, c: real)
    requires a < 0.0 && c > 0.0
    ensures a * c < 0.0
  {
  }

  lemma NonnegProduct(a: real, b: real)
    requires a >= 0.0 && b >= 0.0
    ensures a * b >= 0.0
  {
  }

  lemma PosProduct(a: real, b: real)
    requires a > 0.0 && b > 0.0
    ensures a * b > 0.0
  {
  }

  lemma DivOfProduct(a: real, b: real, c: real)
    requires b != 0.0 && a * b == c
    ensures a == c / b
  {
  }

  /** 100 - 100 / (1 + rs) stays in [0, 100) for a non-negative ratio. */
  lemma RatioIndexBounds(rs: real)
    requires rs >= 0.0
    ensures 0.0 <= 100.0 - 100.0 / (1.0 + rs) < 100.0
    ensures 100.0 - 100.0 / (1.0 + rs) == 0.0 <==> rs == 0.0
  {
    assert 100.0 / (1.0 + rs) > 0.0;
    assert 100.0 / (1.0 + rs) <= 100.0;
    if rs > 0.0 {
      assert 100.0 / (1.0 + rs) < 100.0;
    }
  }

  /** 2 / (n + 1) shrinks as n grows. */
  lemma ReciprocalDecreases(a: int, b: int)
    requires 0 < a < b
    ensures 2.0 / (b + 1) as real < 2.0 / (a + 1) as real
  {
    var x := 2.0 / (a + 1) as real;
    var y := 2.0 / (b + 1) as real;
    var ra := (a + 1) as real;
    var rb := (b + 1) as real;
    assert x * ra == 2.0;
    assert y * rb == 2.0;
    MulStrict(ra, rb, x);
    if y >= x {
      MulMono(x, y, rb);
      assert false;
    }
  }

  /** With gains g, losses l > 0 and period p, the index formula
      100 - 100 / (1 + (g/p) / (l/p)) equals the gains' share 100 g / (g + l). */
  lemma GainShareIdentity(g: real, l: real, p: real)
    requires l > 0.0 && g >= 0.0 && p > 0.0
    ensures 100.0 - 100.0 / (1.0 + (g / p) / (l / p)) == 100.0 * g / (g + l)
  {
    var rs := (g / p) / (l / p);
    assert rs == g / l;
    assert rs * l == g;
    var d := 1.0 + rs;
    assert d * l == l + g;
    var q := 100.0 / d;
    assert q == 100.0 * l / (g + l);
    assert q * (g + l) == 100.0 * l;
    assert (100.0 - q) * (g + l) == 100.0 * g;
    DivOfProduct(100.0 - q, g + l, 100.0 * g);
  }
}
