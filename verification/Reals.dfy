/** Products and quotients of reals, one step at a time. */
module Reals {
  lemma Commutes(x: real, y: real)
    ensures x * y == y * x
  {
  }

  lemma Negates(x: real, y: real)
    ensures x * -y == -(x * y)
  {
  }

  lemma NonNegative(x: real, y: real)
    requires x >= 0.0 && y >= 0.0
    ensures x * y >= 0.0
  {
  }

  lemma Positive(x: real, y: real)
    requires x > 0.0 && y > 0.0
    ensures x * y > 0.0
  {
  }

  lemma Distributes(a: real, b: real, m: real)
    ensures (b - a) * m == b * m - a * m
  {
  }

  lemma TimesGrows(a: real, b: real, m: real)
    requires a <= b && m >= 0.0
    ensures a * m <= b * m
  {
    NonNegative(b - a, m);
    Distributes(a, b, m);
  }

  lemma TimesGrowsStrictly(a: real, b: real, m: real)
    requires a < b && m > 0.0
    ensures a * m < b * m
  {
    Positive(b - a, m);
    Distributes(a, b, m);
  }

  /** Multiplying by a positive factor keeps the sign, by a negative one turns it. */
  lemma SignOfProduct(x: real, m: real)
    requires m != 0.0
    ensures m > 0.0 ==> (x * m > 0.0 <==> x > 0.0) && (x * m < 0.0 <==> x < 0.0)
    ensures m < 0.0 ==> (x * m > 0.0 <==> x < 0.0) && (x * m < 0.0 <==> x > 0.0)
  {
    var n := if m > 0.0 then m else -m;
    assert m < 0.0 ==> x * n == -(x * m);
    if x > 0.0 {
      Positive(x, n);
    } else if x < 0.0 {
      Positive(-x, n);
      assert -x * n == -(x * n);
    }
  }

  lemma Quotient(x: real, d: real)
    requires d != 0.0
    ensures x / d * d == x
  {
  }

  /** What gives x when multiplied by d is their quotient. */
  lemma QuotientIs(x: real, d: real, q: real)
    requires d != 0.0 && q * d == x
    ensures x / d == q
  {
    Quotient(x, d);
    var p := x / d;
    if p < q {
      ProductsDiffer(p, q, d);
    } else if p > q {
      ProductsDiffer(q, p, d);
    }
  }

  lemma ProductsDiffer(a: real, b: real, d: real)
    requires a < b && d != 0.0
    ensures a * d != b * d
  {
    if d > 0.0 {
      TimesGrowsStrictly(a, b, d);
    } else {
      TimesGrowsStrictly(a, b, -d);
      assert a * -d == -(a * d) && b * -d == -(b * d);
    }
  }

  lemma ZeroFactor(x: real, d: real)
    requires x * d == 0.0 && d != 0.0
    ensures x == 0.0
  {
    if x < 0.0 {
      ProductsDiffer(x, 0.0, d);
    } else if x > 0.0 {
      ProductsDiffer(0.0, x, d);
    }
  }

  lemma DivideGrows(x: real, y: real, d: real)
    requires x <= y && d > 0.0
    ensures x / d <= y / d
  {
    Quotient(x, d);
    Quotient(y, d);
    var p, q := x / d, y / d;
    if q < p {
      TimesGrowsStrictly(q, p, d);
    }
  }

  /** A quotient is at most n exactly when what is divided is at most n times the divisor. */
  lemma QuotientAtMost(x: real, d: real, n: real)
    requires d > 0.0
    ensures x / d <= n <==> x <= n * d
  {
    QuotientIs(n * d, d, n);
    if x <= n * d {
      DivideGrows(x, n * d, d);
    } else {
      DivideGrows(n * d, x, d);
      var q := x / d;
      Quotient(x, d);
      assert q != n;
    }
  }

  lemma NegatedQuotient(x: real, d: real)
    requires d != 0.0
    ensures x / d == (-x) / (-d)
  {
    Quotient(x, d);
    var q := x / d;
    assert q * -d == -(q * d);
    QuotientIs(-x, -d, q);
  }
}
