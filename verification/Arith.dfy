/** The few facts about products and quotients that the timing arguments need. */
module Arith {

  lemma MulMono(a: int, b: int, d: int)
    requires a <= b && d >= 0
    ensures a * d <= b * d
  {
  }

  lemma MulAdd(a: int, b: int, d: int)
    ensures (a + b) * d == a * d + b * d
  {
  }

  lemma DivBounds(x: int, d: int)
    requires d > 0
    ensures x / d * d <= x < x / d * d + d
  {
  }

  /** A quotient is pinned by the two multiples around its dividend. */
  lemma DivUnique(x: int, q: int, d: int)
    requires d > 0 && q * d <= x < q * d + d
    ensures x / d == q
  {
    DivBounds(x, d);
    var r := x / d;
    if r < q {
      MulMono(r + 1, q, d);
      MulAdd(r, 1, d);
    } else if r > q {
      MulMono(q + 1, r, d);
      MulAdd(q, 1, d);
    }
  }

  lemma RealMulMono(a: real, b: real, t: real)
    requires a <= b && t >= 0.0
    ensures t * a <= t * b
  {
    assert t * (b - a) >= 0.0;
  }

  lemma RealMulAdd(t: real, a: real, b: real)
    ensures t * (a + b) == t * a + t * b
  {
  }

  lemma RealMulIff(a: real, b: real, t: real)
    requires t > 0.0
    ensures a >= b <==> a * t >= b * t
  {
    assert a >= b ==> (a - b) * t >= 0.0;
    assert a < b ==> (b - a) * t > 0.0;
  }

  /** Comparing a quotient and comparing after multiplying out are the same. */
  lemma QuotientAtLeast(x: real, y: real, t: real)
    requires y > 0.0
    ensures x / y >= t <==> x >= t * y
  {
    RealMulIff(x / y, t, y);
    assert x / y * y == x;
  }

  lemma QuotientTimes(x: real, y: real)
    requires y > 0.0
    ensures x / y * y == x
  {
  }
}
