/** Reals and the two Python conversions the allocators use. */
module RealMath {

  function Min(a: real, b: real): (r: real)
  {
    if a <= b then a else b
  }

  function Max(a: real, b: real): (r: real)
  {
    if a >= b then a else b
  }

  function Times(a: real, b: real): (r: real)
  {
    a * b
  }

  function Abs(a: real): (r: real)
  {
    if a >= 0.0 then a else -a
  }

  /** Python's `int()`: truncation toward zero. */
  function Trunc(x: real): (n: int)
    ensures x >= 0.0 ==> n as real <= x < n as real + 1.0 && n >= 0
    ensures x <= 0.0 ==> n as real - 1.0 < x <= n as real && n <= 0
  {
    if x >= 0.0 then x.Floor else -((-x).Floor)
  }

  lemma MulMono(a: real, b: real, c: real)
    requires a <= b && c >= 0.0
    ensures a * c <= b * c
  {
  }

  lemma MulStrict(a: real, b: real, c: real)
    requires a < b && c > 0.0
    ensures a * c < b * c
  {
  }

  lemma ScaleLe(a: real, b: real, c: real)
    requires c > 0.0
    ensures a <= b <==> a * c <= b * c
  {
    if a <= b { MulMono(a, b, c); } else { MulStrict(b, a, c); }
  }

  /** Comparing quotients by cross-multiplication. */
  lemma DivLe(a: real, b: real, c: real, d: real)
    requires b > 0.0 && d > 0.0
    ensures a / b <= c / d <==> a * d <= c * b
  {
    var x, y := a / b, c / d;
    assert a == x * b && c == y * d;
    assert a * d == x * (b * d) && c * b == y * (b * d);
    if x <= y {
      MulMono(x, y, b * d);
    } else {
      MulStrict(y, x, b * d);
    }
  }

  lemma DivMono(a: real, b: real, c: real)
    requires a <= b && c > 0.0
    ensures a / c <= b / c
  {
    MulMono(a, b, c);
    DivLe(a, c, b, c);
  }

  /** A smaller numerator over a larger denominator. */
  lemma FractionMono(n1: real, d1: real, n2: real, d2: real)
    requires 0.0 <= n2 <= n1 && 0.0 < d1 <= d2
    ensures n2 / d2 <= n1 / d1
  {
    MulMono(n2, n1, d1);
    MulMono(d1, d2, n1);
    DivLe(n2, d2, n1, d1);
  }

  lemma MaxMono(a: real, b: real)
    requires a <= b
    ensures 1.0 <= Max(1.0, a) <= Max(1.0, b)
  {
  }

  /** A weighted sum with weights of at most one in total. */
  lemma WeightedBound(b: real, c: real, d: real, x: real, y: real)
    requires x >= 0.0 && y >= 0.0 && x + y <= 1.0 && b >= 0.0 && c <= b && d <= b
    ensures c * x + d * y <= b
  {
    assert (b - c) * x >= 0.0;
    assert (b - d) * y >= 0.0;
    assert (1.0 - x - y) * b >= 0.0;
  }

  /** As MulMono, with the products passed so that callers name them. */
  lemma ProductLe(a: real, b: real, c: real, ac: real, bc: real)
    requires a <= b && c >= 0.0 && ac == a * c && bc == b * c
    ensures ac <= bc
  {
    MulMono(a, b, c);
  }

  /** Cancelling a positive factor; the products are passed so that callers name them. */
  lemma CancelLe(a: real, b: real, c: real, ac: real, bc: real)
    requires c > 0.0 && ac == a * c && bc == b * c && ac <= bc
    ensures a <= b
  {
    if a > b {
      MulStrict(b, a, c);
    }
  }
}
