/** When the performance estimate is monotone in bandwidth and in cache. */
module EstimatorMonotone {
  import opened Basics
  import opened RealMath
  import opened Estimator

  /** In the second branch the usage is above the margin, so it counts as the whole
    allocation and the minimum is 1. */
  lemma FactorSpec(curBw: real, tarBw: real, allocBw: real)
    requires allocBw > 0.0 && curBw >= 1.0 && tarBw >= 1.0
    ensures Factor(curBw, tarBw, allocBw) == if curBw <= allocBw * MARGIN || curBw > tarBw then curBw else tarBw
    ensures Factor(curBw, tarBw, allocBw) >= 1.0
  {
  }

  // ----- more bandwidth never slows an application down ---------------------------

  lemma ScaledMono(v: real, x1: real, x2: real)
    requires v >= 0.0 && 0.0 <= x1 <= x2
    ensures 0.0 <= v * x1 <= v * x2
  {
  }

  lemma QuotientMonotone(v: real, w: real, a1: real, d1: real, a2: real, d2: real)
    requires v >= 0.0 && w > 0.0 && a2 <= a1 && d1 <= d2
    ensures Quotient(v, w, a2, d2) <= Quotient(v, w, a1, d1)
  {
    MaxMono(a2, a1);
    MaxMono(d1, d2);
    ScaledMono(v, Max(1.0, a2), Max(1.0, a1));
    ScaledMono(w, Max(1.0, d1), Max(1.0, d2));
    FractionMono(1.0 + v * Max(1.0, a1), 1.0 + w * Max(1.0, d1), 1.0 + v * Max(1.0, a2), 1.0 + w * Max(1.0, d2));
  }

  /** k2 / b2 <= k1 / b1 for the two cases that occur. */
  lemma BaseOrder(k1: real, k2: real, b1: real, b2: real)
    requires 0.0 < b1 <= b2 && 0.0 < k1 <= k2 && (k1 == k2 || (k2 == b2 && b1 <= k1))
    ensures k2 / b2 <= k1 / b1
  {
    if k1 == k2 {
      FractionMono(k1, b1, k1, b2);
    } else {
      assert k2 / b2 == 1.0;
      DivMono(b1, k1, b1);
    }
  }

  lemma ScaleQuotient(k: real, y: real, b: real)
    requires b > 0.0
    ensures (k * y) / b == (k / b) * y
  {
  }

  /** A larger target raises the estimated demand, but not beyond the target's own growth. */
  lemma LoadOrder(k1: real, k2: real, b1: real, b2: real, y: real)
    requires 0.0 < b1 <= b2 && y >= 0.0 && 0.0 < k1 <= k2 && (k1 == k2 || (k2 == b2 && b1 <= k1))
    ensures k1 * y <= k2 * y && (k2 * y) / b2 <= (k1 * y) / b1
  {
    MulMono(k1, k2, y);
    BaseOrder(k1, k2, b1, b2);
    MulMono(k2 / b2, k1 / b1, y);
    ScaleQuotient(k1, y, b1);
    ScaleQuotient(k2, y, b2);
  }

  lemma FactorOrder(u: real, c1: real, c2: real, allocBw: real)
    requires allocBw > 0.0 && u >= 1.0 && 1.0 <= c1 <= c2
    ensures var k1, k2 := Factor(u, c1, allocBw), Factor(u, c2, allocBw);
            0.0 < k1 <= k2 && (k1 == k2 || (k2 == c2 && c1 <= k1))
  {
    FactorSpec(u, c1, allocBw);
    FactorSpec(u, c2, allocBw);
  }

  lemma EstimatesToQuotients(v: real, w: real, est1: real, est2: real, c1: real, c2: real, allocBw: real)
    requires v >= 0.0 && w > 0.0 && c1 > 0.0 && c2 > 0.0 && allocBw > 0.0
    requires est1 <= est2 && est2 / c2 <= est1 / c1
    ensures Quotient(v, w, est2 / c2, est2 / allocBw) <= Quotient(v, w, est1 / c1, est1 / allocBw)
  {
    DivMono(est1, est2, allocBw);
    QuotientMonotone(v, w, est1 / c1, est1 / allocBw, est2 / c2, est2 / allocBw);
  }

  lemma RatioNonNegative(t: real, m: real)
    requires t >= 0.0 && m > 0.0
    ensures t / m >= 0.0 && m * (t / m) == t
  {
  }

  lemma ScaledOrder(v: real, w: real, k1: real, k2: real, c1: real, c2: real, y: real, allocBw: real)
    requires v >= 0.0 && w > 0.0 && allocBw > 0.0 && y >= 0.0
    requires 0.0 < c1 <= c2 && 0.0 < k1 <= k2 && (k1 == k2 || (k2 == c2 && c1 <= k1))
    ensures Scaled(v, w, k2, y, c2, allocBw) <= Scaled(v, w, k1, y, c1, allocBw)
  {
    LoadOrder(k1, k2, c1, c2, y);
    var e1, e2 := k1 * y, k2 * y;
    hide Scaled, Quotient;
    EstimatesToQuotients(v, w, e1, e2, c1, c2, allocBw);
    ScaledIsQuotient(v, w, k1, y, c1, allocBw, e1);
    ScaledIsQuotient(v, w, k2, y, c2, allocBw, e2);
  }

  lemma RelativeOrder(m: real, t: real, k1: real, k2: real, c1: real, c2: real, allocBw: real)
    requires m > 0.0 && t >= 0.0 && allocBw > 0.0
    requires 0.0 < c1 <= c2 && 0.0 < k1 <= k2 && (k1 == k2 || (k2 == c2 && c1 <= k1))
    ensures Relative(m, t, k2, c2, allocBw) <= Relative(m, t, k1, c1, allocBw)
  {
    var v, w, y := t * LOC_TO_RET, m * LOC_TO_RET, t / m;
    RatioNonNegative(t, m);
    ScaledOrder(v, w, k1, k2, c1, c2, y, allocBw);
    assert Relative(m, t, k1, c1, allocBw) == Scaled(v, w, k1, y, c1, allocBw);
    assert Relative(m, t, k2, c2, allocBw) == Scaled(v, w, k2, y, c2, allocBw);
  }

  /** For a fixed target miss rate the slowdown never grows with the target bandwidth, also
    where the target passes the current usage and the other formula applies. */
  lemma SlowDownMonotoneInBandwidth(m: real, t: real, cur: real, b1: real, b2: real, allocBw: real)
    requires m > 0.0 && t >= 0.0 && allocBw > 0.0 && b1 <= b2
    ensures SlowDown(m, t, cur, b2, allocBw) <= SlowDown(m, t, cur, b1, allocBw)
  {
    var c1, c2, u := Max(1.0, b1), Max(1.0, b2), Max(1.0, cur);
    FactorOrder(u, c1, c2, allocBw);
    RelativeOrder(m, t, Factor(u, c1, allocBw), Factor(u, c2, allocBw), c1, c2, allocBw);
  }

  // ----- the slowdown as a curve of the miss-rate ratio ---------------------------

  function Top(w: real, q: real, y: real): real
  {
    1.0 + (w * y) * Max(1.0, q * y)
  }

  function Bottom(w: real, p: real, y: real): (r: real)
    requires w > 0.0
    ensures r >= 1.0
  {
    MulMono(0.0, w, Max(1.0, p * y));
    1.0 + w * Max(1.0, p * y)
  }

  lemma ScaledIsCurve(v: real, w: real, k: real, y: real, b: real, a: real)
    requires w > 0.0 && a > 0.0 && b > 0.0 && v == w * y
    ensures Scaled(v, w, k, y, b, a) == Top(w, k / b, y) / Bottom(w, k / a, y)
  {
    ScaledUnfolds(v, w, k, y, b, a);
    CurveForms(v, w, y, k / b, k / a, (k / b) * y, (k / a) * y);
  }

  lemma ScaledUnfolds(v: real, w: real, k: real, y: real, b: real, a: real)
    requires w > 0.0 && a > 0.0 && b > 0.0
    ensures Scaled(v, w, k, y, b, a) == Quotient(v, w, (k / b) * y, (k / a) * y)
  {
    ScaleQuotient(k, y, b);
    ScaleQuotient(k, y, a);
  }

  lemma CurveForms(v: real, w: real, y: real, q: real, p: real, x: real, z: real)
    requires w > 0.0 && v == w * y && x == q * y && z == p * y
    ensures Quotient(v, w, x, z) == Top(w, q, y) / Bottom(w, p, y)
  {
  }

  /** With w = 100 * current miss rate and y = target / current miss rate. */
  lemma RelativeIsCurve(m: real, t: real, k: real, b: real, a: real)
    requires m > 0.0 && t >= 0.0 && a > 0.0 && b > 0.0
    ensures var w, y := m * LOC_TO_RET, t / m; Relative(m, t, k, b, a) == Top(w, k / b, y) / Bottom(w, k / a, y)
  {
    var v, w, y := t * LOC_TO_RET, m * LOC_TO_RET, t / m;
    RatioNonNegative(t, m);
    assert v == w * y;
    ScaledIsCurve(v, w, k, y, b, a);
    assert Relative(m, t, k, b, a) == Scaled(v, w, k, y, b, a);
  }

  /** n1/d1 <= n2/d2, for positive d1 and d2. */
  predicate CrossLe(n1: real, d1: real, n2: real, d2: real)
  {
    n1 * d2 <= n2 * d1
  }

  /** y1 gives at most the slowdown of y2. */
  ghost predicate CurveLe(w: real, q: real, p: real, y1: real, y2: real)
    requires w > 0.0
  {
    CrossLe(Top(w, q, y1), Bottom(w, p, y1), Top(w, q, y2), Bottom(w, p, y2))
  }

  lemma CrossTransitive(n1: real, d1: real, n2: real, d2: real, n3: real, d3: real)
    requires d1 > 0.0 && d2 > 0.0 && d3 > 0.0 && CrossLe(n1, d1, n2, d2) && CrossLe(n2, d2, n3, d3)
    ensures CrossLe(n1, d1, n3, d3)
  {
    DivLe(n1, d1, n2, d2);
    DivLe(n2, d2, n3, d3);
    DivLe(n1, d1, n3, d3);
  }

  lemma CurveLeTransitive(w: real, q: real, p: real, y1: real, y2: real, y3: real)
    requires w > 0.0 && CurveLe(w, q, p, y1, y2) && CurveLe(w, q, p, y2, y3)
    ensures CurveLe(w, q, p, y1, y3)
  {
    CrossTransitive(Top(w, q, y1), Bottom(w, p, y1), Top(w, q, y2), Bottom(w, p, y2), Top(w, q, y3), Bottom(w, p, y3));
  }

  lemma CrossSign(n1: real, d1: real, n2: real, d2: real, w: real, d: real, g: real)
    requires w > 0.0 && d >= 0.0 && n2 * d1 - n1 * d2 == w * (d * g)
    ensures g >= 0.0 ==> CrossLe(n1, d1, n2, d2)
    ensures g < 0.0 && d > 0.0 ==> !CrossLe(n1, d1, n2, d2)
  {
    if g >= 0.0 {
      MulMono(0.0, g, d);
      MulMono(0.0, d * g, w);
    } else if d > 0.0 {
      MulStrict(g, 0.0, d);
      MulStrict(d * g, 0.0, w);
    }
  }

  lemma TopMonotone(w: real, q: real, y1: real, y2: real)
    requires w > 0.0 && q > 0.0 && 0.0 <= y1 <= y2
    ensures Top(w, q, y1) <= Top(w, q, y2)
  {
    MulMono(y1, y2, q);
    MaxMono(q * y1, q * y2);
    ScaledMono(w, y1, y2);
    ScaledMono(w * y1, Max(1.0, q * y1), Max(1.0, q * y2));
    MulMono(w * y1, w * y2, Max(1.0, q * y2));
  }

  /** Below the point where the current allocation saturates, only the numerator moves. */
  lemma CurveFlat(w: real, q: real, p: real, y1: real, y2: real)
    requires w > 0.0 && q > 0.0 && p > 0.0 && 0.0 <= y1 <= y2 && p * y2 <= 1.0
    ensures CurveLe(w, q, p, y1, y2)
  {
    MulMono(y1, y2, p);
    TopMonotone(w, q, y1, y2);
    MulMono(Top(w, q, y1), Top(w, q, y2), Bottom(w, p, y1));
  }

  /** (1 + w*y1)(1 + w*p*y2) versus (1 + w*y2)(1 + w*p*y1). */
  lemma LinearCross(w: real, p: real, y1: real, y2: real)
    ensures (1.0 + w * y2) * (1.0 + w * (p * y1)) - (1.0 + w * y1) * (1.0 + w * (p * y2)) == w * ((y2 - y1) * (1.0 - p))
  {
    var a, b := w * y1, w * y2;
    assert w * (p * y1) == p * a && w * (p * y2) == p * b;
    assert (1.0 + b) * (1.0 + p * a) - (1.0 + a) * (1.0 + p * b) == (b - a) * (1.0 - p);
    assert b - a == w * (y2 - y1);
  }

  /** (1 + w*q*y1^2)(1 + w*p*y2) versus (1 + w*q*y2^2)(1 + w*p*y1). */
  lemma QuadraticCross(w: real, q: real, p: real, y1: real, y2: real)
    ensures (1.0 + (w * y2) * (q * y2)) * (1.0 + w * (p * y1)) - (1.0 + (w * y1) * (q * y1)) * (1.0 + w * (p * y2))
            == w * ((y2 - y1) * (q * (y1 + y2) + w * (p * q * (y1 * y2)) - p))
  {
    QuadraticExpand(w, q, p, y1, y2);
    QuadraticExpand(w, q, p, y2, y1);
    QuadraticGather(w, q, p, y1, y2);
  }

  lemma QuadraticExpand(w: real, q: real, p: real, x: real, z: real)
    ensures (1.0 + (w * z) * (q * z)) * (1.0 + w * (p * x)) == 1.0 + w * (p * x) + w * (q * (z * z)) + (w * w) * (p * q * ((z * z) * x))
  {
    var c, d := w * (q * (z * z)), w * (p * x);
    assert (w * z) * (q * z) == c;
    assert (1.0 + c) * (1.0 + d) == 1.0 + d + c + c * d;
    assert c * d == (w * w) * ((q * (z * z)) * (p * x));
    assert (q * (z * z)) * (p * x) == p * q * ((z * z) * x);
  }

  lemma QuadraticGather(w: real, q: real, p: real, x: real, z: real)
    ensures (w * (p * x) + w * (q * (z * z)) + (w * w) * (p * q * ((z * z) * x)))
            - (w * (p * z) + w * (q * (x * x)) + (w * w) * (p * q * ((x * x) * z)))
            == w * ((z - x) * (q * (x + z) + w * (p * q * (x * z)) - p))
  {
    assert q * (z * z) - q * (x * x) == (z - x) * (q * (x + z));
    assert p * q * ((z * z) * x) - p * q * ((x * x) * z) == (z - x) * (p * q * (x * z)) by {
      assert (z * z) * x - (x * x) * z == (z - x) * (x * z);
      assert p * q * ((z * z) * x) - p * q * ((x * x) * z) == (p * q) * ((z - x) * (x * z));
    }
    var g := p * q * (x * z);
    assert (w * w) * (p * q * ((z * z) * x)) - (w * w) * (p * q * ((x * x) * z)) == (w * w) * ((z - x) * g);
    assert (w * w) * ((z - x) * g) == w * ((z - x) * (w * g));
    assert w * (p * x) - w * (p * z) == w * ((z - x) * (-p));
  }

  lemma QuadraticOrder(w: real, q: real, p: real, y1: real, y2: real)
    requires w > 0.0 && y1 <= y2
    ensures var ordered := CrossLe(1.0 + (w * y1) * (q * y1), 1.0 + w * (p * y1), 1.0 + (w * y2) * (q * y2), 1.0 + w * (p * y2));
            var bracket := q * (y1 + y2) + w * (p * q * (y1 * y2)) - p;
            (bracket >= 0.0 ==> ordered) && (bracket < 0.0 && y1 < y2 ==> !ordered)
  {
    QuadraticCross(w, q, p, y1, y2);
    CrossSign(1.0 + (w * y1) * (q * y1), 1.0 + w * (p * y1), 1.0 + (w * y2) * (q * y2), 1.0 + w * (p * y2), w, y2 - y1,
              q * (y1 + y2) + w * (p * q * (y1 * y2)) - p);
  }

  lemma LinearOrder(w: real, p: real, y1: real, y2: real)
    requires w > 0.0 && y1 <= y2
    ensures var ordered := CrossLe(1.0 + w * y1, 1.0 + w * (p * y1), 1.0 + w * y2, 1.0 + w * (p * y2));
            (p <= 1.0 ==> ordered) && (p > 1.0 && y1 < y2 ==> !ordered)
  {
    LinearCross(w, p, y1, y2);
    CrossSign(1.0 + w * y1, 1.0 + w * (p * y1), 1.0 + w * y2, 1.0 + w * (p * y2), w, y2 - y1, 1.0 - p);
  }

  // ----- when a smaller miss rate never slows an application down -----------------

  /** The exact condition on the two loads per unit of miss-rate ratio. */
  predicate Orderly(w: real, q: real, p: real)
  {
    p <= 1.0 || (p <= q && p * p <= q * (2.0 + w))
  }

  lemma BracketLow(w: real, q: real, p: real, y1: real, y2: real)
    requires w > 0.0 && q > 0.0 && 0.0 < p <= 1.0 && 0.0 <= y1 <= y2 && q * y1 >= 1.0
    ensures q * (y1 + y2) + w * (p * q * (y1 * y2)) - p >= 0.0
  {
    MulMono(y1, y2, q);
    var s, x := q * (y1 + y2), p * q * (y1 * y2);
    assert s == q * y1 + q * y2;
    assert x == (p * y1) * (q * y2);
    MulMono(0.0, p, y1);
    MulMono(0.0, p * y1, q * y2);
    MulMono(0.0, x, w);
  }

  /** a = p*y1, b = p*y2. */
  lemma HighTerm(w: real, q: real, a: real, b: real)
    requires w > 0.0 && q > 0.0 && 1.0 <= a <= b
    ensures q * (a + b) + w * (q * (a * b)) >= q * (2.0 + w)
  {
    MulMono(1.0, a, b);
    MulMono(2.0, a + b, q);
    MulMono(1.0, a * b, q);
    MulMono(q, q * (a * b), w);
  }

  lemma CancelFactor(e: real, p: real, c: real)
    requires p > 0.0 && e * p >= c && c >= p * p
    ensures e >= p
  {
    if e < p {
      MulStrict(e, p, p);
    }
  }

  /** Both loads saturate: the bracket of QuadraticCross is non-negative. */
  lemma BracketNonNegative(w: real, q: real, p: real, y1: real, y2: real)
    requires w > 0.0 && q > 0.0 && p > 0.0 && 0.0 <= y1 <= y2 && p * y1 >= 1.0 && q * y1 >= 1.0 && Orderly(w, q, p)
    ensures q * (y1 + y2) + w * (p * q * (y1 * y2)) - p >= 0.0
  {
    if p <= 1.0 {
      BracketLow(w, q, p, y1, y2);
    } else {
      BracketHigh(w, q, p, y1, y2);
    }
  }

  lemma BracketHigh(w: real, q: real, p: real, y1: real, y2: real)
    requires w > 0.0 && q > 0.0 && p > 0.0 && 0.0 <= y1 <= y2 && p * y1 >= 1.0 && p * p <= q * (2.0 + w)
    ensures q * (y1 + y2) + w * (p * q * (y1 * y2)) - p >= 0.0
  {
    var e, a, b, c := q * (y1 + y2) + w * (p * q * (y1 * y2)), p * y1, p * y2, q * (2.0 + w);
    MulMono(y1, y2, p);
    assert e * p == q * (a + b) + w * (q * (a * b)) by {
      BracketTimesP(w, q, p, y1, y2);
    }
    assert q * (a + b) + w * (q * (a * b)) >= c by {
      HighTerm(w, q, a, b);
    }
    CancelFactor(e, p, c);
  }

  lemma BracketTimesP(w: real, q: real, p: real, y1: real, y2: real)
    ensures (q * (y1 + y2) + w * (p * q * (y1 * y2))) * p == q * (p * y1 + p * y2) + w * (q * ((p * y1) * (p * y2)))
  {
    assert (q * (y1 + y2)) * p == q * (p * y1 + p * y2);
    assert (p * q * (y1 * y2)) * p == q * ((p * y1) * (p * y2));
    assert (w * (p * q * (y1 * y2))) * p == w * ((p * q * (y1 * y2)) * p);
  }

  lemma LinearForms(w: real, q: real, p: real, y1: real, y2: real)
    requires w > 0.0 && q > 0.0 && p > 0.0 && 0.0 <= y1 <= y2 && p * y1 >= 1.0 && q * y2 <= 1.0
    ensures Top(w, q, y1) == 1.0 + w * y1 && Top(w, q, y2) == 1.0 + w * y2
    ensures Bottom(w, p, y1) == 1.0 + w * (p * y1) && Bottom(w, p, y2) == 1.0 + w * (p * y2)
  {
    MulMono(y1, y2, p);
    MulMono(y1, y2, q);
  }

  lemma SaturatedForms(w: real, q: real, p: real, y1: real, y2: real)
    requires w > 0.0 && q > 0.0 && p > 0.0 && 0.0 <= y1 <= y2 && p * y1 >= 1.0 && q * y1 >= 1.0
    ensures Top(w, q, y1) == 1.0 + (w * y1) * (q * y1) && Top(w, q, y2) == 1.0 + (w * y2) * (q * y2)
    ensures Bottom(w, p, y1) == 1.0 + w * (p * y1) && Bottom(w, p, y2) == 1.0 + w * (p * y2)
  {
    MulMono(y1, y2, p);
    MulMono(y1, y2, q);
  }

  /** Both above saturation of the current allocation and of the target. */
  lemma CurveQuadratic(w: real, q: real, p: real, y1: real, y2: real)
    requires w > 0.0 && q > 0.0 && p > 0.0 && 0.0 <= y1 <= y2 && p * y1 >= 1.0 && q * y1 >= 1.0 && Orderly(w, q, p)
    ensures CurveLe(w, q, p, y1, y2)
  {
    SaturatedForms(w, q, p, y1, y2);
    BracketNonNegative(w, q, p, y1, y2);
    QuadraticOrder(w, q, p, y1, y2);
  }

  /** Above saturation of the current allocation, below that of the target. */
  lemma CurveLinear(w: real, q: real, p: real, y1: real, y2: real)
    requires w > 0.0 && q > 0.0 && 0.0 < p <= 1.0 && 0.0 <= y1 <= y2 && p * y1 >= 1.0 && q * y2 <= 1.0
    ensures CurveLe(w, q, p, y1, y2)
  {
    LinearForms(w, q, p, y1, y2);
    LinearOrder(w, p, y1, y2);
  }

  lemma Inverse(p: real)
    requires p > 0.0
    ensures 1.0 / p > 0.0 && p * (1.0 / p) == 1.0
  {
  }

  lemma BelowInverse(p: real, y: real)
    requires p > 0.0
    ensures p * y <= 1.0 <==> y <= 1.0 / p
    ensures p * y >= 1.0 <==> y >= 1.0 / p
  {
    Inverse(p);
    if y <= 1.0 / p { MulMono(y, 1.0 / p, p); } else { MulStrict(1.0 / p, y, p); }
    if y >= 1.0 / p { MulMono(1.0 / p, y, p); } else { MulStrict(y, 1.0 / p, p); }
  }

  /** Below saturation of the target the orderly case is the one with little load. */
  lemma AboveWhenOrderly(w: real, q: real, p: real, y: real)
    requires y >= 0.0 && Orderly(w, q, p) && p * y >= 1.0 && q * y < 1.0
    ensures p <= 1.0
  {
    if p <= q {
      ProductLe(p, q, y, p * y, q * y);
    }
  }

  lemma CurveSaturated(w: real, q: real, p: real, y1: real, y2: real)
    requires w > 0.0 && q > 0.0 && p > 0.0 && 0.0 <= y1 <= y2 && p * y1 >= 1.0 && Orderly(w, q, p)
    ensures CurveLe(w, q, p, y1, y2)
  {
    BelowInverse(q, y1);
    BelowInverse(q, y2);
    Inverse(q);
    if q * y1 >= 1.0 {
      CurveQuadratic(w, q, p, y1, y2);
    } else {
      AboveWhenOrderly(w, q, p, y1);
      if q * y2 <= 1.0 {
        CurveLinear(w, q, p, y1, y2);
      } else {
        var z := 1.0 / q;
        MulMono(y1, z, p);
        CurveLinear(w, q, p, y1, z);
        CurveQuadratic(w, q, p, z, y2);
        CurveLeTransitive(w, q, p, y1, z, y2);
      }
    }
  }

  lemma CurveMonotone(w: real, q: real, p: real, y1: real, y2: real)
    requires w > 0.0 && q > 0.0 && p > 0.0 && 0.0 <= y1 <= y2 && Orderly(w, q, p)
    ensures CurveLe(w, q, p, y1, y2)
  {
    BelowInverse(p, y1);
    BelowInverse(p, y2);
    Inverse(p);
    if p * y2 <= 1.0 {
      CurveFlat(w, q, p, y1, y2);
    } else if p * y1 >= 1.0 {
      CurveSaturated(w, q, p, y1, y2);
    } else {
      var z := 1.0 / p;
      CurveFlat(w, q, p, y1, z);
      CurveSaturated(w, q, p, z, y2);
      CurveLeTransitive(w, q, p, y1, z, y2);
    }
  }

  // ----- the condition is exact ---------------------------------------------------

  /** The current allocation is overloaded and smaller than the target. */
  lemma DipLinear(w: real, q: real, p: real) returns (y1: real, y2: real)
    requires w > 0.0 && q > 0.0 && p > 1.0 && q < p
    ensures 0.0 < y1 < y2 <= 1.0 && p * y1 == 1.0 && !CurveLe(w, q, p, y1, y2)
  {
    Inverse(p);
    Inverse(q);
    y1, y2 := 1.0 / p, Min(1.0 / q, 1.0);
    BelowInverse(p, 1.0);
    BelowInverse(q, y2);
    BelowInverse(q, y1);
    MulStrict(q, p, y1);
    LinearForms(w, q, p, y1, y2);
    LinearOrder(w, p, y1, y2);
  }

  /** A load slightly above one for which the bracket is still negative. */
  lemma SlightOverload(w: real, q: real, p: real) returns (b: real)
    requires w > 0.0 && q > 0.0 && p > 1.0 && p * p > q * (2.0 + w)
    ensures 1.0 < b <= p && q * (1.0 + b) + w * (q * (1.0 * b)) < p * p
  {
    var gap, c := p * p - q * (2.0 + w), q * (1.0 + w);
    MulMono(0.0, q, 1.0 + w);
    assert c > 0.0 by { MulStrict(0.0, q, 1.0 + w); }
    var d := gap / (2.0 * c);
    assert d > 0.0 && d * c < gap;
    var e := Min(d, p - 1.0);
    b := 1.0 + e;
    MulMono(e, d, c);
    assert q * (1.0 + b) + w * (q * (1.0 * b)) == q * (2.0 + w) + e * c;
  }

  lemma CancelNegative(e: real, p: real)
    requires p > 0.0 && e * p < p * p
    ensures e < p
  {
    if e >= p {
      MulMono(p, e, p);
    }
  }

  /** The target is heavily loaded although it is within the current allocation. */
  lemma DipQuadratic(w: real, q: real, p: real) returns (y1: real, y2: real)
    requires w > 0.0 && 1.0 < p <= q && p * p > q * (2.0 + w)
    ensures 0.0 < y1 < y2 <= 1.0 && p * y1 == 1.0 && !CurveLe(w, q, p, y1, y2)
  {
    hide CurveLe;
    var b := SlightOverload(w, q, p);
    y1, y2 := Loads(p, b);
    NegativeBracket(w, q, p, y1, y2, b);
    DipFromBracket(w, q, p, y1, y2);
  }

  lemma Loads(p: real, b: real) returns (y1: real, y2: real)
    requires 1.0 < b <= p
    ensures 0.0 < y1 < y2 <= 1.0 && p * y1 == 1.0 && p * y2 == b
  {
    Inverse(p);
    y1, y2 := 1.0 / p, b / p;
    DivMono(b, p, p);
    MulStrict(1.0, b, p);
    DivLe(b, p, 1.0, p);
  }

  lemma NegativeBracket(w: real, q: real, p: real, y1: real, y2: real, b: real)
    requires p > 0.0 && p * y1 == 1.0 && p * y2 == b && q * (1.0 + b) + w * (q * (1.0 * b)) < p * p
    ensures q * (y1 + y2) + w * (p * q * (y1 * y2)) < p
  {
    var e := q * (y1 + y2) + w * (p * q * (y1 * y2));
    assert e * p == q * (1.0 + b) + w * (q * (1.0 * b)) by {
      BracketTimesP(w, q, p, y1, y2);
    }
    CancelNegative(e, p);
  }

  lemma DipFromBracket(w: real, q: real, p: real, y1: real, y2: real)
    requires w > 0.0 && 1.0 < p <= q && 0.0 < y1 < y2 && p * y1 == 1.0
    requires q * (y1 + y2) + w * (p * q * (y1 * y2)) < p
    ensures !CurveLe(w, q, p, y1, y2)
  {
    MulMono(p, q, y1);
    SaturatedForms(w, q, p, y1, y2);
    QuadraticOrder(w, q, p, y1, y2);
  }

  lemma CurveDips(w: real, q: real, p: real) returns (y1: real, y2: real)
    requires w > 0.0 && q > 0.0 && p > 0.0 && !Orderly(w, q, p)
    ensures 0.0 < y1 < y2 <= 1.0 && p * y1 == 1.0 && !CurveLe(w, q, p, y1, y2)
  {
    hide CurveLe;
    if q < p {
      y1, y2 := DipLinear(w, q, p);
    } else {
      y1, y2 := DipQuadratic(w, q, p);
    }
  }

  // ----- back to the slowdown -----------------------------------------------------

  lemma RelativeLeIsCurve(m: real, t1: real, t2: real, k: real, b: real, a: real)
    requires m > 0.0 && t1 >= 0.0 && t2 >= 0.0 && a > 0.0 && b > 0.0
    ensures Relative(m, t1, k, b, a) <= Relative(m, t2, k, b, a) <==> CurveLe(m * LOC_TO_RET, k / b, k / a, t1 / m, t2 / m)
  {
    RelativeIsCurve(m, t1, k, b, a);
    RelativeIsCurve(m, t2, k, b, a);
    var w, q, p, y1, y2 := m * LOC_TO_RET, k / b, k / a, t1 / m, t2 / m;
    FractionsToCross(Relative(m, t1, k, b, a), Relative(m, t2, k, b, a), Top(w, q, y1), Bottom(w, p, y1), Top(w, q, y2), Bottom(w, p, y2));
  }

  lemma FractionsToCross(r1: real, r2: real, n1: real, d1: real, n2: real, d2: real)
    requires d1 > 0.0 && d2 > 0.0 && r1 == n1 / d1 && r2 == n2 / d2
    ensures r1 <= r2 <==> CrossLe(n1, d1, n2, d2)
  {
    DivLe(n1, d1, n2, d2);
  }

  /** What a caller can check: the usage is below the saturation margin, or the target is
    within the current allocation and usage times target is not excessive. */
  predicate CacheSafe(curMr: real, curBwMbps: real, tarBwMbps: real, allocBw: real)
  {
    Unsaturated(Max(1.0, curBwMbps), Max(1.0, tarBwMbps), allocBw, 2.0 + curMr * LOC_TO_RET)
  }

  predicate Unsaturated(u: real, b: real, a: real, c: real)
  {
    u <= a * MARGIN || (b <= a && u * b <= (a * a) * c)
  }

  predicate LoadOk(k: real, b: real, a: real, c: real)
  {
    k <= a || (b <= a && k * b <= (a * a) * c)
  }

  lemma LoadConditions(k: real, a: real, b: real, c: real)
    requires k > 0.0 && a > 0.0 && b > 0.0
    ensures k / a <= 1.0 <==> k <= a
    ensures k / a <= k / b <==> b <= a
    ensures (k / a) * (k / a) <= (k / b) * c <==> k * b <= (a * a) * c
  {
    DivLe(k, a, 1.0, 1.0);
    DivLe(k, a, k, b);
    if b <= a { MulMono(b, a, k); } else { MulStrict(a, b, k); }
    SquareCondition(k, a, b, c);
  }

  lemma SquareCondition(k: real, a: real, b: real, c: real)
    requires k > 0.0 && a > 0.0 && b > 0.0
    ensures (k / a) * (k / a) <= (k / b) * c <==> k * b <= (a * a) * c
  {
    var x, y := k / a, k / b;
    assert x * a == k && y * b == k;
    var f := (a * a) * b;
    MulStrict(0.0, a, a);
    MulStrict(0.0, a * a, b);
    assert (x * x) * f == (k * b) * k by { assert (x * x) * f == ((x * a) * (x * a)) * b; }
    assert (y * c) * f == ((a * a) * c) * k by { assert (y * c) * f == (y * b) * ((a * a) * c); }
    CompareScaled(x * x, y * c, f, k * b, (a * a) * c, k);
  }

  /** Scaling both sides by positive factors does not change the comparison. */
  lemma CompareScaled(x: real, y: real, f: real, x': real, y': real, k: real)
    requires f > 0.0 && k > 0.0 && x * f == x' * k && y * f == y' * k
    ensures x <= y <==> x' <= y'
  {
    ScaleLe(x, y, f);
    ScaleLe(x', y', k);
  }

  lemma OrderlyIsCacheSafe(m: real, cur: real, tar: real, allocBw: real)
    requires m > 0.0 && allocBw > 0.0
    ensures var u, b := Max(1.0, cur), Max(1.0, tar); var k := Factor(u, b, allocBw);
            k > 0.0 && (Orderly(m * LOC_TO_RET, k / b, k / allocBw) <==> CacheSafe(m, cur, tar, allocBw))
  {
    var u, b := Max(1.0, cur), Max(1.0, tar);
    FactorSpec(u, b, allocBw);
    var k, c := Factor(u, b, allocBw), 2.0 + m * LOC_TO_RET;
    OrderlyIff(m * LOC_TO_RET, k, b, allocBw);
    ConditionsAgree(u, b, allocBw, c, k);
  }

  lemma OrderlyIff(w: real, k: real, b: real, a: real)
    requires k > 0.0 && a > 0.0 && b > 0.0
    ensures Orderly(w, k / b, k / a) <==> LoadOk(k, b, a, 2.0 + w)
  {
    LoadConditions(k, a, b, 2.0 + w);
  }

  lemma ConditionsAgree(u: real, b: real, a: real, c: real, k: real)
    requires u >= 1.0 && b >= 1.0 && a > 0.0 && c >= 1.0 && k == if u <= a * MARGIN || u > b then u else b
    ensures LoadOk(k, b, a, c) <==> Unsaturated(u, b, a, c)
  {
    WithinSquare(u, b, a, c);
    WithinSquare(k, b, a, c);
  }

  lemma WithinSquare(u: real, b: real, a: real, c: real)
    requires 0.0 < b && 0.0 < u && a > 0.0 && c >= 1.0
    ensures u <= a && b <= a ==> u * b <= (a * a) * c
  {
    if u <= a && b <= a {
      var aa := a * a;
      assert u * b <= a * b by { MulMono(u, a, b); }
      assert b * a <= aa by { MulMono(b, a, a); }
      assert aa >= 0.0 by { MulMono(0.0, a, a); }
      assert 1.0 * aa <= c * aa by { MulMono(1.0, c, aa); }
      assert aa * c == c * aa;
    }
  }

  lemma SlowDownMonotoneInMissRate(m: real, t1: real, t2: real, cur: real, tar: real, allocBw: real)
    requires m > 0.0 && allocBw > 0.0 && 0.0 <= t1 <= t2 && CacheSafe(m, cur, tar, allocBw)
    ensures SlowDown(m, t1, cur, tar, allocBw) <= SlowDown(m, t2, cur, tar, allocBw)
  {
    OrderlyIsCacheSafe(m, cur, tar, allocBw);
    var u, b := Max(1.0, cur), Max(1.0, tar);
    var k := Factor(u, b, allocBw);
    RelativeMonotone(m, t1, t2, k, b, allocBw);
  }

  lemma RelativeMonotone(m: real, t1: real, t2: real, k: real, b: real, a: real)
    requires m > 0.0 && a > 0.0 && b > 0.0 && k > 0.0 && 0.0 <= t1 <= t2 && Orderly(m * LOC_TO_RET, k / b, k / a)
    ensures Relative(m, t1, k, b, a) <= Relative(m, t2, k, b, a)
  {
    RatioNonNegative(t1, m);
    DivMono(t1, t2, m);
    RatioPositive(k, b);
    RatioPositive(k, a);
    CurveMonotone(m * LOC_TO_RET, k / b, k / a, t1 / m, t2 / m);
    RelativeLeIsCurve(m, t1, t2, k, b, a);
  }

  lemma RatioPositive(k: real, a: real)
    requires k > 0.0 && a > 0.0
    ensures k / a > 0.0
  {
  }

  /** Where the condition fails there is a dip, at a rate where the current allocation is just
    saturated and the slowdown is not negligible. */
  lemma SlowDownDips(m: real, cur: real, tar: real, allocBw: real) returns (t1: real, t2: real)
    requires m > 0.0 && allocBw > 0.0 && !CacheSafe(m, cur, tar, allocBw)
    ensures 0.0 < t1 < t2 <= m && t1 * Factor(Max(1.0, cur), Max(1.0, tar), allocBw) == m * allocBw
    ensures SlowDown(m, t1, cur, tar, allocBw) > SlowDown(m, t2, cur, tar, allocBw)
    ensures SlowDown(m, t1, cur, tar, allocBw) >= 1.0 / (1.0 + m * LOC_TO_RET)
  {
    hide Relative, Orderly, CacheSafe, Factor;
    OrderlyIsCacheSafe(m, cur, tar, allocBw);
    var u, b := Max(1.0, cur), Max(1.0, tar);
    t1, t2 := RelativeDips(m, Factor(u, b, allocBw), b, allocBw);
  }

  lemma RelativeDips(m: real, k: real, b: real, a: real) returns (t1: real, t2: real)
    requires m > 0.0 && a > 0.0 && b > 0.0 && k > 0.0 && !Orderly(m * LOC_TO_RET, k / b, k / a)
    ensures 0.0 < t1 < t2 <= m && t1 * k == m * a && Relative(m, t1, k, b, a) > Relative(m, t2, k, b, a)
    ensures Relative(m, t1, k, b, a) >= 1.0 / (1.0 + m * LOC_TO_RET)
  {
    hide Relative, CurveLe, Orderly, Top, Bottom;
    RatioPositive(k, b);
    RatioPositive(k, a);
    var y1, y2 := CurveDips(m * LOC_TO_RET, k / b, k / a);
    t1, t2 := ScaleBack(m, y1, y2);
    RelativeLeIsCurve(m, t1, t2, k, b, a);
    RelativeIsCurve(m, t1, k, b, a);
    JustSaturated(m * LOC_TO_RET, k / b, k / a, y1);
    BackToRates(m, t1, y1, k, a);
  }

  lemma BackToRates(m: real, t: real, y: real, k: real, a: real)
    requires m > 0.0 && a > 0.0 && t / m == y && (k / a) * y == 1.0
    ensures t * k == m * a
  {
    var p := k / a;
    assert t == y * m && k == p * a;
    assert (y * m) * (p * a) == (p * y) * (m * a);
  }

  lemma JustSaturated(w: real, q: real, p: real, y: real)
    requires w > 0.0 && q > 0.0 && y > 0.0 && p * y == 1.0
    ensures Top(w, q, y) / Bottom(w, p, y) >= 1.0 / (1.0 + w)
  {
    MulMono(0.0, w, y);
    ScaledMono(w * y, 1.0, Max(1.0, q * y));
    assert Bottom(w, p, y) == 1.0 + w;
    DivMono(1.0, Top(w, q, y), 1.0 + w);
  }

  lemma ScaleBack(m: real, y1: real, y2: real) returns (t1: real, t2: real)
    requires m > 0.0 && 0.0 < y1 < y2 <= 1.0
    ensures 0.0 < t1 < t2 <= m && t1 / m == y1 && t2 / m == y2
  {
    t1, t2 := m * y1, m * y2;
    MulStrict(0.0, y1, m);
    MulStrict(y1, y2, m);
    MulMono(y2, 1.0, m);
  }

  /** Lower miss rates never slow the application down, in the model. */
  ghost predicate MonotoneInMissRate(m: real, cur: real, tar: real, allocBw: real)
    requires m > 0.0 && allocBw > 0.0
  {
    forall t1, t2 :: 0.0 <= t1 <= t2 <= 1.0 ==> SlowDown(m, t1, cur, tar, allocBw) <= SlowDown(m, t2, cur, tar, allocBw)
  }

  /** The slowdown is monotone in the target miss rate exactly when the condition holds. */
  lemma MonotoneExactlyWhenCacheSafe(m: real, cur: real, tar: real, allocBw: real)
    requires 0.0 < m <= 1.0 && allocBw > 0.0
    ensures MonotoneInMissRate(m, cur, tar, allocBw) <==> CacheSafe(m, cur, tar, allocBw)
  {
    if CacheSafe(m, cur, tar, allocBw) {
      forall t1, t2 | 0.0 <= t1 <= t2 <= 1.0 ensures SlowDown(m, t1, cur, tar, allocBw) <= SlowDown(m, t2, cur, tar, allocBw) {
        SlowDownMonotoneInMissRate(m, t1, t2, cur, tar, allocBw);
      }
    } else {
      var t1, t2 := SlowDownDips(m, cur, tar, allocBw);
    }
  }

  /** Usage and target within the current allocation is enough. */
  lemma WithinAllocationIsCacheSafe(m: real, cur: real, tar: real, allocBw: real)
    requires m > 0.0 && allocBw >= 1.0 && cur <= allocBw && tar <= allocBw
    ensures CacheSafe(m, cur, tar, allocBw)
  {
    WithinSquare(Max(1.0, cur), Max(1.0, tar), allocBw, 2.0 + m * LOC_TO_RET);
  }

  // ----- the miss-rate curve ------------------------------------------------------

  /** Strictly increasing sizes, rates that never rise with size. */
  predicate IsCurve(mrc: seq<Point>)
  {
    && |mrc| >= 2
    && (forall i, j :: 0 <= i < j < |mrc| ==> mrc[i].size < mrc[j].size)
    && (forall i, j :: 0 <= i < j < |mrc| ==> mrc[i].rate >= mrc[j].rate)
  }

  lemma LineFalls(a: Point, b: Point, c1: real, c2: real)
    requires a.rate >= b.rate && c1 <= c2
    ensures Line(a, b, c2) <= Line(a, b, c1)
  {
    var d, s := Max(b.size - a.size, 0.000001), a.rate - b.rate;
    MulMono(c1 - a.size, c2 - a.size, s);
    assert (b.rate - a.rate) * (c1 - a.size) == -(s * (c1 - a.size));
    assert (b.rate - a.rate) * (c2 - a.size) == -(s * (c2 - a.size));
    DivMono(-(s * (c2 - a.size)), -(s * (c1 - a.size)), d);
  }

  /** On its own segment the line stays between the two rates; before the right end it is
    above the right rate, after the left end below the left rate. */
  lemma LineBounds(a: Point, b: Point, c: real)
    requires a.rate >= b.rate && a.size < b.size
    ensures c >= a.size ==> Line(a, b, c) <= a.rate
    ensures c <= b.size ==> Line(a, b, c) >= b.rate
  {
    assert Line(a, b, a.size) == a.rate;
    if c >= a.size {
      LineFalls(a, b, a.size, c);
    }
    if c <= b.size {
      LineFalls(a, b, c, b.size);
      LineAtRight(a, b);
    }
  }

  /** The divisor is at least the width of the segment, so the right rate is not undershot. */
  lemma LineAtRight(a: Point, b: Point)
    requires a.rate >= b.rate && a.size < b.size
    ensures Line(a, b, b.size) >= b.rate
  {
    var w, d, s := b.size - a.size, Max(b.size - a.size, 0.000001), a.rate - b.rate;
    MulMono(w, d, s);
    DivMono(s * w, s * d, d);
    assert (s * d) / d == s;
    assert (b.rate - a.rate) * w == -(s * w);
    assert (-(s * w)) / d == -((s * w) / d);
  }

  lemma SegmentSpec(mrc: seq<Point>, c: real)
    requires IsCurve(mrc)
    ensures var k := Segment(mrc, c);
            && (k < |mrc| - 1 ==> c <= mrc[k].size)
            && (k > 1 ==> c >= mrc[k - 1].size)
  {
  }

  lemma SegmentMonotone(mrc: seq<Point>, c1: real, c2: real)
    requires IsCurve(mrc) && c1 <= c2
    ensures Segment(mrc, c1) <= Segment(mrc, c2)
  {
    SegmentSpec(mrc, c1);
    SegmentSpec(mrc, c2);
  }

  /** A larger cache never has a larger estimated miss rate, inside the measured range and
    in the linear extrapolation on both sides. */
  lemma MissRateFalls(mrc: seq<Point>, c1: real, c2: real)
    requires IsCurve(mrc) && c1 <= c2
    ensures MissRate(mrc, c2) <= MissRate(mrc, c1)
  {
    var i, j := Segment(mrc, c1), Segment(mrc, c2);
    SegmentMonotone(mrc, c1, c2);
    SegmentSpec(mrc, c1);
    SegmentSpec(mrc, c2);
    if i == j {
      LineFalls(mrc[i - 1], mrc[i], c1, c2);
    } else {
      LineBounds(mrc[i - 1], mrc[i], c1);
      LineBounds(mrc[j - 1], mrc[j], c2);
    }
  }

  /** Inside the measured range the estimate stays within the measured rates. */
  lemma MissRateInRange(mrc: seq<Point>, c: real)
    requires IsCurve(mrc) && mrc[0].size <= c <= mrc[|mrc| - 1].size
    ensures mrc[|mrc| - 1].rate <= MissRate(mrc, c) <= mrc[0].rate
  {
    var k := Segment(mrc, c);
    SegmentSpec(mrc, c);
    LineBounds(mrc[k - 1], mrc[k], c);
  }

  // ----- the estimate -------------------------------------------------------------

  lemma PerformanceFalls(s1: real, s2: real)
    requires s1 <= s2
    ensures Performance(s2) <= Performance(s1)
  {
    FractionMono(1.0, Max(0.0001, s1), 1.0, Max(0.0001, s2));
  }

  /** The estimate never falls as the target bandwidth grows; whether it is available at all
    does not depend on the bandwidth. */
  lemma EstimationMonotoneInBandwidth(app: AppState, cache: real, b1: real, b2: real)
    requires b1 <= b2
    ensures GetEstimation(app, cache, b1).Some? <==> GetEstimation(app, cache, b2).Some?
    ensures GetEstimation(app, cache, b1).Some? ==> GetEstimation(app, cache, b1).value <= GetEstimation(app, cache, b2).value
  {
    if app.alloc.Some? && app.usageBw.Some? && |app.mrc| >= 2 && app.alloc.value.memBw != 0 {
      var m, t := AtLeastTiny(MissRate(app.mrc, app.alloc.value.cache as real)), AtLeastTiny(MissRate(app.mrc, cache));
      var u, a := app.usageBw.value, app.alloc.value.memBw as real;
      SlowDownMonotoneInBandwidth(m, t, u, b1 * 1024.0, b2 * 1024.0, a);
      PerformanceFalls(SlowDown(m, t, u, b2 * 1024.0, a), SlowDown(m, t, u, b1 * 1024.0, a));
    }
  }

  predicate Available(app: AppState)
  {
    app.alloc.Some? && app.usageBw.Some? && |app.mrc| >= 2 && app.alloc.value.memBw != 0
  }

  /** The condition of the slowdown theorem at an application's current operating point. */
  predicate AppCacheSafe(app: AppState, bwGbps: real)
    requires Available(app)
  {
    CacheSafe(AtLeastTiny(MissRate(app.mrc, app.alloc.value.cache as real)), app.usageBw.value, bwGbps * 1024.0, app.alloc.value.memBw as real)
  }

  /** The estimate never falls as the cache grows, through interpolation, extrapolation, both
    bandwidth branches and all clamps, unless the extrapolated rate turns negative. */
  lemma EstimationMonotoneInCache(app: AppState, c1: real, c2: real, bw: real)
    requires Available(app) && IsCurve(app.mrc) && c1 <= c2
    requires AppCacheSafe(app, bw) && MissRate(app.mrc, c2) >= 0.0
    ensures GetEstimation(app, c1, bw).Some? && GetEstimation(app, c2, bw).Some?
    ensures GetEstimation(app, c1, bw).value <= GetEstimation(app, c2, bw).value
  {
    MissRateFalls(app.mrc, c1, c2);
    var m := AtLeastTiny(MissRate(app.mrc, app.alloc.value.cache as real));
    var t1, t2 := AtLeastTiny(MissRate(app.mrc, c1)), AtLeastTiny(MissRate(app.mrc, c2));
    var u, b, a := app.usageBw.value, bw * 1024.0, app.alloc.value.memBw as real;
    SlowDownMonotoneInMissRate(m, t2, t1, u, b, a);
    PerformanceFalls(SlowDown(m, t2, u, b, a), SlowDown(m, t1, u, b, a));
  }

  /** The two together, for a curve with rates in [0, 1] and targets within the measured
    cache range and within the current bandwidth allocation: a utility that never falls in
    either resource. */
  lemma EstimationMonotone(app: AppState, c1: real, c2: real, b1: real, b2: real)
    requires Available(app) && IsCurve(app.mrc) && app.mrc[|app.mrc| - 1].rate >= 0.0
    requires app.mrc[0].size <= c1 <= c2 <= app.mrc[|app.mrc| - 1].size && b1 <= b2
    requires app.usageBw.value <= app.alloc.value.memBw as real && b1 * 1024.0 <= app.alloc.value.memBw as real
    ensures GetEstimation(app, c1, b1).Some? && GetEstimation(app, c2, b2).Some?
    ensures GetEstimation(app, c1, b1).value <= GetEstimation(app, c2, b2).value
  {
    MissRateInRange(app.mrc, c2);
    WithinAllocationIsCacheSafe(AtLeastTiny(MissRate(app.mrc, app.alloc.value.cache as real)), app.usageBw.value, b1 * 1024.0, app.alloc.value.memBw as real);
    EstimationMonotoneInCache(app, c1, c2, b1);
    EstimationMonotoneInBandwidth(app, c2, b1, b2);
  }

  // ----- the condition is exact for the estimate, too -----------------------------

  lemma PerformanceDrops(s1: real, s2: real)
    requires s2 < s1 && s1 > 0.0001
    ensures Performance(s1) < Performance(s2)
  {
    var d1, d2 := Max(0.0001, s1), Max(0.0001, s2);
    assert 0.0 < d2 < d1;
    DivLe(1.0, d2, 1.0, d1);
  }

  /** Estimated performance at a target miss rate. */
  function PerformanceAt(m: real, t: real, cur: real, tar: real, allocBw: real): real
    requires m > 0.0 && allocBw > 0.0
  {
    Performance(SlowDown(m, t, cur, tar, allocBw))
  }

  ghost predicate PerformanceMonotone(m: real, cur: real, tar: real, allocBw: real)
    requires m > 0.0 && allocBw > 0.0
  {
    forall t1, t2 :: 0.0 <= t1 <= t2 <= 1.0 ==> PerformanceAt(m, t2, cur, tar, allocBw) <= PerformanceAt(m, t1, cur, tar, allocBw)
  }

  /** A lower rate with a lower performance, where the condition fails.  The clamp of the
    slowdown does not hide the dip. */
  lemma PerformanceDips(m: real, cur: real, tar: real, allocBw: real) returns (t1: real, t2: real)
    requires 0.0 < m <= 1.0 && allocBw > 0.0 && !CacheSafe(m, cur, tar, allocBw)
    ensures 0.0 < t1 < t2 <= m && t1 * Factor(Max(1.0, cur), Max(1.0, tar), allocBw) == m * allocBw
    ensures PerformanceAt(m, t1, cur, tar, allocBw) < PerformanceAt(m, t2, cur, tar, allocBw)
  {
    hide SlowDown, CacheSafe, Factor, Performance;
    t1, t2 := SlowDownDips(m, cur, tar, allocBw);
    FractionMono(1.0, 1.0 + m * LOC_TO_RET, 1.0, 101.0);
    PerformanceDrops(SlowDown(m, t1, cur, tar, allocBw), SlowDown(m, t2, cur, tar, allocBw));
  }

  /** The estimated performance is monotone in the target miss rate exactly when the condition
    holds. */
  lemma PerformanceMonotoneExactlyWhenCacheSafe(m: real, cur: real, tar: real, allocBw: real)
    requires 0.0 < m <= 1.0 && allocBw > 0.0
    ensures PerformanceMonotone(m, cur, tar, allocBw) <==> CacheSafe(m, cur, tar, allocBw)
  {
    hide SlowDown, CacheSafe, Factor, Performance;
    if CacheSafe(m, cur, tar, allocBw) {
      forall t1, t2 | 0.0 <= t1 <= t2 <= 1.0 ensures PerformanceAt(m, t2, cur, tar, allocBw) <= PerformanceAt(m, t1, cur, tar, allocBw) {
        SlowDownMonotoneInMissRate(m, t1, t2, cur, tar, allocBw);
        PerformanceFalls(SlowDown(m, t1, cur, tar, allocBw), SlowDown(m, t2, cur, tar, allocBw));
      }
    } else {
      var t1, t2 := PerformanceDips(m, cur, tar, allocBw);
    }
  }

  const TINY_RATE := 0.000000000001

  /** The rate at which the current allocation is just saturated is not below the floor that
    rates are raised to. */
  predicate AboveFloor(m: real, cur: real, tar: real, allocBw: real)
    requires allocBw > 0.0
  {
    TINY_RATE * Factor(Max(1.0, cur), Max(1.0, tar), allocBw) <= m * allocBw
  }

  /** A measured curve through the current operating point, with rates that are rates. */
  predicate CurveThrough(mrc: seq<Point>, cache: nat, m: real)
  {
    IsCurve(mrc) && mrc[0].rate <= 1.0 && mrc[|mrc| - 1].rate >= 0.0 && MissRate(mrc, cache as real) == m
  }

  function AppWith(mrc: seq<Point>, cache: nat, allocBw: nat, usage: real): AppState
  {
    AppState(Some(Deployed(cache, allocBw)), mrc, Some(usage))
  }

  /** On this curve the estimate is available and never falls as the cache grows, within the
    measured range. */
  ghost predicate RisesOn(mrc: seq<Point>, cache: nat, allocBw: nat, usage: real, bw: real)
    requires IsCurve(mrc)
  {
    forall c1, c2 :: mrc[0].size <= c1 <= c2 <= mrc[|mrc| - 1].size ==>
      EstimateLe(AppWith(mrc, cache, allocBw, usage), c1, c2, bw)
  }

  predicate EstimateLe(app: AppState, c1: real, c2: real, bw: real)
  {
    var e1, e2 := GetEstimation(app, c1, bw), GetEstimation(app, c2, bw);
    e1.Some? && e2.Some? && 0.0 < e1.value <= e2.value
  }

  ghost predicate RisesOnEveryCurve(cache: nat, allocBw: nat, usage: real, bw: real, m: real)
  {
    forall mrc :: CurveThrough(mrc, cache, m) ==> RisesOn(mrc, cache, allocBw, usage, bw)
  }

  lemma EstimateIsPerformance(mrc: seq<Point>, cache: nat, allocBw: nat, usage: real, bw: real, c: real, m: real, t: real)
    requires |mrc| >= 2 && allocBw > 0 && MissRate(mrc, cache as real) == m && MissRate(mrc, c) == t && m >= TINY_RATE && t >= TINY_RATE
    ensures GetEstimation(AppWith(mrc, cache, allocBw, usage), c, bw) == Some(PerformanceAt(m, t, usage, bw * 1024.0, allocBw as real))
  {
    hide MissRate, SlowDown, Performance;
  }

  lemma RisesWhenCacheSafe(mrc: seq<Point>, cache: nat, allocBw: nat, usage: real, bw: real, m: real)
    requires CurveThrough(mrc, cache, m) && allocBw > 0 && m >= TINY_RATE && CacheSafe(m, usage, bw * 1024.0, allocBw as real)
    ensures RisesOn(mrc, cache, allocBw, usage, bw)
  {
    hide CacheSafe, MissRate;
    var app := AppWith(mrc, cache, allocBw, usage);
    forall c1, c2 | mrc[0].size <= c1 <= c2 <= mrc[|mrc| - 1].size ensures EstimateLe(app, c1, c2, bw) {
      MissRateInRange(mrc, c1);
      MissRateInRange(mrc, c2);
      EstimationMonotoneInCache(app, c1, c2, bw);
    }
  }

  /** Three points that take the rate from the current one through two given rates. */
  function Stairs(cache: nat, m: real, t2: real, t1: real): seq<Point>
  {
    [Point(cache as real, m), Point(cache as real + 1.0, t2), Point(cache as real + 2.0, t1)]
  }

  lemma UnitLine(a: Point, b: Point)
    requires b.size == a.size + 1.0
    ensures Line(a, b, a.size) == a.rate && Line(a, b, b.size) == b.rate
  {
    assert Max(b.size - a.size, 0.000001) == 1.0;
    assert (b.rate - a.rate) * (a.size - a.size) / 1.0 == 0.0;
    assert (b.rate - a.rate) * (b.size - a.size) / 1.0 == b.rate - a.rate;
  }

  lemma StairsSegments(cache: nat, m: real, t2: real, t1: real)
    ensures var mrc, c := Stairs(cache, m, t2, t1), cache as real;
            Segment(mrc, c) == 1 && Segment(mrc, c + 1.0) == 1 && Segment(mrc, c + 2.0) == 2
  {
  }

  lemma StairsSpec(cache: nat, m: real, t2: real, t1: real)
    requires 0.0 <= t1 <= t2 <= m <= 1.0
    ensures CurveThrough(Stairs(cache, m, t2, t1), cache, m)
    ensures MissRate(Stairs(cache, m, t2, t1), cache as real + 1.0) == t2 && MissRate(Stairs(cache, m, t2, t1), cache as real + 2.0) == t1
  {
    hide Segment, Line;
    var mrc := Stairs(cache, m, t2, t1);
    StairsSegments(cache, m, t2, t1);
    UnitLine(mrc[0], mrc[1]);
    UnitLine(mrc[1], mrc[2]);
  }

  /** An application whose estimate falls as its cache grows, for every operating point at
    which the condition fails. */
  lemma EstimateFallsSomewhere(cache: nat, allocBw: nat, usage: real, bw: real, m: real) returns (mrc: seq<Point>)
    requires allocBw > 0 && 0.0 < m <= 1.0 && m >= TINY_RATE && AboveFloor(m, usage, bw * 1024.0, allocBw as real)
    requires !CacheSafe(m, usage, bw * 1024.0, allocBw as real)
    ensures CurveThrough(mrc, cache, m) && |mrc| == 3 && mrc[1].size < mrc[2].size
    ensures var app := AppWith(mrc, cache, allocBw, usage);
            var e1, e2 := GetEstimation(app, mrc[1].size, bw), GetEstimation(app, mrc[2].size, bw);
            e1.Some? && e2.Some? && e2.value < e1.value
  {
    hide CacheSafe, Factor, PerformanceAt, MissRate, GetEstimation;
    var t1, t2 := PerformanceDips(m, usage, bw * 1024.0, allocBw as real);
    FloorCancels(t1, m, Factor(Max(1.0, usage), Max(1.0, bw * 1024.0), allocBw as real), allocBw as real);
    mrc := Stairs(cache, m, t2, t1);
    StairsSpec(cache, m, t2, t1);
    EstimateIsPerformance(mrc, cache, allocBw, usage, bw, cache as real + 1.0, m, t2);
    EstimateIsPerformance(mrc, cache, allocBw, usage, bw, cache as real + 2.0, m, t1);
  }

  lemma FloorCancels(t: real, m: real, k: real, a: real)
    requires t > 0.0 && m > 0.0 && a > 0.0 && t * k == m * a && TINY_RATE * k <= m * a
    ensures t >= TINY_RATE
  {
    assert k > 0.0 by {
      MulStrict(0.0, m, a);
      if k <= 0.0 { MulMono(k, 0.0, t); }
    }
    CancelLe(TINY_RATE, t, k, TINY_RATE * k, t * k);
  }

  /** The main result on the estimator: for a given operating point the estimate rises with the
    cache on every measured curve through it exactly when the condition holds. */
  lemma EstimateRisesExactlyWhenCacheSafe(cache: nat, allocBw: nat, usage: real, bw: real, m: real)
    requires allocBw > 0 && TINY_RATE <= m <= 1.0 && AboveFloor(m, usage, bw * 1024.0, allocBw as real)
    ensures RisesOnEveryCurve(cache, allocBw, usage, bw, m) <==> CacheSafe(m, usage, bw * 1024.0, allocBw as real)
  {
    hide CacheSafe, AboveFloor, GetEstimation, MissRate, IsCurve;
    if CacheSafe(m, usage, bw * 1024.0, allocBw as real) {
      forall mrc | CurveThrough(mrc, cache, m) ensures RisesOn(mrc, cache, allocBw, usage, bw) {
        RisesWhenCacheSafe(mrc, cache, allocBw, usage, bw, m);
      }
    } else {
      var mrc := EstimateFallsSomewhere(cache, allocBw, usage, bw, m);
      var app := AppWith(mrc, cache, allocBw, usage);
      assert !EstimateLe(app, mrc[1].size, mrc[2].size, bw);
      StairsInRange(mrc);
    }
  }

  lemma StairsInRange(mrc: seq<Point>)
    requires IsCurve(mrc) && |mrc| == 3
    ensures mrc[0].size <= mrc[1].size <= mrc[2].size
  {
  }

  /** One application: it uses almost all of its 1 Gbps, is asked about 2 Gbps, and misses 40% of
    its accesses at 100 MB. */
  const SATURATED := AppWith(Stairs(100, 0.4, 0.2, 0.1), 100, 1024, 1000.0)

  lemma SaturatedSlowDowns()
    ensures SlowDown(0.4, 0.4, 1000.0, 2048.0, 1024.0) == 41.0 / 81.0
    ensures SlowDown(0.4, 0.2, 1000.0, 2048.0, 1024.0) == 21.0 / 41.0
  {
    assert Factor(1000.0, 2048.0, 1024.0) == 2048.0;
    assert Scaled(40.0, 40.0, 2048.0, 1.0, 2048.0, 1024.0) == Quotient(40.0, 40.0, 1.0, 2.0);
    assert Scaled(20.0, 40.0, 2048.0, 0.5, 2048.0, 1024.0) == Quotient(20.0, 40.0, 0.5, 1.0);
  }

  /** Growing its cache from the current 100 MB to 101 MB halves its miss rate and lowers its
    estimate. */
  lemma EstimateCanFall()
    ensures GetEstimation(SATURATED, 100.0, 2.0) == Some(81.0 / 41.0)
    ensures GetEstimation(SATURATED, 101.0, 2.0) == Some(41.0 / 21.0)
    ensures 41.0 / 21.0 < 81.0 / 41.0
  {
    hide MissRate, SlowDown, GetEstimation, IsCurve;
    StairsSpec(100, 0.4, 0.2, 0.1);
    SaturatedSlowDowns();
    EstimateIsPerformance(Stairs(100, 0.4, 0.2, 0.1), 100, 1024, 1000.0, 2.0, 100.0, 0.4, 0.4);
    EstimateIsPerformance(Stairs(100, 0.4, 0.2, 0.1), 100, 1024, 1000.0, 2.0, 101.0, 0.4, 0.2);
  }
}
