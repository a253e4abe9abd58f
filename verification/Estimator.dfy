/** The analytic performance model: `RuntimeEstimator`. */
module Estimator {
  import opened Basics
  import opened RealMath

  /** Slowdown of a remote access relative to a local one. */
  const LOC_TO_RET := 100.0
  /** Usage above this fraction of the allocation counts as saturated. */
  const MARGIN := 0.8

  // ----- _estimate_slow_down ------------------------------------------------------

  /** The bandwidth the estimate scales by the ratio of miss rates. */
  function Factor(curBw: real, tarBw: real, allocBw: real): real
    requires allocBw > 0.0
  {
    if curBw <= allocBw * MARGIN || curBw > tarBw then curBw
    else
      var used := if curBw >= allocBw * MARGIN then allocBw else curBw;
      tarBw * Min(1.0, used / allocBw)
  }

  /** One slowdown over another, each `1 + rate * 100 * max(1, load)`. */
  function Quotient(tarRate: real, curRate: real, tarLoad: real, curLoad: real): real
    requires curRate > 0.0
  {
    MulMono(0.0, curRate, Max(1.0, curLoad));
    (1.0 + tarRate * Max(1.0, tarLoad)) / (1.0 + curRate * Max(1.0, curLoad))
  }

  /** The bandwidth estimate is k * y; it loads the target and the current allocation. */
  function Scaled(tarRate: real, curRate: real, k: real, y: real, tarBw: real, allocBw: real): real
    requires curRate > 0.0 && allocBw > 0.0 && tarBw > 0.0
  {
    Quotient(tarRate, curRate, (k * y) / tarBw, (k * y) / allocBw)
  }

  /** The slowdown once the bandwidth estimate is known to be `k` times the miss-rate ratio. */
  function Relative(curMr: real, tarMr: real, k: real, tarBw: real, allocBw: real): real
    requires curMr > 0.0 && allocBw > 0.0 && tarBw > 0.0
  {
    Scaled(tarMr * LOC_TO_RET, curMr * LOC_TO_RET, k, tarMr / curMr, tarBw, allocBw)
  }

  /** Slowdown at the target relative to the current operating point. */
  function SlowDown(curMr: real, tarMr: real, curBwMbps: real, tarBwMbps: real, allocBw: real): real
    requires curMr > 0.0 && allocBw > 0.0
  {
    var tarBw, curBw := Max(1.0, tarBwMbps), Max(1.0, curBwMbps);
    Relative(curMr, tarMr, Factor(curBw, tarBw, allocBw), tarBw, allocBw)
  }

  /** The bandwidth the application is estimated to use at the target: its usage, or all of the
    target when it saturates its allocation and the target is not below its usage, scaled by the
    ratio of miss rates. */
  function EstimatedBw(curMr: real, tarMr: real, curBw: real, tarBw: real, allocBw: real): real
    requires curMr > 0.0
  {
    (if curBw <= 0.8 * allocBw || curBw > tarBw then curBw else tarBw) * (tarMr / curMr)
  }

  /** The slowdown is a ratio of two costs of an access: one plus a hundred times the rate, v at
    the target and w now, weighed by how far the estimated bandwidth exceeds what there is. */
  lemma SlowDownIsRatio(curMr: real, tarMr: real, cur: real, tar: real, allocBw: real, bw: real, v: real, w: real, x: real, y: real)
    requires curMr > 0.0 && allocBw > 0.0 && cur >= 1.0 && tar >= 1.0
    requires bw == EstimatedBw(curMr, tarMr, cur, tar, allocBw) && v == 100.0 * tarMr && w == 100.0 * curMr
    requires x == Max(1.0, bw / tar) && y == Max(1.0, bw / allocBw)
    ensures 1.0 + w * y > 0.0 && SlowDown(curMr, tarMr, cur, tar, allocBw) == (1.0 + v * x) / (1.0 + w * y)
  {
    hide SlowDown, EstimatedBw, Relative, Factor, Quotient, Max;
    var k := Factor(cur, tar, allocBw);
    FactorScales(curMr, tarMr, cur, tar, allocBw);
    SlowDownIsRelative(curMr, tarMr, cur, tar, allocBw);
    RelativeIsQuotient(curMr, tarMr, k, tar, allocBw, bw, v, w);
    QuotientIs(v, w, bw / tar, bw / allocBw, x, y);
  }

  lemma SlowDownIsRelative(curMr: real, tarMr: real, cur: real, tar: real, allocBw: real)
    requires curMr > 0.0 && allocBw > 0.0 && cur >= 1.0 && tar >= 1.0
    ensures SlowDown(curMr, tarMr, cur, tar, allocBw) == Relative(curMr, tarMr, Factor(cur, tar, allocBw), tar, allocBw)
  {
    hide Relative, Factor;
  }

  lemma FactorScales(curMr: real, tarMr: real, cur: real, tar: real, allocBw: real)
    requires curMr > 0.0 && allocBw > 0.0
    ensures EstimatedBw(curMr, tarMr, cur, tar, allocBw) == Factor(cur, tar, allocBw) * (tarMr / curMr)
  {
    hide Factor;
    FactorIs(cur, tar, allocBw);
  }

  lemma RelativeIsQuotient(curMr: real, tarMr: real, k: real, tar: real, allocBw: real, bw: real, v: real, w: real)
    requires curMr > 0.0 && allocBw > 0.0 && tar > 0.0 && bw == k * (tarMr / curMr) && v == 100.0 * tarMr && w == 100.0 * curMr
    ensures Relative(curMr, tarMr, k, tar, allocBw) == Quotient(v, w, bw / tar, bw / allocBw)
  {
    hide Quotient;
    var y := tarMr / curMr;
    assert Relative(curMr, tarMr, k, tar, allocBw) == Scaled(v, w, k, y, tar, allocBw);
    ScaledIsQuotient(v, w, k, y, tar, allocBw, bw);
  }

  lemma ScaledIsQuotient(v: real, w: real, k: real, y: real, c: real, a: real, e: real)
    requires w > 0.0 && c > 0.0 && a > 0.0 && e == k * y
    ensures Scaled(v, w, k, y, c, a) == Quotient(v, w, e / c, e / a)
  {
    hide Quotient;
  }

  lemma QuotientIs(v: real, w: real, tarLoad: real, curLoad: real, x: real, y: real)
    requires w > 0.0 && x == Max(1.0, tarLoad) && y == Max(1.0, curLoad)
    ensures 1.0 + w * y > 0.0 && Quotient(v, w, tarLoad, curLoad) == (1.0 + v * x) / (1.0 + w * y)
  {
    MulMono(0.0, w, y);
  }

  lemma FactorIs(cur: real, tar: real, allocBw: real)
    requires allocBw > 0.0
    ensures Factor(cur, tar, allocBw) == if cur <= 0.8 * allocBw || cur > tar then cur else tar
  {
    assert allocBw / allocBw == 1.0;
  }

  /** Bandwidths below one count as one. */
  lemma SlowDownOfSmall(curMr: real, tarMr: real, cur: real, tar: real, allocBw: real)
    requires curMr > 0.0 && allocBw > 0.0
    ensures SlowDown(curMr, tarMr, cur, tar, allocBw)
            == SlowDown(curMr, tarMr, if cur < 1.0 then 1.0 else cur, if tar < 1.0 then 1.0 else tar, allocBw)
  {
  }

  /** Staying where it is neither slows an application down nor speeds it up. */
  lemma StayingIsNeutral(m: real, cur: real, allocBw: real)
    requires m > 0.0 && allocBw >= 1.0
    ensures SlowDown(m, m, cur, allocBw, allocBw) == 1.0
  {
    hide SlowDown, EstimatedBw, Max;
    var u := if cur < 1.0 then 1.0 else cur;
    SlowDownOfSmall(m, m, cur, allocBw, allocBw);
    var bw, w := EstimatedBw(m, m, u, allocBw, allocBw), 100.0 * m;
    var x := Max(1.0, bw / allocBw);
    SlowDownIsRatio(m, m, u, allocBw, allocBw, bw, w, w, x, x);
    SameQuotient(1.0 + w * x);
  }

  lemma SameQuotient(z: real)
    requires z > 0.0
    ensures z / z == 1.0
  {
  }

  // ----- estimate_miss_rate -------------------------------------------------------

  /** One point of a miss-rate curve. */
  datatype Point = Point(size: real, rate: real)

  /** The line through two points, extended beyond them. */
  function Line(a: Point, b: Point, cache: real): real
  {
    a.rate + (b.rate - a.rate) * (cache - a.size) / Max(b.size - a.size, 0.000001)
  }

  /** The first index from i on whose size reaches the cache size, or the last index. */
  function FirstAtLeast(mrc: seq<Point>, cache: real, i: nat): (k: nat)
    requires 1 <= i < |mrc|
    ensures i <= k < |mrc|
    ensures k < |mrc| - 1 ==> cache <= mrc[k].size
    ensures forall j :: i <= j < k ==> cache > mrc[j].size
    decreases |mrc| - i
  {
    if i == |mrc| - 1 || cache <= mrc[i].size then i else FirstAtLeast(mrc, cache, i + 1)
  }

  /** The right end of the segment the rate is read from. */
  function Segment(mrc: seq<Point>, cache: real): (k: nat)
    requires |mrc| >= 2
    ensures 1 <= k < |mrc|
  {
    if cache <= mrc[0].size then 1
    else if cache >= mrc[|mrc| - 1].size then |mrc| - 1
    else FirstAtLeast(mrc, cache, 1)
  }

  function MissRate(mrc: seq<Point>, cache: real): real
    requires |mrc| >= 2
  {
    var k := Segment(mrc, cache);
    Line(mrc[k - 1], mrc[k], cache)
  }

  /** The point a fraction l of the way from x to y; before x for a negative l, beyond y above one. */
  function Between(x: real, y: real, l: real): real
  {
    x + Times(l, y - x)
  }

  /** Sizes in order and at least a millionth apart. */
  predicate Spaced(mrc: seq<Point>)
  {
    |mrc| >= 2 && forall i, j :: 0 <= i < j < |mrc| ==> mrc[i].size + 0.000001 <= mrc[j].size
  }

  /** Segment k is read between its ends; the first also before it, the last also beyond. */
  predicate Reads(mrc: seq<Point>, k: nat, l: real)
  {
    1 <= k < |mrc| && (k > 1 ==> l >= 0.0) && (k < |mrc| - 1 ==> l <= 1.0)
  }

  lemma LineInterpolates(a: Point, b: Point, l: real)
    requires b.size - a.size >= 0.000001
    ensures Line(a, b, Between(a.size, b.size, l)) == Between(a.rate, b.rate, l)
  {
    var d, dy := b.size - a.size, b.rate - a.rate;
    assert dy * (l * d) == (l * dy) * d;
    assert (l * dy) * d / d == l * dy;
  }

  /** Of sizes closer than a millionth the distance is taken to be a millionth. */
  lemma LineOfCloseSizes(a: Point, b: Point, cache: real)
    requires b.size - a.size < 0.000001
    ensures Line(a, b, cache) == a.rate + (b.rate - a.rate) * (cache - a.size) * 1000000.0
  {
    var x := (b.rate - a.rate) * (cache - a.size);
    assert x / 0.000001 == x * 1000000.0;
  }

  lemma SignOfTimes(x: real, d: real)
    requires d > 0.0
    ensures Times(x, d) > 0.0 <==> x > 0.0
  {
    if x > 0.0 {
      MulStrict(0.0, x, d);
    } else {
      MulMono(x, 0.0, d);
    }
  }

  lemma BetweenEnds(x: real, y: real, l: real)
    requires x < y
    ensures Between(x, y, l) < y <==> l < 1.0
    ensures x < Between(x, y, l) <==> l > 0.0
    ensures Between(x, y, 0.0) == x && Between(x, y, 1.0) == y
  {
    hide Times;
    SignOfTimes(l, y - x);
    SignOfTimes(1.0 - l, y - x);
    Complement(l, y - x);
    Complement(0.0, y - x);
    Complement(1.0, y - x);
  }

  lemma Complement(l: real, d: real)
    ensures Times(1.0 - l, d) == d - Times(l, d) && Times(0.0, d) == 0.0
  {
  }

  lemma SegmentOf(mrc: seq<Point>, k: nat, l: real)
    requires Spaced(mrc) && Reads(mrc, k, l) && (k > 1 ==> l > 0.0)
    ensures Segment(mrc, Between(mrc[k - 1].size, mrc[k].size, l)) == k
  {
    hide Between;
    var c := Between(mrc[k - 1].size, mrc[k].size, l);
    BetweenEnds(mrc[k - 1].size, mrc[k].size, l);
    assert k < |mrc| - 1 ==> c <= mrc[k].size by {
      BetweenEnds(mrc[k - 1].size, mrc[k].size, 1.0);
    }
    assert forall i :: 0 <= i < k ==> mrc[i].size <= mrc[k - 1].size;
    assert k < |mrc| - 1 ==> mrc[k].size < mrc[|mrc| - 1].size;
  }

  /** The rate is interpolated linearly between neighbouring measured sizes, and extrapolated by
    the line of the first and of the last segment. */
  lemma RateInterpolates(mrc: seq<Point>, k: nat, l: real)
    requires Spaced(mrc) && Reads(mrc, k, l)
    ensures MissRate(mrc, Between(mrc[k - 1].size, mrc[k].size, l)) == Between(mrc[k - 1].rate, mrc[k].rate, l)
  {
    hide Line, Segment;
    if k > 1 && l == 0.0 {
      BetweenEnds(mrc[k - 1].size, mrc[k].size, l);
      BetweenEnds(mrc[k - 2].size, mrc[k - 1].size, 1.0);
      SegmentOf(mrc, k - 1, 1.0);
      LineInterpolates(mrc[k - 2], mrc[k - 1], 1.0);
    } else {
      SegmentOf(mrc, k, l);
      LineInterpolates(mrc[k - 1], mrc[k], l);
    }
  }

  /** At a measured size it is the measured rate. */
  lemma MeasuredRates(mrc: seq<Point>, j: nat)
    requires Spaced(mrc) && j < |mrc|
    ensures MissRate(mrc, mrc[j].size) == mrc[j].rate
  {
    if j == 0 {
      RateInterpolates(mrc, 1, 0.0);
    } else {
      RateInterpolates(mrc, j, 1.0);
    }
  }

  ghost predicate Interpolates(mrc: seq<Point>, cache: real, rate: real)
  {
    forall k: nat, l: real :: Reads(mrc, k, l) && cache == Between(mrc[k - 1].size, mrc[k].size, l) ==>
      rate == Between(mrc[k - 1].rate, mrc[k].rate, l)
  }

  /** The search loop as written. */
  method EstimateMissRate(mrc: seq<Point>, cache: real) returns (rate: real)
    requires |mrc| >= 2
    ensures rate == MissRate(mrc, cache)
    ensures Spaced(mrc) ==> Interpolates(mrc, cache, rate)
  {
    hide Interpolates, Spaced;
    var a, b := mrc[0], mrc[1];
    if cache <= mrc[0].size {
    } else if cache >= mrc[|mrc| - 1].size {
      a, b := mrc[|mrc| - 2], mrc[|mrc| - 1];
    } else {
      var i := 1;
      while i < |mrc| && cache > mrc[i].size
        invariant 1 <= i < |mrc|
        invariant FirstAtLeast(mrc, cache, 1) == FirstAtLeast(mrc, cache, i)
      {
        i := i + 1;
      }
      a, b := mrc[i - 1], mrc[i];
    }
    rate := a.rate + (b.rate - a.rate) * (cache - a.size) / Max(b.size - a.size, 0.000001);
    assert rate == Line(a, b, cache);
    hide Line, Max;
    RateIsInterpolated(mrc, cache);
  }

  lemma RateIsInterpolated(mrc: seq<Point>, cache: real)
    requires |mrc| >= 2
    ensures Spaced(mrc) ==> Interpolates(mrc, cache, MissRate(mrc, cache))
  {
    hide MissRate, Between;
    forall k: nat, l: real | Spaced(mrc) && Reads(mrc, k, l) && cache == Between(mrc[k - 1].size, mrc[k].size, l)
      ensures MissRate(mrc, cache) == Between(mrc[k - 1].rate, mrc[k].rate, l)
    {
      RateInterpolates(mrc, k, l);
    }
  }

  // ----- get_estimation -----------------------------------------------------------

  /** What the estimator looks up for one application: the deployed allocation, the last
    miss-rate curve (empty when unavailable) and the last bandwidth usage. */
  datatype AppState = AppState(alloc: Option<Deployed>, mrc: seq<Point>, usageBw: Option<real>)

  /** Deployed integers: megabytes and megabits per second. */
  datatype Deployed = Deployed(cache: nat, memBw: nat)

  /** Rates are kept away from zero. */
  function AtLeastTiny(rate: real): (r: real)
    ensures r >= 0.000000000001 && r >= rate
  {
    if rate <= 0.000000000001 then 0.000000000001 else rate
  }

  function Performance(slowDown: real): (r: real)
    ensures r > 0.0
  {
    1.0 / Max(0.0001, slowDown)
  }

  /** `None` where the source raises: a curve with a single point, or nothing deployed. */
  function GetEstimation(app: AppState, cacheMb: real, bwGbps: real): (r: Option<real>)
    ensures r.Some? ==> r.value == -1.0 || r.value > 0.0
  {
    if app.alloc.None? || app.mrc == [] || app.usageBw.None? then Some(-1.0)
    else if |app.mrc| == 1 then None
    else
      var cur, tar := MissRate(app.mrc, app.alloc.value.cache as real), MissRate(app.mrc, cacheMb);
      if cur < 0.0 || tar < 0.0 then Some(-1.0)
      else if app.alloc.value.memBw == 0 then None
      else Some(Performance(SlowDown(AtLeastTiny(cur), AtLeastTiny(tar), app.usageBw.value, bwGbps * 1024.0, app.alloc.value.memBw as real)))
  }

  /** What the estimator lacks: the allocation, the curve or the usage. */
  predicate Unavailable(app: AppState)
  {
    app.alloc.None? || app.mrc == [] || app.usageBw.None?
  }

  /** When it gives up, when it raises, and what it estimates otherwise. */
  lemma EstimationCases(app: AppState, cacheMb: real, bwGbps: real)
    ensures Unavailable(app) ==> GetEstimation(app, cacheMb, bwGbps) == Some(-1.0)
    ensures !Unavailable(app) && |app.mrc| == 1 ==> GetEstimation(app, cacheMb, bwGbps) == None
    ensures !Unavailable(app) && |app.mrc| >= 2 ==>
              var m, t := MissRate(app.mrc, app.alloc.value.cache as real), MissRate(app.mrc, cacheMb);
              && (m < 0.0 || t < 0.0 ==> GetEstimation(app, cacheMb, bwGbps) == Some(-1.0))
              && (m >= 0.0 && t >= 0.0 && app.alloc.value.memBw == 0 ==> GetEstimation(app, cacheMb, bwGbps) == None)
              && (m >= 0.0 && t >= 0.0 && app.alloc.value.memBw > 0 ==>
                    var s := SlowDown(if m <= 0.000000000001 then 0.000000000001 else m, if t <= 0.000000000001 then 0.000000000001 else t,
                                      app.usageBw.value, bwGbps * 1024.0, app.alloc.value.memBw as real);
                    GetEstimation(app, cacheMb, bwGbps) == Some(if s <= 0.0001 then 10000.0 else 1.0 / s))
  {
    hide MissRate, SlowDown;
  }

  /** Where it is, an application is estimated at one. */
  lemma EstimateHereIsOne(app: AppState)
    requires !Unavailable(app) && |app.mrc| >= 2 && app.alloc.value.memBw > 0
    requires MissRate(app.mrc, app.alloc.value.cache as real) > 0.000000000001
    ensures GetEstimation(app, app.alloc.value.cache as real, app.alloc.value.memBw as real / 1024.0) == Some(1.0)
  {
    var m, a := MissRate(app.mrc, app.alloc.value.cache as real), app.alloc.value.memBw as real;
    hide MissRate, SlowDown;
    assert a / 1024.0 * 1024.0 == a;
    StayingIsNeutral(m, app.usageBw.value, a);
    EstimationCases(app, app.alloc.value.cache as real, a / 1024.0);
  }
}
