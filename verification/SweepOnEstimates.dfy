/** The sweep run on the performance model: the estimator's monotonicity is what the sweep's
  shortcut rests on. */
module SweepOnEstimates {
  import opened Basics
  import opened RealMath
  import E = Estimator
  import M = EstimatorMonotone
  import opened Sweep
  import opened SweepTheorems

  /** The sweep's utility is the estimate of one application (zero where the source raises). */
  ghost predicate UtilityIsEstimate(q: Query, app: E.AppState)
  {
    forall c, b :: q.util(c, b) == Estimate(app, c, b)
  }

  function Estimate(app: E.AppState, c: real, b: real): real
  {
    match E.GetEstimation(app, c, b)
    case Some(v) => v
    case None => 0.0
  }

  lemma EstimateIsMonotoneInBw(q: Query, app: E.AppState)
    requires UtilityIsEstimate(q, app)
    ensures MonotoneInBw(q)
  {
    forall c, b1, b2 | b1 <= b2 ensures q.util(c, b1) <= q.util(c, b2) {
      M.EstimationMonotoneInBandwidth(app, c, b1, b2);
    }
  }

  /** Measured rates are never negative and the curve reaches the whole cache. */
  predicate CurveCovers(app: E.AppState, cache: real)
  {
    && M.Available(app) && M.IsCurve(app.mrc)
    && app.mrc[|app.mrc| - 1].rate >= 0.0
    && cache <= app.mrc[|app.mrc| - 1].size
    && app.alloc.value.cache as real <= app.mrc[|app.mrc| - 1].size
  }

  lemma RateNonNegative(app: E.AppState, cache: real, c: real)
    requires CurveCovers(app, cache) && (c <= cache || c == app.alloc.value.cache as real)
    ensures E.MissRate(app.mrc, c) >= 0.0
  {
    var last := app.mrc[|app.mrc| - 1].size;
    M.MissRateFalls(app.mrc, c, last);
    M.MissRateInRange(app.mrc, last);
  }

  lemma EstimateIsPositive(app: E.AppState, cache: real, c: real, b: real)
    requires CurveCovers(app, cache) && c <= cache
    ensures E.GetEstimation(app, c, b).Some? && Estimate(app, c, b) > 0.0
  {
    RateNonNegative(app, cache, c);
    RateNonNegative(app, cache, app.alloc.value.cache as real);
  }

  lemma EstimateRises(app: E.AppState, cache: real, c1: real, c2: real, b: real)
    requires CurveCovers(app, cache) && c1 <= c2 <= cache && M.AppCacheSafe(app, b)
    ensures 0.0 <= Estimate(app, c1, b) <= Estimate(app, c2, b)
  {
    EstimateIsPositive(app, cache, c1, b);
    RateNonNegative(app, cache, c2);
    M.EstimationMonotoneInCache(app, c1, c2, b);
  }

  lemma GridWithinOne(e: real, n: nat)
    requires e > 0.0 && n as real <= 1.0 / e
    ensures Amount(n, e) <= 1.0
  {
    FairShareFits(1.0, e, n);
  }

  /** The bandwidth of a grid row in absolute units. */
  function RowBw(q: Query, j: nat): real
  {
    Times(Amount(j, q.eps), q.scale.memBw)
  }

  lemma RowRisesOnEstimates(q: Query, app: E.AppState, j: nat)
    requires WellFormed(q) && UtilityIsEstimate(q, app) && CurveCovers(app, q.scale.cache) && M.AppCacheSafe(app, RowBw(q, j))
    ensures RowRises(q, j)
  {
    hide CurveCovers, Amount, M.AppCacheSafe;
    forall i: nat | 1 <= i < Steps(q) ensures 0.0 <= RowUtility(q, i, j) <= RowUtility(q, i + 1, j) {
      var x, y, s := Size(q, i), Size(q, i + 1), q.scale.cache;
      SizeMonotone(q, i, i + 1);
      QuotientNonNegative(1.0, q.eps);
      GridWithinOne(q.eps, i + 1);
      ProductLe(x, y, s, Times(x, s), Times(y, s));
      ProductLe(y, 1.0, s, Times(y, s), s);
      EstimateRises(app, s, Times(x, s), Times(y, s), RowBw(q, j));
    }
  }

  /** The sweep on the estimator: for a measured curve that covers the cache, every affordable
    in-limit pair of the searched grid is, up to the factor 1.005, no better than the reported
    utility, or is matched by a pair of the same bandwidth at the end of its row. */
  lemma SweepIsSoundOnEstimates(q: Query, app: E.AppState, seed: Option<Bundle>, seedUtil: real, stop: nat, f: Found, i: nat, j: nat)
    returns (k: nat)
    requires Market(q) && q.price.memBw >= TINY && (forall n :: FairOnGrid(q, n))
    requires UtilityIsEstimate(q, app) && CurveCovers(app, q.scale.cache) && M.AppCacheSafe(app, RowBw(q, j))
    requires Tracks(q, seed, seedUtil, stop, f) && (stop <= Steps(q) ==> Unaffordable(q, stop))
    requires Eligible(q, i, j)
    ensures i <= k && Eligible(q, k, j) && Score(q, Pair(q, i, j)) <= Score(q, Pair(q, k, j))
    ensures Settle(f).1 >= Discounted(Score(q, Pair(q, i, j))) || (!PassesMargin(q, k) && RowEnds(q, k, j))
  {
    EstimateIsMonotoneInBw(q, app);
    RowRisesOnEstimates(q, app, j);
    k := SkippedColumnsAreDominated(q, i, j);
    if PassesMargin(q, k) {
      SweepRefinesGridSearch(q, seed, seedUtil, stop, f, k, j);
    }
    hide Score, Pair, Settle, Eligible, PassesMargin, RowEnds;
  }
}
