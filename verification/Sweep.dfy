/** The per-application sweep of `ptas_algorithm`: for each cache step only the largest
  affordable bandwidth is tried. */
module Sweep {
  import opened Basics
  import opened RealMath

  const MARGIN_IN_BUDGET := 0.97
  const REALLOCATION := 1.005
  const TINY := 0.000001

  /** An amount of each resource, or a price for each. */
  datatype Bundle = Bundle(cache: real, memBw: real)

  /** An upper limit; absent ones default to infinity. */
  datatype Limit = Unlimited | AtMost(bound: real)

  datatype Scale = Scale(cache: real, memBw: real, minCache: real, maxCache: Limit, minMemBw: real, maxMemBw: Limit)

  predicate Exceeds(x: real, l: Limit)
  {
    l.AtMost? && x > l.bound
  }

  function Capped(x: real, l: Limit): (r: real)
    ensures r <= x && !Exceeds(r, l)
    ensures !Exceeds(x, l) ==> r == x
  {
    if l.AtMost? && l.bound < x then l.bound else x
  }

  // The four halves of the limit check, with a margin in normalised units.

  predicate LowCache(b: Bundle, s: Scale, margin: Bundle)
  {
    b.cache * s.cache < s.minCache - margin.cache * s.cache
  }

  predicate HighCache(b: Bundle, s: Scale, margin: Bundle)
  {
    Exceeds(b.cache * s.cache - margin.cache * s.cache, s.maxCache)
  }

  predicate LowBw(b: Bundle, s: Scale, margin: Bundle)
  {
    b.memBw * s.memBw < s.minMemBw - margin.memBw * s.memBw
  }

  predicate HighBw(b: Bundle, s: Scale, margin: Bundle)
  {
    Exceeds(b.memBw * s.memBw - margin.memBw * s.memBw, s.maxMemBw)
  }

  predicate Within(b: Bundle, s: Scale, margin: Bundle)
  {
    !LowCache(b, s, margin) && !HighCache(b, s, margin) && !LowBw(b, s, margin) && !HighBw(b, s, margin)
  }

  const NO_MARGIN := Bundle(0.0, 0.0)

  predicate InLimits(b: Bundle, s: Scale)
  {
    Within(b, s, NO_MARGIN)
  }

  class ResourceLimited {
    var cacheMin: bool
    var cacheMax: bool
    var memBwMin: bool
    var memBwMax: bool

    constructor ()
      ensures !cacheMin && !cacheMax && !memBwMin && !memBwMax
    {
      cacheMin, cacheMax, memBwMin, memBwMax := false, false, false, false;
    }

    method Update(cMin: bool, cMax: bool, bMin: bool, bMax: bool)
      modifies this
      ensures cacheMin == (old(cacheMin) || cMin) && cacheMax == (old(cacheMax) || cMax)
      ensures memBwMin == (old(memBwMin) || bMin) && memBwMax == (old(memBwMax) || bMax)
    {
      cacheMin, cacheMax := cacheMin || cMin, cacheMax || cMax;
      memBwMin, memBwMax := memBwMin || bMin, memBwMax || bMax;
    }

    predicate IsLimited()
      reads this
    {
      cacheMin || cacheMax || memBwMin || memBwMax
    }
  }

  /** `check_resource_limits`: a significant violation is recorded in `limited`, of the cache
    limits first. */
  method CheckResourceLimits(b: Bundle, s: Scale, margin: Bundle, significant: bool, limited: ResourceLimited) returns (ok: bool)
    modifies limited
    ensures ok <==> Within(b, s, margin)
    ensures ok || !significant ==> unchanged(limited)
    ensures limited.cacheMin == (old(limited.cacheMin) || (significant && LowCache(b, s, margin)))
    ensures limited.cacheMax == (old(limited.cacheMax) || (significant && HighCache(b, s, margin)))
    ensures var cacheOk := !LowCache(b, s, margin) && !HighCache(b, s, margin);
            && limited.memBwMin == (old(limited.memBwMin) || (significant && cacheOk && LowBw(b, s, margin)))
            && limited.memBwMax == (old(limited.memBwMax) || (significant && cacheOk && HighBw(b, s, margin)))
  {
    var low, high := LowCache(b, s, margin), HighCache(b, s, margin);
    if low || high {
      if significant { limited.Update(low, high, false, false); }
      return false;
    }
    low, high := LowBw(b, s, margin), HighBw(b, s, margin);
    if low || high {
      if significant { limited.Update(false, false, low, high); }
      return false;
    }
    return true;
  }

  /** `clip_allocation`. */
  function Clip(b: Bundle, s: Scale): Bundle
    requires s.cache > 0.0 && s.memBw > 0.0
  {
    Bundle(Capped(b.cache * s.cache, s.maxCache) / s.cache, Capped(b.memBw * s.memBw, s.maxMemBw) / s.memBw)
  }

  function Cost(b: Bundle, price: Bundle): real
  {
    b.cache * price.cache + b.memBw * price.memBw
  }

  /** One call of the sweep: granularity, budget after the margin, prices, resource limits,
    the application's utility in absolute units, its last allocation and search range. */
  datatype Query = Query(eps: real, budget: real, price: Bundle, scale: Scale, util: (real, real) -> real,
                         last: Option<Bundle>, lo: real, hi: real)

  predicate WellFormed(q: Query)
  {
    q.eps > 0.0 && q.scale.cache > 0.0 && q.scale.memBw > 0.0
  }

  /** Number of grid steps. */
  function Steps(q: Query): (n: nat)
    requires WellFormed(q)
  {
    Trunc(1.0 / q.eps)
  }

  function Amount(n: int, eps: real): real
  {
    n as real * eps
  }

  function Size(q: Query, i: nat): real
  {
    Amount(i, q.eps)
  }

  predicate Searched(q: Query, i: nat)
  {
    q.lo <= Size(q, i) <= q.hi
  }

  predicate Unaffordable(q: Query, i: nat)
  {
    Size(q, i) * q.price.cache > q.budget
  }

  function StepsIn(money: real, price: real, eps: real): real
    requires price > 0.0 && eps > 0.0
  {
    money / price / eps
  }

  /** What a cache share c leaves of the budget. */
  function Rest(budget: real, c: real, price: Bundle): real
  {
    budget - c * price.cache
  }

  /** How many steps of bandwidth the budget leaves beside a cache share c. */
  function Room(budget: real, c: real, price: Bundle, eps: real): real
    requires eps > 0.0
  {
    StepsIn(Rest(budget, c, price), Max(TINY, price.memBw), eps)
  }

  /** The largest bandwidth, in steps, that the budget leaves beside a cache share c; the
    fair-share column is exempt from the budget. */
  function MaxSteps(budget: real, c: real, price: Bundle, eps: real, steps: nat): int
    requires eps > 0.0
  {
    if Abs(budget - c) < TINY then Trunc(budget / eps)
    else
      var m := Trunc(Room(budget, c, price, eps));
      if steps <= m then steps else m
  }

  function MaxBw(q: Query, i: nat): int
    requires WellFormed(q)
  {
    MaxSteps(q.budget, Size(q, i), q.price, q.eps, Steps(q))
  }

  function Candidate(q: Query, i: nat): Bundle
    requires WellFormed(q)
  {
    Bundle(Size(q, i), Amount(MaxBw(q, i), q.eps))
  }

  /** The bandwidth that two cache steps are worth. */
  function Exchange(eps: real, price: Bundle): real
  {
    2.0 * eps * price.cache / Max(TINY, price.memBw)
  }

  function ColumnMargin(q: Query): Bundle
    requires WellFormed(q)
  {
    Bundle(q.eps + TINY, Exchange(q.eps, q.price) + TINY)
  }

  predicate PassesMargin(q: Query, i: nat)
    requires WellFormed(q)
  {
    Within(Candidate(q, i), q.scale, ColumnMargin(q))
  }

  /** What a column offers: its candidate clipped to the upper limits. */
  function Offer(q: Query, i: nat): Bundle
    requires WellFormed(q)
  {
    Clip(Candidate(q, i), q.scale)
  }

  function Utility(q: Query, b: Bundle): real
  {
    q.util(Times(b.cache, q.scale.cache), Times(b.memBw, q.scale.memBw))
  }

  /** Shrinking the cache is penalised. */
  function Score(q: Query, b: Bundle): real
  {
    if q.last.Some? && b.cache < q.last.value.cache then Utility(q, b) / REALLOCATION else Utility(q, b)
  }

  predicate InBudget(q: Query, b: Bundle)
  {
    Cost(b, q.price) * MARGIN_IN_BUDGET <= q.budget
  }

  /** A column whose offer competes for the result. */
  predicate Considered(q: Query, i: nat)
    requires WellFormed(q)
  {
    Searched(q, i) && PassesMargin(q, i) && InBudget(q, Offer(q, i)) && InLimits(Offer(q, i), q.scale)
  }

  function Distance(a: Bundle, b: Bundle): real
  {
    (a.cache - b.cache) * (a.cache - b.cache) + (a.memBw - b.memBw) * (a.memBw - b.memBw)
  }

  /** The best offer is not significantly better than staying near the last allocation. */
  predicate NotWorthMoving(maxUtil: real, closestUtil: real)
  {
    maxUtil / REALLOCATION < closestUtil
  }

  /** The loop's variables: best bundle and its recorded utility, and the offer closest to
    the last allocation with its utility. */
  datatype Found = Found(best: Option<Bundle>, maxUtil: real, closest: Option<Bundle>, closestUtil: real)

  /** Column i is the first whose offer reaches this score, which beats the seed. */
  ghost predicate IsFirstBest(q: Query, seedUtil: real, i: nat, maxUtil: real)
    requires WellFormed(q)
  {
    && Considered(q, i) && maxUtil == Score(q, Offer(q, i)) && seedUtil < maxUtil
    && forall j :: 1 <= j < i && Considered(q, j) ==> Score(q, Offer(q, j)) < maxUtil
  }

  /** `best` is the seed, or the first of the best offers before column `stop` if one beats it. */
  ghost predicate IsBest(q: Query, seed: Option<Bundle>, seedUtil: real, stop: nat, best: Option<Bundle>, maxUtil: real)
    requires WellFormed(q)
  {
    && seedUtil <= maxUtil
    && (forall i :: 1 <= i < stop && Considered(q, i) ==> Score(q, Offer(q, i)) <= maxUtil)
    && ((best == seed && maxUtil == seedUtil)
        || exists i :: 1 <= i < stop && best == Some(Offer(q, i)) && IsFirstBest(q, seedUtil, i, maxUtil))
  }

  /** Column i is the first whose offer is this near to the last allocation. */
  ghost predicate IsFirstClosest(q: Query, i: nat, closest: Bundle, closestUtil: real)
    requires WellFormed(q) && q.last.Some?
  {
    && Considered(q, i) && closest == Offer(q, i) && closestUtil == Score(q, Offer(q, i))
    && forall j :: 1 <= j < i && Considered(q, j) ==> Distance(closest, q.last.value) < Distance(Offer(q, j), q.last.value)
  }

  /** `closest` is the first offer before column `stop` nearest to the last allocation. */
  ghost predicate IsClosest(q: Query, stop: nat, closest: Option<Bundle>, closestUtil: real)
    requires WellFormed(q)
  {
    && (closest.None? ==> q.last.None? || forall i :: 1 <= i < stop ==> !Considered(q, i))
    && (closest.Some? ==>
          && q.last.Some?
          && (exists i :: 1 <= i < stop && IsFirstClosest(q, i, closest.value, closestUtil))
          && (forall i :: 1 <= i < stop && Considered(q, i) ==> Distance(closest.value, q.last.value) <= Distance(Offer(q, i), q.last.value)))
  }

  lemma OfferKeepsMaxima(b: Bundle, s: Scale)
    requires s.cache > 0.0 && s.memBw > 0.0
    ensures !HighCache(Clip(b, s), s, NO_MARGIN) && !HighBw(Clip(b, s), s, NO_MARGIN)
  {
    assert Clip(b, s).cache * s.cache == Capped(b.cache * s.cache, s.maxCache);
    assert Clip(b, s).memBw * s.memBw == Capped(b.memBw * s.memBw, s.maxMemBw);
  }

  lemma UnsearchedNotConsidered(q: Query, i: nat)
    requires WellFormed(q) && !Searched(q, i)
    ensures !Considered(q, i)
  {
  }

  lemma BestAdvance(q: Query, seed: Option<Bundle>, seedUtil: real, i: nat, best: Option<Bundle>, maxUtil: real)
    requires WellFormed(q) && i >= 1 && IsBest(q, seed, seedUtil, i, best, maxUtil)
    ensures !Considered(q, i) || Score(q, Offer(q, i)) <= maxUtil ==> IsBest(q, seed, seedUtil, i + 1, best, maxUtil)
    ensures Considered(q, i) && Score(q, Offer(q, i)) > maxUtil ==>
              IsBest(q, seed, seedUtil, i + 1, Some(Offer(q, i)), Score(q, Offer(q, i)))
  {
    hide Considered, Score, Offer;
    if Considered(q, i) && Score(q, Offer(q, i)) > maxUtil {
      assert IsFirstBest(q, seedUtil, i, Score(q, Offer(q, i)));
    }
  }

  lemma ClosestAdvance(q: Query, i: nat, closest: Option<Bundle>, closestUtil: real)
    requires WellFormed(q) && i >= 1 && IsClosest(q, i, closest, closestUtil)
    ensures !Considered(q, i) || q.last.None? ==> IsClosest(q, i + 1, closest, closestUtil)
    ensures Considered(q, i) && q.last.Some? && closest.Some? && Distance(closest.value, q.last.value) <= Distance(Offer(q, i), q.last.value) ==>
              IsClosest(q, i + 1, closest, closestUtil)
    ensures Considered(q, i) && q.last.Some? && (closest.None? || Distance(Offer(q, i), q.last.value) < Distance(closest.value, q.last.value)) ==>
              IsClosest(q, i + 1, Some(Offer(q, i)), Score(q, Offer(q, i)))
  {
    hide Considered, Score, Offer, Distance;
    if Considered(q, i) && q.last.Some? && (closest.None? || Distance(Offer(q, i), q.last.value) < Distance(closest.value, q.last.value)) {
      assert IsFirstClosest(q, i, Offer(q, i), Score(q, Offer(q, i)));
    }
  }

  // ----- limits that are hit ------------------------------------------------------

  /** The offer of column i passes the margin and the budget and would improve on maxUtil. */
  predicate Tempts(q: Query, i: nat, maxUtil: real)
    requires WellFormed(q)
  {
    PassesMargin(q, i) && InBudget(q, Offer(q, i)) && Score(q, Offer(q, i)) > maxUtil
  }

  /** Such an offer that is below the least cache, or has enough cache and is below the least
    bandwidth. */
  predicate HitsCacheMin(q: Query, i: nat, maxUtil: real)
    requires WellFormed(q)
  {
    Tempts(q, i, maxUtil) && LowCache(Offer(q, i), q.scale, NO_MARGIN)
  }

  predicate HitsBwMin(q: Query, i: nat, maxUtil: real)
    requires WellFormed(q)
  {
    Tempts(q, i, maxUtil) && !LowCache(Offer(q, i), q.scale, NO_MARGIN) && LowBw(Offer(q, i), q.scale, NO_MARGIN)
  }

  /** The best score before column i, or the seed's. */
  function BestUtil(q: Query, seedUtil: real, i: nat): real
    requires WellFormed(q)
  {
    if i <= 1 then seedUtil
    else
      var best := BestUtil(q, seedUtil, i - 1);
      if Considered(q, i - 1) && Score(q, Offer(q, i - 1)) > best then Score(q, Offer(q, i - 1)) else best
  }

  predicate Improves(q: Query, seedUtil: real, i: nat)
    requires WellFormed(q)
  {
    Considered(q, i) && Score(q, Offer(q, i)) > BestUtil(q, seedUtil, i)
  }

  /** Some column before `stop` hit a limit, against the best recorded before it. */
  predicate CacheHit(q: Query, seedUtil: real, stop: nat)
    requires WellFormed(q)
  {
    exists i :: 1 <= i < stop && Searched(q, i) && HitsCacheMin(q, i, BestUtil(q, seedUtil, i))
  }

  predicate BwHit(q: Query, seedUtil: real, stop: nat)
    requires WellFormed(q)
  {
    exists i :: 1 <= i < stop && Searched(q, i) && HitsBwMin(q, i, BestUtil(q, seedUtil, i))
  }

  /** The loop is left before column n because column n - 1 improved after a limit was hit. */
  predicate LeavesBefore(q: Query, seedUtil: real, n: nat)
    requires WellFormed(q)
  {
    n > 1 && Improves(q, seedUtil, n - 1) && (CacheHit(q, seedUtil, n - 1) || BwHit(q, seedUtil, n - 1))
  }

  predicate TooExpensive(q: Query, n: nat)
  {
    Searched(q, n) && Unaffordable(q, n)
  }

  /** `stop` is where the loop ends: the first column that is too expensive or before which the
    loop is left, or the end of the grid. */
  predicate StopsThere(q: Query, seedUtil: real, stop: nat)
    requires WellFormed(q)
  {
    && (forall n :: 1 <= n < stop ==> !TooExpensive(q, n) && !LeavesBefore(q, seedUtil, n))
    && (stop <= Steps(q) ==> TooExpensive(q, stop) || LeavesBefore(q, seedUtil, stop))
  }

  /** Columns within the search range before column n. */
  function SearchedBefore(q: Query, n: nat): nat
  {
    if n <= 1 then 0 else SearchedBefore(q, n - 1) + if Searched(q, n - 1) then 1 else 0
  }

  lemma NoHitsYet(q: Query, seedUtil: real)
    requires WellFormed(q)
    ensures !CacheHit(q, seedUtil, 1) && !BwHit(q, seedUtil, 1) && BestUtil(q, seedUtil, 1) == seedUtil && SearchedBefore(q, 1) == 0
    ensures !LeavesBefore(q, seedUtil, 1)
  {
  }

  lemma HitsNext(q: Query, seedUtil: real, i: nat)
    requires WellFormed(q) && i >= 1
    ensures CacheHit(q, seedUtil, i + 1) <==> CacheHit(q, seedUtil, i) || (Searched(q, i) && HitsCacheMin(q, i, BestUtil(q, seedUtil, i)))
    ensures BwHit(q, seedUtil, i + 1) <==> BwHit(q, seedUtil, i) || (Searched(q, i) && HitsBwMin(q, i, BestUtil(q, seedUtil, i)))
    ensures SearchedBefore(q, i + 1) == SearchedBefore(q, i) + if Searched(q, i) then 1 else 0
  {
    hide HitsCacheMin, HitsBwMin, BestUtil, Searched;
  }

  lemma BestNext(q: Query, seedUtil: real, i: nat)
    requires WellFormed(q) && i >= 1
    ensures BestUtil(q, seedUtil, i + 1) == if Improves(q, seedUtil, i) then Score(q, Offer(q, i)) else BestUtil(q, seedUtil, i)
    ensures LeavesBefore(q, seedUtil, i + 1) <==> Improves(q, seedUtil, i) && (CacheHit(q, seedUtil, i) || BwHit(q, seedUtil, i))
    ensures Improves(q, seedUtil, i) <==> Considered(q, i) && Score(q, Offer(q, i)) > BestUtil(q, seedUtil, i)
  {
    hide Considered, Score, Offer, CacheHit, BwHit;
  }

  /** An offer within the limits hits none. */
  lemma ConsideredHitsNone(q: Query, i: nat, maxUtil: real)
    requires WellFormed(q) && Considered(q, i)
    ensures !HitsCacheMin(q, i, maxUtil) && !HitsBwMin(q, i, maxUtil)
  {
    hide Offer, LowCache, LowBw, HighCache, HighBw, PassesMargin, InBudget, Searched;
  }

  /** The two limit checks of one column.  The offer is considered exactly when both pass; a lower
    limit is recorded exactly when an offer that would improve is below it, that of the cache
    first. */
  method CheckColumn(q: Query, i: nat, maxUtil: real, limited: ResourceLimited) returns (ok: bool)
    requires WellFormed(q) && Searched(q, i)
    modifies limited
    ensures ok <==> Considered(q, i)
    ensures limited.cacheMax == old(limited.cacheMax) && limited.memBwMax == old(limited.memBwMax)
    ensures limited.cacheMin == (old(limited.cacheMin) || HitsCacheMin(q, i, maxUtil))
    ensures limited.memBwMin == (old(limited.memBwMin) || HitsBwMin(q, i, maxUtil))
  {
    OfferKeepsMaxima(Candidate(q, i), q.scale);
    assert Offer(q, i) == Clip(Candidate(q, i), q.scale);
    hide Candidate, ColumnMargin, Offer, Score, InBudget, LowCache, HighCache, LowBw, HighBw, Clip, Searched;
    var scratch := new ResourceLimited();
    var near := CheckResourceLimits(Candidate(q, i), q.scale, ColumnMargin(q), false, scratch);
    if !near {
      return false;
    }
    if !InBudget(q, Offer(q, i)) {
      return false;
    }
    ok := CheckResourceLimits(Offer(q, i), q.scale, NO_MARGIN, Score(q, Offer(q, i)) > maxUtil, limited);
  }

  /** What the loop has recorded after the columns before `stop`. */
  ghost predicate Tracks(q: Query, seed: Option<Bundle>, seedUtil: real, stop: nat, f: Found)
    requires WellFormed(q)
  {
    IsBest(q, seed, seedUtil, stop, f.best, f.maxUtil) && IsClosest(q, stop, f.closest, f.closestUtil)
  }

  lemma NothingExamined(q: Query, seed: Option<Bundle>, seedUtil: real)
    requires WellFormed(q)
    ensures Tracks(q, seed, seedUtil, 1, Found(seed, seedUtil, None, 0.0))
  {
  }

  lemma TracksSkip(q: Query, seed: Option<Bundle>, seedUtil: real, i: nat, f: Found)
    requires WellFormed(q) && i >= 1 && Tracks(q, seed, seedUtil, i, f) && !Considered(q, i)
    ensures Tracks(q, seed, seedUtil, i + 1, f)
  {
    BestAdvance(q, seed, seedUtil, i, f.best, f.maxUtil);
    ClosestAdvance(q, i, f.closest, f.closestUtil);
  }

  /** Compare a considered offer with what was recorded. */
  method Record(q: Query, ghost seed: Option<Bundle>, ghost seedUtil: real, i: nat, f: Found) returns (f': Found, better: bool)
    requires WellFormed(q) && i >= 1 && Tracks(q, seed, seedUtil, i, f) && Considered(q, i)
    ensures Tracks(q, seed, seedUtil, i + 1, f')
    ensures better <==> Score(q, Offer(q, i)) > f.maxUtil
    ensures better ==> f'.best == Some(Offer(q, i)) && f'.maxUtil == Score(q, Offer(q, i))
    ensures !better ==> f'.best == f.best && f'.maxUtil == f.maxUtil
  {
    BestAdvance(q, seed, seedUtil, i, f.best, f.maxUtil);
    ClosestAdvance(q, i, f.closest, f.closestUtil);
    hide Considered, Offer, Score, Distance, IsBest, IsClosest, WellFormed;
    f' := f;
    var offer := Offer(q, i);
    var estUtil := Score(q, offer);
    if q.last.Some? && (f.closest.None? || Distance(offer, q.last.value) < Distance(f.closest.value, q.last.value)) {
      f' := f'.(closest := Some(offer), closestUtil := estUtil);
    }
    better := estUtil > f.maxUtil;
    if better {
      f' := f'.(best := Some(offer), maxUtil := estUtil);
    }
  }

  /** The preference for the last allocation, applied to what the loop found. */
  function Settle(f: Found): (r: (Option<Bundle>, real))
  {
    if f.closest.Some? && NotWorthMoving(f.maxUtil, f.closestUtil) then (f.closest, f.closestUtil) else (f.best, f.maxUtil)
  }

  /** The offer nearest to the last allocation is preferred exactly if the best one is not better
    by more than the reallocation threshold. */
  lemma SettlePrefersNear(f: Found)
    ensures f.closest.Some? && f.maxUtil < 1.005 * f.closestUtil ==> Settle(f) == (f.closest, f.closestUtil)
    ensures f.closest.None? || f.maxUtil >= 1.005 * f.closestUtil ==> Settle(f) == (f.best, f.maxUtil)
  {
    assert f.maxUtil / 1.005 < f.closestUtil <==> f.maxUtil < 1.005 * f.closestUtil;
  }

  /** The sweep loop.  `stop` is the first column that was not examined to the end: past the
    grid, too expensive, or after the first improvement that follows a limit being hit. */
  method SweepColumns(q: Query, seed: Option<Bundle>, seedUtil: real)
    returns (best: Option<Bundle>, util: real, found: Found, stop: nat, checked: nat, limited: ResourceLimited)
    requires WellFormed(q)
    ensures fresh(limited) && !limited.cacheMax && !limited.memBwMax
    ensures limited.cacheMin <==> CacheHit(q, seedUtil, stop)
    ensures limited.memBwMin <==> BwHit(q, seedUtil, stop)
    ensures 1 <= stop <= Steps(q) + 1 && StopsThere(q, seedUtil, stop)
    ensures checked == SearchedBefore(q, stop) + if stop <= Steps(q) && !LeavesBefore(q, seedUtil, stop) then 1 else 0
    ensures Tracks(q, seed, seedUtil, stop, found) && found.maxUtil == BestUtil(q, seedUtil, stop)
    ensures found.closest.Some? && found.maxUtil < 1.005 * found.closestUtil ==> best == found.closest && util == found.closestUtil
    ensures found.closest.None? || found.maxUtil >= 1.005 * found.closestUtil ==> best == found.best && util == found.maxUtil
    ensures (best, util) == Settle(found)
  {
    hide *;
    limited := new ResourceLimited();
    checked := 0;
    found := Found(seed, seedUtil, None, 0.0);
    stop := 1;
    NothingExamined(q, seed, seedUtil);
    NoHitsYet(q, seedUtil);
    while stop <= Steps(q)
      invariant 1 <= stop <= Steps(q) + 1 && checked == SearchedBefore(q, stop)
      invariant fresh(limited) && !limited.cacheMax && !limited.memBwMax
      invariant limited.cacheMin <==> CacheHit(q, seedUtil, stop)
      invariant limited.memBwMin <==> BwHit(q, seedUtil, stop)
      invariant forall n :: 1 <= n < stop ==> !TooExpensive(q, n) && !LeavesBefore(q, seedUtil, n)
      invariant !LeavesBefore(q, seedUtil, stop)
      invariant Tracks(q, seed, seedUtil, stop, found) && found.maxUtil == BestUtil(q, seedUtil, stop)
    {
      HitsNext(q, seedUtil, stop);
      BestNext(q, seedUtil, stop);
      ExpensiveIs(q, stop);
      if !Searched(q, stop) {
        UnsearchedNotConsidered(q, stop);
        TracksSkip(q, seed, seedUtil, stop, found);
        stop := stop + 1;
        continue;
      }
      checked := checked + 1;
      if Unaffordable(q, stop) {
        break;
      }
      var ok := CheckColumn(q, stop, found.maxUtil, limited);
      if !ok {
        TracksSkip(q, seed, seedUtil, stop, found);
        stop := stop + 1;
        continue;
      }
      ConsideredHitsNone(q, stop, found.maxUtil);
      var better;
      found, better := Record(q, seed, seedUtil, stop, found);
      stop := stop + 1;
      LimitedIs(limited);
      if better && limited.IsLimited() {
        break;
      }
    }
    StopsIs(q, seedUtil, stop);
    SettlePrefersNear(found);
    var settled := Settle(found);
    best, util := settled.0, settled.1;
  }

  lemma ExpensiveIs(q: Query, i: nat)
    ensures TooExpensive(q, i) <==> Searched(q, i) && Unaffordable(q, i)
  {
  }

  lemma LimitedIs(limited: ResourceLimited)
    ensures limited.IsLimited() <==> limited.cacheMin || limited.cacheMax || limited.memBwMin || limited.memBwMax
  {
  }

  lemma StopsIs(q: Query, seedUtil: real, stop: nat)
    requires WellFormed(q)
    requires forall n :: 1 <= n < stop ==> !TooExpensive(q, n) && !LeavesBefore(q, seedUtil, n)
    requires stop <= Steps(q) ==> TooExpensive(q, stop) || LeavesBefore(q, seedUtil, stop)
    ensures StopsThere(q, seedUtil, stop)
  {
  }
}
