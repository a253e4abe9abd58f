/** The sweep against the full two-dimensional grid, and its budget. */
module SweepTheorems {
  import opened Basics
  import opened RealMath
  import opened Sweep

  /** Prices on the market's line, a budget worth searching. */
  predicate Market(q: Query)
  {
    && WellFormed(q) && 0.0 <= q.price.cache && 0.0 <= q.price.memBw && q.price.cache + q.price.memBw == 1.0
    && 0.00004 <= q.budget <= 1.0
  }

  // ----- budget -------------------------------------------------------------------

  lemma ClipOnlyLowers(b: Bundle, s: Scale)
    requires s.cache > 0.0 && s.memBw > 0.0
    ensures Clip(b, s).cache <= b.cache && Clip(b, s).memBw <= b.memBw
    ensures !HighCache(b, s, NO_MARGIN) ==> Clip(b, s).cache == b.cache
    ensures !HighBw(b, s, NO_MARGIN) ==> Clip(b, s).memBw == b.memBw
  {
    CapScaled(b.cache, s.cache, s.maxCache);
    CapScaled(b.memBw, s.memBw, s.maxMemBw);
  }

  /** What exceeds a limit is clipped to just that limit. */
  lemma ClipReachesLimit(b: Bundle, s: Scale)
    requires s.cache > 0.0 && s.memBw > 0.0
    ensures HighCache(b, s, NO_MARGIN) ==> Clip(b, s).cache * s.cache == s.maxCache.bound
    ensures HighBw(b, s, NO_MARGIN) ==> Clip(b, s).memBw * s.memBw == s.maxMemBw.bound
  {
    var c, m := Capped(b.cache * s.cache, s.maxCache), Capped(b.memBw * s.memBw, s.maxMemBw);
    assert c / s.cache * s.cache == c && m / s.memBw * s.memBw == m;
  }

  /** An allocation is worth its estimate, or 1.005 times less if it takes cache away. */
  lemma ScoreIs(q: Query, b: Bundle)
    ensures var worth := q.util(b.cache * q.scale.cache, b.memBw * q.scale.memBw);
            && (q.last.None? || b.cache >= q.last.value.cache ==> Score(q, b) == worth)
            && (q.last.Some? && b.cache < q.last.value.cache ==> Score(q, b) * 1.005 == worth)
  {
    assert Times(b.cache, q.scale.cache) == b.cache * q.scale.cache && Times(b.memBw, q.scale.memBw) == b.memBw * q.scale.memBw;
    assert Utility(q, b) == q.util(b.cache * q.scale.cache, b.memBw * q.scale.memBw);
  }

  /** The grid: columns are cache steps, searched within the range and paid from the budget. */
  lemma GridIs(q: Query, i: nat)
    requires WellFormed(q)
    ensures Searched(q, i) <==> q.lo <= i as real * q.eps && i as real * q.eps <= q.hi
    ensures Unaffordable(q, i) <==> i as real * q.eps * q.price.cache > q.budget
    ensures Steps(q) as real <= 1.0 / q.eps < Steps(q) as real + 1.0
  {
  }

  /** Nearness to the last allocation is the squared distance in both resources, zero only there. */
  lemma DistanceIsDistance(a: Bundle, b: Bundle, x: real, y: real)
    requires x == a.cache - b.cache && y == a.memBw - b.memBw
    ensures Distance(a, b) == x * x + y * y && Distance(a, b) >= 0.0 && (Distance(a, b) == 0.0 <==> a == b)
  {
    SquareIs(x);
    SquareIs(y);
    ZeroSum(x, y, x * x, y * y);
    assert a == b <==> x == 0.0 && y == 0.0;
  }

  lemma ZeroSum(x: real, y: real, p: real, q: real)
    requires IsZeroWith(x, p) && IsZeroWith(y, q)
    ensures p + q >= 0.0 && (p + q == 0.0 <==> x == 0.0 && y == 0.0)
  {
  }

  predicate IsZeroWith(x: real, p: real)
  {
    if x == 0.0 then p == 0.0 else p > 0.0
  }

  lemma SquareIs(x: real)
    ensures IsZeroWith(x, x * x)
  {
    if x > 0.0 {
      MulStrict(0.0, x, x);
    } else if x < 0.0 {
      MulStrict(x, 0.0, -x);
    }
  }

  /** The column of the fair share is given the fair share of bandwidth; every other column gets
    at most the whole. */
  lemma FairShareColumn(q: Query, i: nat)
    requires WellFormed(q)
    ensures Abs(q.budget - i as real * q.eps) < 0.000001 ==> Candidate(q, i) == Bundle(i as real * q.eps, Trunc(q.budget / q.eps) as real * q.eps)
    ensures Abs(q.budget - i as real * q.eps) >= 0.000001 ==> MaxBw(q, i) <= Trunc(1.0 / q.eps)
  {
  }

  /** The margin of the first check: a cache step, and the bandwidth two cache steps are worth. */
  lemma MarginIs(q: Query, i: nat)
    requires WellFormed(q)
    ensures var c, m := Candidate(q, i), 2.0 * q.eps * q.price.cache / Max(0.000001, q.price.memBw) + 0.000001;
            PassesMargin(q, i) <==>
              && (c.cache + q.eps + 0.000001) * q.scale.cache >= q.scale.minCache
              && (q.scale.maxCache.AtMost? ==> (c.cache - q.eps - 0.000001) * q.scale.cache <= q.scale.maxCache.bound)
              && (c.memBw + m) * q.scale.memBw >= q.scale.minMemBw
              && (q.scale.maxMemBw.AtMost? ==> (c.memBw - m) * q.scale.memBw <= q.scale.maxMemBw.bound)
  {
    hide Candidate, Exchange;
    var c, m := Candidate(q, i), ColumnMargin(q);
    ExchangeIs(q.eps, q.price);
    Spread(c.cache, m.cache, q.scale.cache);
    Spread(c.memBw, m.memBw, q.scale.memBw);
  }

  lemma ExchangeIs(eps: real, price: Bundle)
    ensures Exchange(eps, price) == 2.0 * eps * price.cache / Max(0.000001, price.memBw)
  {
  }

  lemma Spread(x: real, m: real, s: real)
    ensures (x + m) * s == x * s + m * s && (x - m) * s == x * s - m * s
  {
  }

  lemma CapScaled(x: real, s: real, l: Limit)
    requires s > 0.0
    ensures Capped(x * s, l) / s <= x
    ensures !Exceeds(x * s, l) ==> Capped(x * s, l) / s == x
  {
    assert (x * s) / s == x;
    DivMono(Capped(x * s, l), x * s, s);
  }

  lemma CostMonotone(a: Bundle, b: Bundle, price: Bundle)
    requires a.cache <= b.cache && a.memBw <= b.memBw && price.cache >= 0.0 && price.memBw >= 0.0
    ensures Cost(a, price) <= Cost(b, price)
  {
    MulMono(a.cache, b.cache, price.cache);
    MulMono(a.memBw, b.memBw, price.memBw);
  }

  /** Whole steps of size e out of rest / p / e, at a price p' <= p, fit the rest. */
  lemma StepsFitRest(rest: real, p: real, p': real, e: real, n: int)
    requires rest >= 0.0 && p > 0.0 && 0.0 <= p' <= p && e > 0.0 && n as real <= StepsIn(rest, p, e)
    ensures Amount(n, e) * p' <= rest
  {
    var x, b := rest / p, n as real * e;
    assert x >= 0.0 && x * p == rest;
    assert (x / e - n as real) * e >= 0.0;
    assert (x / e) * e == x;
    assert (x - b) * p' >= 0.0;
    assert (p - p') * x >= 0.0;
  }

  lemma RoomNonNegative(budget: real, c: real, price: Bundle, e: real)
    requires e > 0.0 && c * price.cache <= budget
    ensures Room(budget, c, price, e) >= 0.0
  {
    var x := Rest(budget, c, price) / Max(TINY, price.memBw);
    assert x >= 0.0;
    assert x / e >= 0.0;
  }

  lemma RegularCost(budget: real, c: real, price: Bundle, e: real, n: int)
    requires e > 0.0 && price.memBw >= 0.0 && c * price.cache <= budget && n as real <= Room(budget, c, price, e)
    ensures Cost(Bundle(c, Amount(n, e)), price) <= budget
  {
    hide StepsIn;
    StepsFitRest(Rest(budget, c, price), Max(TINY, price.memBw), price.memBw, e, n);
  }

  lemma FairShareFits(budget: real, e: real, n: int)
    requires e > 0.0 && n as real <= budget / e
    ensures Amount(n, e) <= budget
  {
    var x := budget / e;
    assert x * e == budget;
    assert (x - n as real) * e >= 0.0;
  }

  lemma FairCost(budget: real, b: Bundle, price: Bundle)
    requires budget >= 0.0 && price.cache >= 0.0 && price.memBw >= 0.0 && price.cache + price.memBw == 1.0
    requires Abs(budget - b.cache) < TINY && b.memBw <= budget
    ensures Cost(b, price) <= budget + TINY
  {
    WeightedBound(budget + TINY, b.cache, b.memBw, price.cache, price.memBw);
  }

  lemma QuotientNonNegative(a: real, b: real)
    requires a >= 0.0 && b > 0.0
    ensures a / b >= 0.0
  {
  }

  lemma CandidateCost(q: Query, i: nat)
    requires Market(q) && !Unaffordable(q, i)
    ensures MaxBw(q, i) >= 0
    ensures Cost(Candidate(q, i), q.price) <= q.budget + TINY
    ensures Abs(q.budget - Size(q, i)) >= TINY ==> Cost(Candidate(q, i), q.price) <= q.budget
  {
    hide Room, Amount, Steps, Cost;
    if Abs(q.budget - Size(q, i)) < TINY {
      QuotientNonNegative(q.budget, q.eps);
      FairShareFits(q.budget, q.eps, MaxBw(q, i));
      FairCost(q.budget, Candidate(q, i), q.price);
    } else {
      RoomNonNegative(q.budget, Size(q, i), q.price, q.eps);
      RegularCost(q.budget, Size(q, i), q.price, q.eps, MaxBw(q, i));
    }
  }

  /** Every offer the loop reaches costs at most the margined budget plus one millionth, so
    the out-of-budget branch is never taken. */
  lemma OffersFitBudget(q: Query, i: nat)
    requires Market(q) && !Unaffordable(q, i)
    ensures Cost(Offer(q, i), q.price) <= q.budget + TINY
    ensures InBudget(q, Offer(q, i))
  {
    CandidateCost(q, i);
    ClipOnlyLowers(Candidate(q, i), q.scale);
    CostMonotone(Offer(q, i), Candidate(q, i), q.price);
  }

  // ----- the sweep refines grid search --------------------------------------------

  /** A point of the full grid. */
  function Pair(q: Query, i: nat, j: nat): Bundle
  {
    Bundle(Size(q, i), Amount(j, q.eps))
  }

  ghost predicate MonotoneInBw(q: Query)
  {
    forall c, b1, b2 :: b1 <= b2 ==> q.util(c, b1) <= q.util(c, b2)
  }

  /** Along the grid row with j steps of bandwidth the utility is available and never falls. */
  predicate RowRises(q: Query, j: nat)
    requires WellFormed(q)
  {
    forall i :: 1 <= i < Steps(q) ==> 0.0 <= RowUtility(q, i, j) <= RowUtility(q, i + 1, j)
  }

  function RowUtility(q: Query, i: nat, j: nat): real
  {
    Utility(q, Pair(q, i, j))
  }

  predicate Affordable(q: Query, b: Bundle)
  {
    Cost(b, q.price) <= q.budget
  }

  /** The column that counts as the fair share, if any, is exactly the fair share. */
  predicate FairOnGrid(q: Query, i: nat)
  {
    Abs(q.budget - Size(q, i)) < TINY ==> Size(q, i) == q.budget
  }

  /** A grid pair the search is meant to cover. */
  predicate Eligible(q: Query, i: nat, j: nat)
    requires WellFormed(q)
  {
    1 <= i <= Steps(q) && j <= Steps(q) && Searched(q, i) && Affordable(q, Pair(q, i, j)) && InLimits(Pair(q, i, j), q.scale)
  }

  lemma StepsInLowerBound(money: real, p: real, e: real, n: int)
    requires p > 0.0 && e > 0.0 && Amount(n, e) * p <= money
    ensures n as real <= StepsIn(money, p, e)
  {
    var x, b := money / p, n as real * e;
    CancelLe(b, x, p, b * p, x * p);
    CancelLe(n as real, x / e, e, b, x);
  }

  lemma AffordableRoom(budget: real, c: real, price: Bundle, e: real, j: nat)
    requires e > 0.0 && price.memBw >= TINY && Cost(Bundle(c, Amount(j, e)), price) <= budget
    ensures j as real <= Room(budget, c, price, e)
  {
    hide StepsIn, Amount;
    StepsInLowerBound(Rest(budget, c, price), price.memBw, e, j);
  }

  /** Spending the whole fair share on cache leaves exactly the same share of bandwidth. */
  lemma FairRoom(budget: real, price: Bundle, b: real)
    requires price.memBw > 0.0 && price.cache + price.memBw == 1.0 && Cost(Bundle(budget, b), price) <= budget
    ensures b <= budget
  {
    calc {
      b * price.memBw;
      <= budget - budget * price.cache;
      == budget * (price.cache + price.memBw) - budget * price.cache;
      == budget * price.memBw;
    }
    CancelLe(b, budget, price.memBw, b * price.memBw, budget * price.memBw);
  }

  lemma FairSteps(budget: real, e: real, j: nat)
    requires e > 0.0 && Amount(j, e) <= budget
    ensures j as real <= budget / e
  {
    CancelLe(j as real, budget / e, e, j as real * e, budget);
  }

  lemma TruncLowerBound(z: real, j: nat)
    requires j as real <= z
    ensures j <= Trunc(z)
  {
  }

  /** The single bandwidth tried in a column is the largest affordable one on the grid. */
  lemma MaxBwIsLargest(q: Query, i: nat, j: nat)
    requires Market(q) && q.price.memBw >= TINY && FairOnGrid(q, i) && j <= Steps(q) && Affordable(q, Pair(q, i, j))
    ensures j <= MaxBw(q, i)
  {
    hide Room, Amount, Cost;
    if Abs(q.budget - Size(q, i)) < TINY {
      FairRoom(q.budget, q.price, Amount(j, q.eps));
      FairSteps(q.budget, q.eps, j);
      TruncLowerBound(q.budget / q.eps, j);
    } else {
      AffordableRoom(q.budget, Size(q, i), q.price, q.eps, j);
      TruncLowerBound(Room(q.budget, Size(q, i), q.price, q.eps), j);
    }
  }

  lemma AmountMonotone(m: int, n: int, e: real)
    requires m <= n && e > 0.0
    ensures Amount(m, e) <= Amount(n, e)
  {
    ProductLe(m as real, n as real, e, Amount(m, e), Amount(n, e));
  }

  lemma CappedAbove(b: real, x: real, s: real, l: Limit)
    requires s > 0.0 && b <= x && !Exceeds(b * s, l)
    ensures b <= Capped(x * s, l) / s
  {
    var bs, xs := b * s, x * s;
    ProductLe(b, x, s, bs, xs);
    CancelLe(b, Capped(xs, l) / s, s, bs, Capped(xs, l));
  }

  /** Clipping keeps a bundle above every in-limit bundle with the same cache below it. */
  lemma ClipStaysAbove(a: Bundle, b: Bundle, s: Scale)
    requires s.cache > 0.0 && s.memBw > 0.0 && InLimits(a, s) && a.cache == b.cache && a.memBw <= b.memBw
    ensures Clip(b, s).cache == a.cache && Clip(b, s).memBw >= a.memBw
    ensures InLimits(Clip(b, s), s)
  {
    ClipOnlyLowers(b, s);
    CappedAbove(a.memBw, b.memBw, s.memBw, s.maxMemBw);
    OfferKeepsMaxima(b, s);
    assert (Clip(b, s).memBw - a.memBw) * s.memBw >= 0.0;
  }

  lemma PairIsReachable(q: Query, b: Bundle)
    requires q.price.memBw >= 0.0 && b.memBw >= 0.0 && Affordable(q, b)
    ensures b.cache * q.price.cache <= q.budget
  {
    assert b.memBw * q.price.memBw >= 0.0;
  }

  lemma ScoreMonotone(q: Query, a: Bundle, b: Bundle)
    requires q.scale.memBw > 0.0 && MonotoneInBw(q) && a.cache == b.cache && a.memBw <= b.memBw
    ensures Score(q, a) <= Score(q, b)
  {
    ProductLe(a.memBw, b.memBw, q.scale.memBw, Times(a.memBw, q.scale.memBw), Times(b.memBw, q.scale.memBw));
    assert Utility(q, a) <= Utility(q, b);
  }

  lemma AmountNonNegative(n: nat, e: real)
    requires e > 0.0
    ensures Amount(n, e) >= 0.0
  {
  }

  lemma CandidateAbovePair(q: Query, i: nat, j: nat)
    requires Market(q) && q.price.memBw >= TINY && FairOnGrid(q, i) && j <= Steps(q) && Affordable(q, Pair(q, i, j))
    ensures Candidate(q, i).cache == Pair(q, i, j).cache && Candidate(q, i).memBw >= Pair(q, i, j).memBw
    ensures !Unaffordable(q, i)
  {
    MaxBwIsLargest(q, i, j);
    AmountMonotone(j, MaxBw(q, i), q.eps);
    AmountNonNegative(j, q.eps);
    PairIsReachable(q, Pair(q, i, j));
  }

  /** In a column that passes the margin check, the offer is considered and scores at least
    as much as every eligible pair of the column. */
  lemma OfferDominatesColumn(q: Query, i: nat, j: nat)
    requires Market(q) && q.price.memBw >= TINY && FairOnGrid(q, i) && MonotoneInBw(q)
    requires Eligible(q, i, j) && PassesMargin(q, i)
    ensures Considered(q, i) && Score(q, Pair(q, i, j)) <= Score(q, Offer(q, i))
  {
    hide Cost, Candidate, InLimits, InBudget, Clip, Score, Steps, Searched, PassesMargin, Affordable, Pair, FairOnGrid, MonotoneInBw, Unaffordable;
    CandidateAbovePair(q, i, j);
    ClipStaysAbove(Pair(q, i, j), Candidate(q, i), q.scale);
    OffersFitBudget(q, i);
    ScoreMonotone(q, Pair(q, i, j), Offer(q, i));
  }

  /** What the loop recorded bounds every eligible pair of every column it examined. */
  lemma RecordedBoundsGrid(q: Query, seed: Option<Bundle>, seedUtil: real, stop: nat, f: Found, i: nat, j: nat)
    requires Market(q) && q.price.memBw >= TINY && FairOnGrid(q, i) && MonotoneInBw(q)
    requires Tracks(q, seed, seedUtil, stop, f) && i < stop && Eligible(q, i, j) && PassesMargin(q, i)
    ensures Score(q, Pair(q, i, j)) <= f.maxUtil
  {
    OfferDominatesColumn(q, i, j);
    hide Score, Offer, Considered, Pair, PassesMargin, Steps, Searched, Affordable, InLimits;
  }

  lemma SizeMonotone(q: Query, i: nat, k: nat)
    requires WellFormed(q) && i <= k
    ensures Size(q, i) <= Size(q, k)
  {
    AmountMonotone(i, k, q.eps);
  }

  /** Columns from the first unaffordable one on hold no affordable pair. */
  lemma NothingBeyondBudget(q: Query, stop: nat, i: nat, j: nat)
    requires Market(q) && Unaffordable(q, stop) && stop <= i
    ensures !Affordable(q, Pair(q, i, j))
  {
    SizeMonotone(q, stop, i);
    AmountNonNegative(j, q.eps);
    ProductLe(Size(q, stop), Size(q, i), q.price.cache, Size(q, stop) * q.price.cache, Size(q, i) * q.price.cache);
    assert Amount(j, q.eps) * q.price.memBw >= 0.0;
  }

  lemma SettleLosesLittle(f: Found, x: real)
    requires x <= f.maxUtil
    ensures Settle(f).1 >= Discounted(x)
  {
  }

  /** What the preference for the last allocation can cost: a factor 1.005 of a utility, and
    nothing of the negative value that marks an unavailable estimate. */
  function Discounted(x: real): real
  {
    Min(x, x / REALLOCATION)
  }

  /** The main result on the sweep: unless it was left early because of a violated limit, the
    utility it reports is at least 1 / 1.005 of the score of every affordable in-limit pair of
    the whole two-dimensional grid whose column is searched and passes the margin check. */
  lemma SweepRefinesGridSearch(q: Query, seed: Option<Bundle>, seedUtil: real, stop: nat, f: Found, i: nat, j: nat)
    requires Market(q) && q.price.memBw >= TINY && FairOnGrid(q, i) && MonotoneInBw(q)
    requires Tracks(q, seed, seedUtil, stop, f) && (stop <= Steps(q) ==> Unaffordable(q, stop))
    requires Eligible(q, i, j) && PassesMargin(q, i)
    ensures Settle(f).1 >= Discounted(Score(q, Pair(q, i, j)))
  {
    if i >= stop {
      NothingBeyondBudget(q, stop, i, j);
      assert false;
    }
    RecordedBoundsGrid(q, seed, seedUtil, stop, f, i, j);
    hide Score, Pair, Eligible, PassesMargin, Settle, IsClosest, Discounted;
    SettleLosesLittle(f, Score(q, Pair(q, i, j)));
  }

  /** A utility that is not negative is never overstated: the returned bundle attains what is
    reported, if the seed does. */
  lemma ReportedIsAttained(q: Query, seed: Option<Bundle>, seedUtil: real, stop: nat, f: Found)
    requires WellFormed(q) && Tracks(q, seed, seedUtil, stop, f) && Settle(f).1 > 0.0
    requires if seed.Some? then seedUtil <= Utility(q, seed.value) else seedUtil == 0.0
    ensures Settle(f).0.Some? && Utility(q, Settle(f).0.value) >= Settle(f).1
  {
    assert forall b :: Score(q, b) >= 0.0 ==> Score(q, b) <= Utility(q, b);
  }

  // ----- columns skipped for excess bandwidth -------------------------------------

  lemma CandidateWithinBudget(q: Query, i: nat)
    requires Market(q) && !Unaffordable(q, i) && FairOnGrid(q, i)
    ensures Cost(Candidate(q, i), q.price) <= q.budget
  {
    CandidateCost(q, i);
    if Abs(q.budget - Size(q, i)) < TINY {
      QuotientNonNegative(q.budget, q.eps);
      FairShareFits(q.budget, q.eps, MaxBw(q, i));
      ExactFairCost(q.budget, Candidate(q, i), q.price);
    }
  }

  lemma ExactFairCost(budget: real, b: Bundle, price: Bundle)
    requires budget >= 0.0 && price.cache >= 0.0 && price.memBw >= 0.0 && price.cache + price.memBw == 1.0
    requires b.cache == budget && b.memBw <= budget
    ensures Cost(b, price) <= budget
  {
    WeightedBound(budget, b.cache, b.memBw, price.cache, price.memBw);
  }

  lemma BeyondBy(x: real, y: real, m: real, s: real, xs: real, ys: real, ms: real)
    requires s > 0.0 && xs == x * s && ys == y * s && ms == m * s && ys < xs - ms
    ensures y + m < x
  {
    assert (y + m) * s == ys + ms;
    ScaleLe(x, y + m, s);
  }

  lemma ExcessIsAboveMargin(b: Bundle, a: Bundle, s: Scale, m: Bundle)
    requires s.memBw > 0.0 && HighBw(b, s, m) && InLimits(a, s)
    ensures b.memBw > a.memBw + m.memBw
  {
    BeyondBy(b.memBw, a.memBw, m.memBw, s.memBw, b.memBw * s.memBw, a.memBw * s.memBw, m.memBw * s.memBw);
  }

  lemma ExchangeNonNegative(e: real, price: Bundle)
    requires e > 0.0 && price.cache >= 0.0
    ensures Exchange(e, price) >= 0.0
  {
    var x := 2.0 * e * price.cache;
    assert x >= 0.0;
    QuotientNonNegative(x, Max(TINY, price.memBw));
  }

  lemma LimitsWithMargin(a: Bundle, b: Bundle, s: Scale, m: Bundle)
    requires s.cache > 0.0 && s.memBw > 0.0 && m.cache >= 0.0 && m.memBw >= 0.0
    requires InLimits(a, s) && a.cache == b.cache && a.memBw <= b.memBw
    ensures !LowCache(b, s, m) && !HighCache(b, s, m) && !LowBw(b, s, m)
  {
    assert m.cache * s.cache >= 0.0;
    assert m.memBw * s.memBw >= 0.0;
    ProductLe(a.memBw, b.memBw, s.memBw, a.memBw * s.memBw, b.memBw * s.memBw);
  }

  /** A column with an eligible pair is skipped only because its bandwidth is excessive. */
  lemma SkippedMeansExcess(q: Query, i: nat, j: nat)
    requires Market(q) && q.price.memBw >= TINY && FairOnGrid(q, i) && Eligible(q, i, j) && !PassesMargin(q, i)
    ensures HighBw(Candidate(q, i), q.scale, ColumnMargin(q))
    ensures Candidate(q, i).memBw > Pair(q, i, j).memBw + ColumnMargin(q).memBw
  {
    hide Candidate, Pair, Steps, Searched, Affordable, FairOnGrid, Exchange, HighBw, LowBw, HighCache, LowCache, Unaffordable, InLimits;
    CandidateAbovePair(q, i, j);
    ExchangeNonNegative(q.eps, q.price);
    var a, b, m := Pair(q, i, j), Candidate(q, i), ColumnMargin(q);
    LimitsWithMargin(a, b, q.scale, m);
    ExcessIsAboveMargin(b, a, q.scale, m);
  }

  lemma ExchangeCost(e: real, price: Bundle)
    requires price.memBw >= TINY
    ensures Exchange(e, price) * price.memBw == 2.0 * e * price.cache
  {
  }

  lemma StepUpCost(c: real, e: real, b: real, x: real, g: real, pc: real, pb: real, budget: real)
    requires e > 0.0 && pc >= 0.0 && pb > 0.0 && c * pc + x * pb <= budget && x > b + g && g * pb == 2.0 * e * pc
    ensures (c + e) * pc + b * pb <= budget
  {
    assert (x - b - g) * pb >= 0.0;
    assert e * pc >= 0.0;
  }

  /** Then the same bandwidth is affordable one cache step up. */
  lemma NextColumnAffordable(q: Query, i: nat, j: nat)
    requires Market(q) && q.price.memBw >= TINY && FairOnGrid(q, i) && Eligible(q, i, j) && !PassesMargin(q, i)
    ensures Affordable(q, Pair(q, i + 1, j))
  {
    hide Steps, Searched, InLimits, PassesMargin, HighBw, FairOnGrid, Unaffordable, Exchange, Amount, MaxSteps;
    CandidateAbovePair(q, i, j);
    CandidateWithinBudget(q, i);
    SkippedMeansExcess(q, i, j);
    NextSize(q, i);
    ExchangeCost(q.eps, q.price);
    StepUpCost(Size(q, i), q.eps, Amount(j, q.eps), Candidate(q, i).memBw, Exchange(q.eps, q.price),
               q.price.cache, q.price.memBw, q.budget);
  }

  lemma NextSize(q: Query, i: nat)
    ensures Size(q, i + 1) == Size(q, i) + q.eps
  {
  }

  lemma ScoreRises(q: Query, i: nat, j: nat)
    requires WellFormed(q) && RowRises(q, j) && 1 <= i < Steps(q)
    ensures Score(q, Pair(q, i, j)) <= Score(q, Pair(q, i + 1, j))
  {
    NextSize(q, i);
    assert 0.0 <= RowUtility(q, i, j) <= RowUtility(q, i + 1, j);
  }

  /** The pair has reached the end of its row: the next column is off the grid, outside the
    search range or over a limit. */
  predicate RowEnds(q: Query, k: nat, j: nat)
    requires WellFormed(q)
  {
    k == Steps(q) || !Searched(q, k + 1) || !InLimits(Pair(q, k + 1, j), q.scale)
  }

  /** For a utility that also never falls in cache, every eligible pair is matched by an
    eligible pair of the same bandwidth whose column passes the margin check, or by the last
    eligible one of its row. */
  lemma {:induction false} SkippedColumnsAreDominated(q: Query, i: nat, j: nat) returns (k: nat)
    requires Market(q) && q.price.memBw >= TINY && RowRises(q, j)
    requires forall n :: FairOnGrid(q, n)
    requires Eligible(q, i, j)
    ensures i <= k && Eligible(q, k, j) && Score(q, Pair(q, i, j)) <= Score(q, Pair(q, k, j))
    ensures PassesMargin(q, k) || RowEnds(q, k, j)
    decreases Steps(q) - i
  {
    if PassesMargin(q, i) || RowEnds(q, i, j) {
      return i;
    }
    NextColumnAffordable(q, i, j);
    ScoreRises(q, i, j);
    hide Score, Pair, Market, RowRises, FairOnGrid, Affordable, InLimits, Searched, PassesMargin, Steps;
    k := SkippedColumnsAreDominated(q, i + 1, j);
  }

  // ----- an instance --------------------------------------------------------------

  /** One application with the whole budget on a grid of one step. */
  const EXAMPLE := Query(1.0, 1.0, Bundle(0.5, 0.5), Scale(1.0, 1.0, 0.0, Unlimited, 0.0, Unlimited), (c, b) => c + b, None, 0.0, 1.0)

  lemma ExampleColumn()
    ensures Market(EXAMPLE) && Steps(EXAMPLE) == 1 && Size(EXAMPLE, 1) == 1.0
    ensures Candidate(EXAMPLE, 1) == Bundle(1.0, 1.0) && Offer(EXAMPLE, 1) == Bundle(1.0, 1.0)
  {
  }

  lemma ExampleConsidered()
    ensures Market(EXAMPLE) && PassesMargin(EXAMPLE, 1) && Considered(EXAMPLE, 1) && Score(EXAMPLE, Offer(EXAMPLE, 1)) == 2.0
  {
    ExampleColumn();
    hide Steps, Size, Candidate, Offer;
  }

  lemma ExampleFair()
    ensures forall n :: FairOnGrid(EXAMPLE, n)
  {
    forall n: nat ensures FairOnGrid(EXAMPLE, n) {
      assert Size(EXAMPLE, n) == n as real;
    }
  }

  lemma ExamplePair()
    ensures Market(EXAMPLE) && Eligible(EXAMPLE, 1, 1) && Score(EXAMPLE, Pair(EXAMPLE, 1, 1)) == 2.0 && RowRises(EXAMPLE, 1)
  {
    hide Steps, Candidate, Offer, Size, Amount, RowUtility;
    ExampleColumn();
    assert Pair(EXAMPLE, 1, 1) == Bundle(1.0, 1.0) by { ExampleAmount(); }
  }

  lemma ExampleAmount()
    ensures Amount(1, EXAMPLE.eps) == 1.0
  {
  }

  /** The premises of the refinement theorem are met by a run of the sweep. */
  lemma RefinementApplies() returns (f: Found)
    ensures Market(EXAMPLE) && EXAMPLE.price.memBw >= TINY && MonotoneInBw(EXAMPLE) && RowRises(EXAMPLE, 1)
    ensures forall n :: FairOnGrid(EXAMPLE, n)
    ensures Tracks(EXAMPLE, None, 0.0, 2, f) && Steps(EXAMPLE) == 1
    ensures Eligible(EXAMPLE, 1, 1) && PassesMargin(EXAMPLE, 1) && Score(EXAMPLE, Pair(EXAMPLE, 1, 1)) == 2.0
  {
    hide Steps, Size, Candidate, Offer, Considered, FairOnGrid, Eligible, PassesMargin, Pair, Score, RowRises;
    ExampleColumn();
    ExampleConsidered();
    ExampleFair();
    ExamplePair();
    f := Found(Some(Offer(EXAMPLE, 1)), 2.0, None, 0.0);
  }
}
