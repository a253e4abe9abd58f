/** The price bracket of `SpiritAllocator.allocate`: the binary search for a price on the line
  cache + bandwidth = 1 at which the demands fit. */
module PriceSearch {
  import opened Basics
  import opened RealMath
  import opened Sweep

  const FLOAT_PRECISION := 0.00001
  const MAXIMUM_RETRY := 3
  /** How far an end moves toward the middle after a resource limit was hit. */
  const CLIPPING_RATIO := 0.25

  datatype Limits = Limits(cacheMin: bool, cacheMax: bool, memBwMin: bool, memBwMax: bool)

  /** What one evaluation of all applications at a price answers. */
  datatype Demand = Demand(alloc: map<int, Bundle>, limits: Limits)

  /** Demand at the n-th evaluation of a call and a price: any behaviour of the applications. */
  type Oracle = (nat, Bundle) -> Demand

  function Ask(demand: Oracle, n: nat, p: Bundle): Demand
  {
    demand(n, p)
  }

  predicate Limited(l: Limits)
  {
    l.cacheMin || l.cacheMax || l.memBwMin || l.memBwMax
  }

  function Plus(a: Bundle, b: Bundle): Bundle
  {
    Bundle(a.cache + b.cache, a.memBw + b.memBw)
  }

  predicate Covers<T>(m: map<int, T>, users: seq<int>)
  {
    forall i :: 0 <= i < |users| ==> users[i] in m
  }

  /** `compute_resource_usage`: the shares of the given applications together. */
  function Total(users: seq<int>, alloc: map<int, Bundle>): Bundle
    requires Covers(alloc, users)
  {
    if users == [] then Bundle(0.0, 0.0) else Plus(alloc[users[0]], Total(users[1..], alloc))
  }

  predicate OverCache(t: Bundle)
  {
    t.cache > 1.0 + FLOAT_PRECISION
  }

  predicate OverBw(t: Bundle)
  {
    t.memBw > 1.0 + FLOAT_PRECISION
  }

  predicate Over(t: Bundle)
  {
    OverCache(t) || OverBw(t)
  }

  datatype Bracket = Bracket(left: Bundle, right: Bundle)

  const WHOLE_LINE := Bracket(Bundle(1.0, 0.0), Bundle(0.0, 1.0))

  function Mid(b: Bracket): Bundle
  {
    Bundle((b.left.cache + b.right.cache) / 2.0, (b.left.memBw + b.right.memBw) / 2.0)
  }

  function Toward(a: Bundle, m: Bundle): Bundle
  {
    Bundle(a.cache + (m.cache - a.cache) * CLIPPING_RATIO, a.memBw + (m.memBw - a.memBw) * CLIPPING_RATIO)
  }

  function Width(b: Bracket): real
  {
    b.left.cache - b.right.cache
  }

  predicate Converged(t: Bundle, l: Limits)
  {
    !Limited(l) && !Over(t)
  }

  /** The bracket after an evaluation: total demand t and limits l at its middle. */
  function Moved(b: Bracket, t: Bundle, l: Limits): Bracket
  {
    var mid := Mid(b);
    if Limited(l) then
      if l.memBwMax || l.memBwMin then
        if OverCache(t) then b.(right := Toward(b.right, mid)) else b.(left := Toward(b.left, mid))
      else
        if OverBw(t) then b.(left := Toward(b.left, mid)) else b.(right := Toward(b.right, mid))
    else if OverCache(t) then b.(right := mid)
    else if OverBw(t) then b.(left := mid)
    else b
  }

  ghost predicate Answers(users: seq<int>, demand: Oracle)
  {
    forall n, p :: Covers(Ask(demand, n, p).alloc, users)
  }

  function TotalAt(users: seq<int>, demand: Oracle, n: nat, p: Bundle): Bundle
    requires Answers(users, demand)
  {
    Total(users, Ask(demand, n, p).alloc)
  }

  /** The bracket after n evaluations. */
  function BracketAt(users: seq<int>, demand: Oracle, n: nat): Bracket
    requires Answers(users, demand)
  {
    if n == 0 then WHOLE_LINE
    else
      var b := BracketAt(users, demand, n - 1);
      Moved(b, TotalAt(users, demand, n, Mid(b)), Ask(demand, n, Mid(b)).limits)
  }

  /** The price of the n-th evaluation, counted from one. */
  function PriceAt(users: seq<int>, demand: Oracle, n: nat): Bundle
    requires Answers(users, demand) && n >= 1
  {
    Mid(BracketAt(users, demand, n - 1))
  }

  function UsageAt(users: seq<int>, demand: Oracle, n: nat): Bundle
    requires Answers(users, demand) && n >= 1
  {
    TotalAt(users, demand, n, PriceAt(users, demand, n))
  }

  function LimitsAt(users: seq<int>, demand: Oracle, n: nat): Limits
    requires Answers(users, demand) && n >= 1
  {
    Ask(demand, n, PriceAt(users, demand, n)).limits
  }

  predicate ConvergedAt(users: seq<int>, demand: Oracle, n: nat)
    requires Answers(users, demand) && n >= 1
  {
    Converged(UsageAt(users, demand, n), LimitsAt(users, demand, n))
  }

  /** The loop is left after evaluation n. */
  predicate StopsAt(users: seq<int>, demand: Oracle, maxIteration: nat, n: nat)
    requires Answers(users, demand) && n >= 1
  {
    || ConvergedAt(users, demand, n)
    || (n >= maxIteration && (Over(UsageAt(users, demand, n)) ==> n > maxIteration + MAXIMUM_RETRY))
  }

  // ----- the bracket --------------------------------------------------------------

  predicate OnLine(p: Bundle)
  {
    p.cache + p.memBw == 1.0
  }

  /** All three prices on the line, in order, within it. */
  predicate WellPlaced(b: Bracket)
  {
    && OnLine(b.left) && OnLine(b.right) && OnLine(Mid(b))
    && 0.0 <= b.right.cache < Mid(b).cache < b.left.cache <= 1.0
  }

  lemma MovedKeepsPlace(b: Bracket, t: Bundle, l: Limits)
    requires WellPlaced(b)
    ensures WellPlaced(Moved(b, t, l))
    ensures !Converged(t, l) ==> Width(Moved(b, t, l)) == (if Limited(l) then 0.875 else 0.5) * Width(b)
  {
  }

  /** Prices follow demand.  Without a limit the price of the over-demanded resource rises.  A
    bandwidth limit makes cache dearer exactly when cache is over-demanded, a cache limit makes
    bandwidth dearer exactly when bandwidth is.  One end of the bracket stays. */
  lemma PricesFollowDemand(b: Bracket, t: Bundle, l: Limits)
    requires WellPlaced(b)
    ensures var before, after := Mid(b), Mid(Moved(b, t, l));
            && (Converged(t, l) <==> after == before)
            && (after.cache > before.cache <==> after.memBw < before.memBw)
            && (after.cache > before.cache <==>
                  if l.memBwMin || l.memBwMax then OverCache(t)
                  else if Limited(l) then !OverBw(t)
                  else OverCache(t))
    ensures Moved(b, t, l).left == b.left || Moved(b, t, l).right == b.right
  {
  }

  function Power(x: real, n: nat): real
  {
    if n == 0 then 1.0 else x * Power(x, n - 1)
  }

  /** Every price ever tried is on the line and strictly inside it, whatever the demands are. */
  lemma {:induction false} BracketStaysOnLine(users: seq<int>, demand: Oracle, n: nat)
    requires Answers(users, demand)
    ensures WellPlaced(BracketAt(users, demand, n))
  {
    if n > 0 {
      BracketStaysOnLine(users, demand, n - 1);
      MovedKeepsPlace(BracketAt(users, demand, n - 1), UsageAt(users, demand, n), LimitsAt(users, demand, n));
    }
  }

  /** An evaluation that does not converge shrinks the bracket to exactly one half, or to seven
    eighths when a resource limit was hit. */
  lemma BracketShrinks(users: seq<int>, demand: Oracle, n: nat)
    requires Answers(users, demand) && n >= 1 && !ConvergedAt(users, demand, n)
    ensures Width(BracketAt(users, demand, n))
            == (if Limited(LimitsAt(users, demand, n)) then 0.875 else 0.5) * Width(BracketAt(users, demand, n - 1))
  {
  }

  /** The exit for prices that are both negligible is never taken. */
  lemma MinimalPriceExitIsDead(users: seq<int>, demand: Oracle, n: nat)
    requires Answers(users, demand) && n >= 1
    ensures var p := PriceAt(users, demand, n); !(p.cache < FLOAT_PRECISION && p.memBw < FLOAT_PRECISION)
  {
    BracketStaysOnLine(users, demand, n - 1);
  }

  lemma {:induction false} WidthBound(users: seq<int>, demand: Oracle, n: nat)
    requires Answers(users, demand)
    requires forall k :: 1 <= k <= n ==> !ConvergedAt(users, demand, k)
    ensures Width(BracketAt(users, demand, n)) <= Power(0.875, n)
    ensures (forall k :: 1 <= k <= n ==> !Limited(LimitsAt(users, demand, k))) ==> Width(BracketAt(users, demand, n)) == Power(0.5, n)
  {
    if n > 0 {
      WidthBound(users, demand, n - 1);
      BracketShrinks(users, demand, n);
      BracketStaysOnLine(users, demand, n - 1);
    }
  }

  // ----- convergence --------------------------------------------------------------

  /** A higher cache price (and lower bandwidth price) never raises the demand for cache and
    never lowers that for bandwidth; no limit is hit. */
  ghost predicate OrdinaryDemand(users: seq<int>, demand: Oracle)
    requires Answers(users, demand)
  {
    && (forall m: nat, n: nat, p: Bundle, q: Bundle :: p.cache <= q.cache ==>
          && TotalAt(users, demand, m, p).cache >= TotalAt(users, demand, n, q).cache
          && TotalAt(users, demand, m, p).memBw <= TotalAt(users, demand, n, q).memBw)
    && (forall n, p :: !Limited(Ask(demand, n, p).limits))
  }

  /** The demands at a price fit. */
  predicate Clears(users: seq<int>, demand: Oracle, p: Bundle)
    requires Answers(users, demand)
  {
    OnLine(p) && 0.0 <= p.cache <= 1.0 && !Over(TotalAt(users, demand, 0, p))
  }

  /** No step ever discards a clearing price. */
  lemma {:induction false} ClearingPriceStaysBracketed(users: seq<int>, demand: Oracle, n: nat, p: Bundle)
    requires Answers(users, demand) && OrdinaryDemand(users, demand) && Clears(users, demand, p)
    ensures BracketAt(users, demand, n).right.cache <= p.cache <= BracketAt(users, demand, n).left.cache
  {
    if n > 0 {
      ClearingPriceStaysBracketed(users, demand, n - 1, p);
      var mid := PriceAt(users, demand, n);
      assert p.cache <= mid.cache ==> TotalAt(users, demand, 0, p).cache >= TotalAt(users, demand, n, mid).cache;
      assert p.cache >= mid.cache ==> TotalAt(users, demand, 0, p).memBw >= TotalAt(users, demand, n, mid).memBw;
    }
  }

  /** The search finds a clearing price if there is room for one: when two clearing prices are
    more than 2^-n apart, one of the first n evaluations converges. */
  lemma ConvergesOnWideClearing(users: seq<int>, demand: Oracle, n: nat, p: Bundle, q: Bundle)
    requires Answers(users, demand) && OrdinaryDemand(users, demand)
    requires Clears(users, demand, p) && Clears(users, demand, q) && q.cache - p.cache > Power(0.5, n)
    ensures exists k :: 1 <= k <= n && ConvergedAt(users, demand, k)
  {
    if forall k :: 1 <= k <= n ==> !ConvergedAt(users, demand, k) {
      ClearingPriceStaysBracketed(users, demand, n, p);
      ClearingPriceStaysBracketed(users, demand, n, q);
      WidthBound(users, demand, n);
      assert false;
    }
  }

  /** So the loop then ends by convergence, before its iteration limit. */
  lemma StopsConverged(users: seq<int>, demand: Oracle, maxIteration: nat, n: nat, p: Bundle, q: Bundle)
    requires Answers(users, demand) && OrdinaryDemand(users, demand) && maxIteration >= 1
    requires Clears(users, demand, p) && Clears(users, demand, q) && q.cache - p.cache > Power(0.5, maxIteration - 1)
    requires n >= 1 && StopsAt(users, demand, maxIteration, n)
    requires forall k :: 1 <= k < n ==> !StopsAt(users, demand, maxIteration, k)
    ensures n < maxIteration && ConvergedAt(users, demand, n)
  {
    ConvergesOnWideClearing(users, demand, maxIteration - 1, p, q);
    var k :| 1 <= k <= maxIteration - 1 && ConvergedAt(users, demand, k);
    assert StopsAt(users, demand, maxIteration, k);
  }

  // ----- at most one resource is over-demanded ------------------------------------

  function Sum(users: seq<int>, weights: map<int, real>): real
    requires Covers(weights, users)
  {
    if users == [] then 0.0 else weights[users[0]] + Sum(users[1..], weights)
  }

  lemma {:induction false} SumOfEqualWeights(users: seq<int>, weights: map<int, real>, x: real)
    requires Covers(weights, users) && forall k :: 0 <= k < |users| ==> weights[users[k]] == x
    ensures Sum(users, weights) == |users| as real * x
  {
    if users != [] {
      SumOfEqualWeights(users[1..], weights, x);
      assert (|users| - 1) as real * x + x == |users| as real * x;
    }
  }

  /** Every application of a VM gets the same weight, and the weights are one together. */
  lemma EqualWeightsSumToOne(users: seq<int>, weights: map<int, real>)
    requires users != [] && Covers(weights, users) && forall k :: 0 <= k < |users| ==> weights[users[k]] == 1.0 / |users| as real
    ensures Sum(users, weights) == 1.0
  {
    var n := |users| as real;
    SumOfEqualWeights(users, weights, 1.0 / n);
    assert n * (1.0 / n) == 1.0;
  }

  predicate EachSpendsAtMost(users: seq<int>, alloc: map<int, Bundle>, weights: map<int, real>, p: Bundle)
    requires Covers(alloc, users) && Covers(weights, users)
  {
    forall i :: 0 <= i < |users| ==> Cost(alloc[users[i]], p) <= weights[users[i]]
  }

  lemma CostOfPlus(a: Bundle, b: Bundle, p: Bundle)
    ensures Cost(Plus(a, b), p) == Cost(a, p) + Cost(b, p)
  {
  }

  /** Spending adds up. */
  lemma {:induction false} TotalCost(users: seq<int>, alloc: map<int, Bundle>, weights: map<int, real>, p: Bundle)
    requires Covers(alloc, users) && Covers(weights, users) && EachSpendsAtMost(users, alloc, weights, p)
    ensures Cost(Total(users, alloc), p) <= Sum(users, weights)
  {
    if users != [] {
      hide Cost;
      TotalCost(users[1..], alloc, weights, p);
      CostOfPlus(alloc[users[0]], Total(users[1..], alloc), p);
    } else {
      assert Cost(Bundle(0.0, 0.0), p) == 0.0;
    }
  }

  lemma WeightedAbove(c: real, a: real, b: real, x: real, y: real)
    requires x >= 0.0 && y >= 0.0 && x + y == 1.0 && a >= c && b >= c
    ensures a * x + b * y >= c
  {
    assert (a - c) * x >= 0.0;
    assert (b - c) * y >= 0.0;
    assert c * x + c * y == c * (x + y);
  }

  lemma OverBothCosts(t: Bundle, p: Bundle)
    requires OnLine(p) && p.cache >= 0.0 && p.memBw >= 0.0 && OverCache(t) && OverBw(t)
    ensures Cost(t, p) > 1.0
  {
    WeightedAbove(1.0 + FLOAT_PRECISION, t.cache, t.memBw, p.cache, p.memBw);
  }

  /** Walras: if nobody spends more than its weight and the weights are one together, cache and
    bandwidth are not over-demanded at the same time. */
  lemma AtMostOneOverDemanded(users: seq<int>, alloc: map<int, Bundle>, weights: map<int, real>, p: Bundle)
    requires Covers(alloc, users) && Covers(weights, users) && EachSpendsAtMost(users, alloc, weights, p)
    requires Sum(users, weights) <= 1.0 && OnLine(p) && p.cache >= 0.0 && p.memBw >= 0.0
    ensures !(OverCache(Total(users, alloc)) && OverBw(Total(users, alloc)))
  {
    TotalCost(users, alloc, weights, p);
    if OverCache(Total(users, alloc)) && OverBw(Total(users, alloc)) {
      OverBothCosts(Total(users, alloc), p);
      assert false;
    }
  }

  /** Swapping the order in which the two over-demands are tested changes nothing. */
  function MovedOtherOrder(b: Bracket, t: Bundle): Bracket
  {
    if OverBw(t) then b.(left := Mid(b)) else if OverCache(t) then b.(right := Mid(b)) else b
  }

  lemma OrderLosesNothing(users: seq<int>, alloc: map<int, Bundle>, weights: map<int, real>, b: Bracket, l: Limits)
    requires WellPlaced(b) && !Limited(l)
    requires Covers(alloc, users) && Covers(weights, users) && EachSpendsAtMost(users, alloc, weights, Mid(b))
    requires Sum(users, weights) <= 1.0
    ensures Moved(b, Total(users, alloc), l) == MovedOtherOrder(b, Total(users, alloc))
  {
    AtMostOneOverDemanded(users, alloc, weights, Mid(b));
  }

  /** The sweep returns its seed or a bundle that costs at most the weight. */
  lemma SweepSpendsAtMostWeight(q: Query, seed: Option<Bundle>, seedUtil: real, stop: nat, f: Found, weight: real)
    requires WellFormed(q) && Tracks(q, seed, seedUtil, stop, f) && q.budget == weight * MARGIN_IN_BUDGET
    ensures var r := Settle(f).0; r == seed || (r.Some? && Cost(r.value, q.price) <= weight)
  {
  }
}
