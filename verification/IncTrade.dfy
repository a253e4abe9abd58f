/** `IncrementalTradeAllocator`: units of a resource are harvested from the best performer into
  a pool and granted from the pool to the worst performer. */
module IncTrade {
  import opened Basics
  import opened RealMath
  import opened TradeShares
  import S = Sweep
  import P = PriceSearch

  const PERF_MARGIN := 0.01
  const REVOKE_MARGIN := 0.1
  const STATIC_TOLERANCE := 0.001

  datatype Direction = Up | Down

  /** The last adjustment of a user: the resource to try next, its direction, the performance
    before it and its time. */
  datatype Decision = Decision(res: Resource, dir: Direction, performance: real, lastUpdated: real)

  // ----- _check_performance_changes -----------------------------------------------

  /** The users' most recent decision. */
  function Latest(users: seq<int>, ds: map<int, Decision>): (r: Option<int>)
    ensures r.Some? ==> r.value in ds
  {
    if users == [] then None
    else
      var earlier, u := Latest(users[..|users| - 1], ds), users[|users| - 1];
      if u in ds && ds[u].lastUpdated > (if earlier.Some? then ds[earlier.value].lastUpdated else 0.0) then Some(u) else earlier
  }

  /** r is the user with the greatest decision time, the first one of equals, and none exactly if
    no decision has a positive time. */
  predicate IsLatest(users: seq<int>, ds: map<int, Decision>, r: Option<int>)
  {
    && (r.None? ==> forall k :: 0 <= k < |users| && users[k] in ds ==> ds[users[k]].lastUpdated <= 0.0)
    && (r.Some? ==>
          && r.value in ds && ds[r.value].lastUpdated > 0.0
          && (forall k :: 0 <= k < |users| && users[k] in ds ==> ds[users[k]].lastUpdated <= ds[r.value].lastUpdated)
          && exists k :: 0 <= k < |users| && users[k] == r.value && IsEarliest(users, ds, k))
  }

  /** Nobody before user k has as great a decision time. */
  predicate IsEarliest(users: seq<int>, ds: map<int, Decision>, k: nat)
    requires k < |users| && users[k] in ds
  {
    forall j :: 0 <= j < k && users[j] in ds ==> ds[users[j]].lastUpdated < ds[users[k]].lastUpdated
  }

  lemma {:induction false} LatestIsLatest(users: seq<int>, ds: map<int, Decision>)
    ensures IsLatest(users, ds, Latest(users, ds))
    ensures Latest(users, ds).Some? ==> Latest(users, ds).value in users
  {
    if users != [] {
      var n := |users| - 1;
      var before := users[..n];
      LatestIsLatest(before, ds);
      var r := Latest(users, ds);
      if r.Some? && r == Latest(before, ds) {
        var k :| 0 <= k < n && before[k] == r.value && IsEarliest(before, ds, k);
        assert IsEarliest(users, ds, k);
      } else if r.Some? {
        assert IsEarliest(users, ds, n);
      }
    }
  }

  /** The scan for the most recently adjusted user. */
  method FindLatest(users: seq<int>, ds: map<int, Decision>) returns (r: Option<int>)
    ensures IsLatest(users, ds, r) && r == Latest(users, ds)
  {
    r := None;
    var time := 0.0;
    for i := 0 to |users|
      invariant r == Latest(users[..i], ds)
      invariant time == if r.Some? then ds[r.value].lastUpdated else 0.0
    {
      assert users[..i + 1][..i] == users[..i];
      if users[i] in ds && ds[users[i]].lastUpdated > time {
        r, time := Some(users[i]), ds[users[i]].lastUpdated;
      }
    }
    assert users[..|users|] == users;
    LatestIsLatest(users, ds);
  }

  /** There is a decision to re-examine, and its user was measured; the id zero counts as no
    user. */
  predicate Reexamines(users: seq<int>, ds: map<int, Decision>, perf: map<int, real>)
  {
    var l := Latest(users, ds); l.Some? && l.value != 0 && l.value in perf
  }

  /** A decision after its performance is known: a disappointing one switches the resource. */
  function Rechecked(d: Decision, perf: real): Decision
  {
    var disappoints := if d.dir == Down then perf < d.performance - PERF_MARGIN else perf <= d.performance - PERF_MARGIN;
    d.(res := if disappoints then Opposite(d.res) else d.res, performance := perf)
  }

  predicate Revokes(d: Decision, perf: real)
  {
    d.dir == Down && perf < d.performance - REVOKE_MARGIN
  }

  function DecisionsAfter(users: seq<int>, ds: map<int, Decision>, perf: map<int, real>): map<int, Decision>
  {
    if Reexamines(users, ds, perf) then var u := Latest(users, ds).value; ds[u := Rechecked(ds[u], perf[u])] else ds
  }

  /** The user whose last reduction is revoked, and the resource its decision names by then. */
  function Revocation(users: seq<int>, ds: map<int, Decision>, perf: map<int, real>): Option<(int, Resource)>
  {
    if Reexamines(users, ds, perf) then
      var u := Latest(users, ds).value;
      if Revokes(ds[u], perf[u]) then Some((u, ds[u].res)) else None
    else None
  }

  /** A revocation takes its unit out of the pool, as far as there is one. */
  function PoolAfterRevocation(pool: Bundle, revoked: Option<(int, Resource)>, unit: real): Bundle
  {
    if revoked.None? then pool else With(pool, revoked.value.1, Max(0.0, Of(pool, revoked.value.1) - unit))
  }

  // ----- choosing a user ----------------------------------------------------------

  /** Current over baseline performance; infinite for a baseline that is not positive. */
  datatype Ratio = Finite(value: real) | Infinite

  predicate Below(a: Ratio, b: Ratio)
  {
    a.Finite? && (b.Infinite? || a.value < b.value)
  }

  function RatioOf(perf: real, baseline: real): Ratio
  {
    if baseline > 0.0 then Finite(perf / baseline) else Infinite
  }

  predicate Measured(u: int, skip: set<int>, perf: map<int, real>, baseline: map<int, real>)
  {
    u !in skip && u in perf && u in baseline
  }

  predicate MayGrow(b: Bundle, r: Resource, rules: Rules)
  {
    Of(b, r) + rules.unit <= Of(rules.max, r)
  }

  predicate MayShrink(b: Bundle, r: Resource, rules: Rules)
  {
    Of(b, r) - rules.unit >= Of(rules.min, r)
  }

  function TypeOf(u: int, ds: map<int, Decision>, types: map<int, Resource>): Resource
  {
    if u in ds then ds[u].res else if u in types then types[u] else Cache
  }

  /** What one choice depends on. */
  datatype View = View(cur: map<int, Bundle>, ds: map<int, Decision>, types: map<int, Resource>, skip: set<int>,
                       perf: map<int, real>, baseline: map<int, real>, rules: Rules)

  predicate HasRatio(v: View, u: int)
  {
    Measured(u, v.skip, v.perf, v.baseline)
  }

  function RatioIn(v: View, u: int): Ratio
    requires HasRatio(v, u)
  {
    RatioOf(v.perf[u], v.baseline[u])
  }

  /** May be given a unit of the resource it is to try next. */
  predicate Needy(v: View, u: int)
  {
    HasRatio(v, u) && RatioIn(v, u).Finite? && u in v.cur && MayGrow(v.cur[u], TypeOf(u, v.ds, v.types), v.rules)
  }

  /** May give up a unit. */
  predicate Donor(v: View, r: Resource, u: int)
  {
    HasRatio(v, u) && u in v.cur && MayShrink(v.cur[u], r, v.rules)
  }

  /** User k is the first with its ratio, and everybody eligible before it has a greater one. */
  predicate IsFirstWorst(users: seq<int>, v: View, k: int)
  {
    && 0 <= k < |users| && Needy(v, users[k])
    && forall j :: 0 <= j < k && Needy(v, users[j]) ==> Below(RatioIn(v, users[k]), RatioIn(v, users[j]))
  }

  predicate IsFirstBest(users: seq<int>, v: View, r: Resource, k: int)
  {
    && 0 <= k < |users| && Donor(v, r, users[k])
    && forall j :: 0 <= j < k && Donor(v, r, users[j]) ==> Below(RatioIn(v, users[j]), RatioIn(v, users[k]))
  }

  /** w has the lowest ratio of those that may grow, and is the first of equals. */
  predicate IsWorst(users: seq<int>, v: View, w: Option<int>)
  {
    && (w.None? ==> forall u :: u in users ==> !Needy(v, u))
    && (w.Some? ==>
          && w.value in users && Needy(v, w.value) && (forall u :: u in users && Needy(v, u) ==> !Below(RatioIn(v, u), RatioIn(v, w.value)))
          && exists k :: 0 <= k < |users| && IsFirstWorst(users, v, k) && users[k] == w.value)
  }

  /** b has the highest ratio of those that may shrink, and is the first of equals. */
  predicate IsBest(users: seq<int>, v: View, r: Resource, b: Option<int>)
  {
    && (b.None? ==> forall u :: u in users ==> !Donor(v, r, u))
    && (b.Some? ==>
          && b.value in users && Donor(v, r, b.value) && (forall u :: u in users && Donor(v, r, u) ==> !Below(RatioIn(v, b.value), RatioIn(v, u)))
          && exists k :: 0 <= k < |users| && IsFirstBest(users, v, r, k) && users[k] == b.value)
  }

  lemma WorstNext(users: seq<int>, v: View, w: Option<int>, u: int)
    requires IsWorst(users, v, w)
    ensures var takes := Needy(v, u) && (w.Some? ==> Below(RatioIn(v, u), RatioIn(v, w.value)));
            IsWorst(users + [u], v, if takes then Some(u) else w)
  {
    hide RatioOf, MayGrow, TypeOf;
    var n, all := |users|, users + [u];
    if Needy(v, u) && (w.Some? ==> Below(RatioIn(v, u), RatioIn(v, w.value))) {
      assert all[n] == u && IsFirstWorst(all, v, n);
    } else if w.Some? {
      var k :| 0 <= k < |users| && IsFirstWorst(users, v, k) && users[k] == w.value;
      assert all[k] == w.value && IsFirstWorst(all, v, k);
    }
  }

  lemma BestNext(users: seq<int>, v: View, r: Resource, b: Option<int>, u: int)
    requires IsBest(users, v, r, b)
    ensures var takes := Donor(v, r, u) && (b.Some? ==> Below(RatioIn(v, b.value), RatioIn(v, u)));
            IsBest(users + [u], v, r, if takes then Some(u) else b)
  {
    hide RatioOf, MayShrink;
    var n, all := |users|, users + [u];
    if Donor(v, r, u) && (b.Some? ==> Below(RatioIn(v, b.value), RatioIn(v, u))) {
      assert all[n] == u && IsFirstBest(all, v, r, n);
    } else if b.Some? {
      var k :| 0 <= k < |users| && IsFirstBest(users, v, r, k) && users[k] == b.value;
      assert all[k] == b.value && IsFirstBest(all, v, r, k);
    }
  }

  method FindWorst(users: seq<int>, v: View) returns (worst: Option<int>)
    requires forall u :: u in users ==> u in v.cur
    ensures IsWorst(users, v, worst)
  {
    hide RatioOf, MayGrow, TypeOf, IsFirstWorst;
    worst := None;
    var worstRatio := Infinite;
    for i := 0 to |users|
      invariant IsWorst(users[..i], v, worst)
      invariant worstRatio == if worst.Some? then RatioIn(v, worst.value) else Infinite
    {
      var u := users[i];
      assert users[..i + 1] == users[..i] + [u];
      WorstNext(users[..i], v, worst, u);
      if HasRatio(v, u) && Below(RatioIn(v, u), worstRatio) && MayGrow(v.cur[u], TypeOf(u, v.ds, v.types), v.rules) {
        worst, worstRatio := Some(u), RatioIn(v, u);
      }
    }
    assert users[..|users|] == users;
  }

  method FindBest(users: seq<int>, v: View, r: Resource) returns (best: Option<int>)
    requires forall u :: u in users ==> u in v.cur
    ensures IsBest(users, v, r, best)
  {
    hide RatioOf, MayShrink, IsFirstBest;
    best := None;
    for i := 0 to |users|
      invariant IsBest(users[..i], v, r, best)
    {
      var u := users[i];
      assert users[..i + 1] == users[..i] + [u];
      BestNext(users[..i], v, r, best, u);
      if HasRatio(v, u) && (best.None? || Below(RatioIn(v, best.value), RatioIn(v, u))) && MayShrink(v.cur[u], r, v.rules) {
        best := Some(u);
      }
    }
    assert users[..|users|] == users;
  }

  // ----- moving a unit ------------------------------------------------------------

  datatype Move = Nothing | Grant(user: int, res: Resource) | Harvest(user: int, res: Resource)

  /** The worst performer w gets a unit of its resource if the pool has any; otherwise the best
    performer b gives one up. */
  predicate Explains(users: seq<int>, v: View, pool: Bundle, w: Option<int>, b: Option<int>, move: Move)
  {
    && IsWorst(users, v, w)
    && if w.None? then move == Nothing
       else
         var r := TypeOf(w.value, v.ds, v.types);
         if Of(pool, r) > 0.0 then move == Grant(w.value, r)
         else IsBest(users, v, r, b) && move == (if b.Some? then Harvest(b.value, r) else Nothing)
  }

  ghost predicate IsMove(users: seq<int>, v: View, pool: Bundle, move: Move)
  {
    exists w, b :: Explains(users, v, pool, w, b, move)
  }

  predicate MoveIn(cur: map<int, Bundle>, move: Move)
  {
    !move.Nothing? ==> move.user in cur
  }

  function SharesAfter(cur: map<int, Bundle>, move: Move, unit: real): map<int, Bundle>
    requires MoveIn(cur, move)
  {
    match move
    case Nothing => cur
    case Grant(u, r) => cur[u := Plus(cur[u], r, unit)]
    case Harvest(u, r) => cur[u := With(cur[u], r, Max(0.0, Of(cur[u], r) - unit))]
  }

  function PoolAfter(pool: Bundle, move: Move, unit: real): Bundle
  {
    match move
    case Nothing => pool
    case Grant(_, r) => Plus(pool, r, -unit)
    case Harvest(_, r) => Plus(pool, r, unit)
  }

  method ChooseMove(users: seq<int>, v: View, pool: Bundle) returns (move: Move, worst: Option<int>)
    requires forall u :: u in users ==> u in v.cur
    ensures IsMove(users, v, pool, move) && IsWorst(users, v, worst)
    ensures worst.None? ==> move == Nothing
    ensures !move.Nothing? ==> move.user in users
  {
    hide IsWorst, IsBest, TypeOf;
    worst := FindWorst(users, v);
    if worst.None? {
      assert Explains(users, v, pool, worst, None, Nothing);
      return Nothing, worst;
    }
    WorstInUsers(users, v, worst);
    var r := TypeOf(worst.value, v.ds, v.types);
    if Of(pool, r) > 0.0 {
      assert Explains(users, v, pool, worst, None, Grant(worst.value, r));
      return Grant(worst.value, r), worst;
    }
    var best := FindBest(users, v, r);
    BestInUsers(users, v, r, best);
    move := if best.Some? then Harvest(best.value, r) else Nothing;
    assert Explains(users, v, pool, worst, best, move);
  }

  lemma WorstInUsers(users: seq<int>, v: View, w: Option<int>)
    requires IsWorst(users, v, w)
    ensures w.Some? ==> w.value in users && Needy(v, w.value)
  {
  }

  lemma BestInUsers(users: seq<int>, v: View, r: Resource, b: Option<int>)
    requires IsBest(users, v, r, b)
    ensures b.Some? ==> b.value in users && Donor(v, r, b.value)
  {
  }

  // ----- conservation -------------------------------------------------------------

  /** A whole number of units. */
  ghost predicate IsMultiple(x: real, unit: real)
  {
    exists k: nat :: x == Units(k, unit)
  }

  function Units(k: nat, unit: real): real
  {
    k as real * unit
  }

  lemma MultipleUp(x: real, unit: real)
    requires IsMultiple(x, unit)
    ensures IsMultiple(x + unit, unit)
  {
    var k: nat :| x == Units(k, unit);
    assert x + unit == Units(k + 1, unit);
  }

  lemma MultipleDown(x: real, unit: real)
    requires IsMultiple(x, unit) && x > 0.0 && unit > 0.0
    ensures IsMultiple(x - unit, unit) && x - unit >= 0.0
  {
    var k: nat :| x == Units(k, unit);
    assert k > 0;
    assert x - unit == Units(k - 1, unit);
    assert Units(k - 1, unit) >= 0.0;
  }

  lemma MultipleNonNegative(x: real, unit: real)
    requires IsMultiple(x, unit) && unit > 0.0
    ensures x >= 0.0
  {
  }

  /** The pool holds whole units of both resources. */
  ghost predicate PoolOk(pool: Bundle, unit: real)
  {
    IsMultiple(pool.cache, unit) && IsMultiple(pool.memBw, unit)
  }

  lemma PoolOf(pool: Bundle, unit: real, r: Resource)
    requires PoolOk(pool, unit)
    ensures IsMultiple(Of(pool, r), unit)
  {
  }

  /** A revocation loses exactly one unit of a non-empty pool, and nothing of an empty one. */
  function Lost(pool: Bundle, revoked: Option<(int, Resource)>, unit: real, r: Resource): real
  {
    if revoked.Some? && revoked.value.1 == r && Of(pool, r) > 0.0 then unit else 0.0
  }

  lemma RevocationLoses(pool: Bundle, revoked: Option<(int, Resource)>, unit: real)
    requires PoolOk(pool, unit) && unit > 0.0
    ensures PoolOk(PoolAfterRevocation(pool, revoked, unit), unit)
    ensures forall r :: Of(PoolAfterRevocation(pool, revoked, unit), r) == Of(pool, r) - Lost(pool, revoked, unit, r)
  {
    hide IsMultiple;
    if revoked.Some? {
      var r := revoked.value.1;
      PoolOf(pool, unit, r);
      MultipleNonNegative(Of(pool, r), unit);
      if Of(pool, r) > 0.0 {
        MultipleDown(Of(pool, r), unit);
      }
    }
  }

  predicate Legal(cur: map<int, Bundle>, pool: Bundle, move: Move, rules: Rules)
  {
    MoveIn(cur, move) &&
    match move
    case Nothing => true
    case Grant(u, r) => Of(pool, r) > 0.0 && MayGrow(cur[u], r, rules)
    case Harvest(u, r) => MayShrink(cur[u], r, rules)
  }

  lemma MoveIsLegal(users: seq<int>, v: View, pool: Bundle, move: Move)
    requires IsMove(users, v, pool, move)
    ensures Legal(v.cur, pool, move, v.rules)
    ensures !move.Nothing? ==> move.user in users && move.user !in v.skip
  {
  }

  /** A unit moves between a share and the pool: nothing is created, and the clip at zero is
    never reached. */
  lemma MoveKeepsTotal(users: seq<int>, cur: map<int, Bundle>, pool: Bundle, move: Move, rules: Rules)
    requires Distinct(users) && P.Covers(cur, users) && PoolOk(pool, rules.unit) && Legal(cur, pool, move, rules)
    requires rules.unit > 0.0 && rules.min.cache >= 0.0 && rules.min.memBw >= 0.0 && (!move.Nothing? ==> move.user in users)
    ensures var cur', pool' := SharesAfter(cur, move, rules.unit), PoolAfter(pool, move, rules.unit);
            && P.Covers(cur', users) && PoolOk(pool', rules.unit)
            && (move.Harvest? ==> Of(cur'[move.user], move.res) == Of(cur[move.user], move.res) - rules.unit)
            && forall r :: Sum(users, cur', r) + Of(pool', r) == Sum(users, cur, r) + Of(pool, r)
  {
    hide Sum, Distinct, PoolOk;
    if !move.Nothing? {
      var u, r := move.user, move.res;
      var cur', pool' := SharesAfter(cur, move, rules.unit), PoolAfter(pool, move, rules.unit);
      assert pool' == if move.Grant? then Plus(pool, r, -rules.unit) else Plus(pool, r, rules.unit);
      PoolMoves(pool, r, rules.unit);
      forall r': Resource ensures Sum(users, cur', r') + Of(pool', r') == Sum(users, cur, r') + Of(pool, r') {
        SumUpdate(users, cur, u, cur'[u], r');
        assert r' == r || r' == Opposite(r);
      }
    }
  }

  /** A move is about one unit of one resource of one user: nobody else's shares and no other
    resource change, and the pool moves the other way. */
  lemma MoveIsOneUnit(cur: map<int, Bundle>, pool: Bundle, move: Move, rules: Rules)
    requires Legal(cur, pool, move, rules) && rules.unit > 0.0 && rules.min.cache >= 0.0 && rules.min.memBw >= 0.0
    ensures var cur', pool' := SharesAfter(cur, move, rules.unit), PoolAfter(pool, move, rules.unit);
            && cur'.Keys == cur.Keys && (move.Nothing? ==> cur' == cur && pool' == pool)
            && (!move.Nothing? ==>
                  var d := if move.Grant? then rules.unit else -rules.unit;
                  && Of(cur'[move.user], move.res) == Of(cur[move.user], move.res) + d
                  && Of(cur'[move.user], Opposite(move.res)) == Of(cur[move.user], Opposite(move.res))
                  && Of(pool', move.res) == Of(pool, move.res) - d && Of(pool', Opposite(move.res)) == Of(pool, Opposite(move.res))
                  && forall u :: u in cur && u != move.user ==> cur'[u] == cur[u])
  {
  }

  /** What a user is to try next: what its last decision names, else its general type, else cache. */
  lemma TypeIs(u: int, ds: map<int, Decision>, types: map<int, Resource>)
    ensures u in ds ==> TypeOf(u, ds, types) == ds[u].res
    ensures u !in ds && u in types ==> TypeOf(u, ds, types) == types[u]
    ensures u !in ds && u !in types ==> TypeOf(u, ds, types) == Cache
  {
  }

  /** The ratio compared is that of the current performance to the baseline. */
  lemma RatioIs(perf: real, baseline: real)
    ensures baseline > 0.0 ==> RatioOf(perf, baseline).Finite? && RatioOf(perf, baseline).value * baseline == perf
    ensures baseline <= 0.0 ==> RatioOf(perf, baseline) == Infinite
  {
  }

  /** Shares within their limits stay within them. */
  lemma MoveConserves(users: seq<int>, cur: map<int, Bundle>, pool: Bundle, move: Move, rules: Rules)
    requires Distinct(users) && AllInBounds(users, cur, rules) && PoolOk(pool, rules.unit) && Legal(cur, pool, move, rules)
    requires rules.unit > 0.0 && rules.min.cache >= 0.0 && rules.min.memBw >= 0.0 && (!move.Nothing? ==> move.user in users)
    ensures var cur', pool' := SharesAfter(cur, move, rules.unit), PoolAfter(pool, move, rules.unit);
            && AllInBounds(users, cur', rules) && PoolOk(pool', rules.unit)
            && (move.Harvest? ==> Of(cur'[move.user], move.res) == Of(cur[move.user], move.res) - rules.unit)
            && forall r :: Sum(users, cur', r) + Of(pool', r) == Sum(users, cur, r) + Of(pool, r)
  {
    hide Sum, PoolOk;
    MoveKeepsTotal(users, cur, pool, move, rules);
  }

  lemma PoolMoves(pool: Bundle, r: Resource, unit: real)
    requires PoolOk(pool, unit) && unit > 0.0
    ensures PoolOk(Plus(pool, r, unit), unit)
    ensures Of(pool, r) > 0.0 ==> PoolOk(Plus(pool, r, -unit), unit)
  {
    hide IsMultiple;
    PoolOf(pool, unit, r);
    MultipleUp(Of(pool, r), unit);
    if Of(pool, r) > 0.0 {
      MultipleDown(Of(pool, r), unit);
    }
  }

  /** What a run on one VM keeps. */
  ghost predicate Conserving(users: seq<int>, alloc: map<int, Bundle>, pool: Bundle, rules: Rules)
  {
    && AllInBounds(users, alloc, rules) && PoolOk(pool, rules.unit)
    && forall r :: Sum(users, alloc, r) + Of(pool, r) <= 1.0
  }

  // ----- the allocator ------------------------------------------------------------

  /** What is measured in a round: performance before and after the re-examination, and the time. */
  datatype Input = Input(before: map<int, real>, perf: map<int, real>, now: real)

  function TypesAfter(users: seq<int>, ds: map<int, Decision>, perf: map<int, real>, types: map<int, Resource>): map<int, Resource>
  {
    if Reexamines(users, ds, perf) then var u := Latest(users, ds).value; types[u := Rechecked(ds[u], perf[u]).res] else types
  }

  /** Re-examining touches at most one decision, that of the most recently adjusted user if it is
    measured and its id is not zero.  It keeps direction and time and takes the new performance.
    The resource switches exactly when a reduction cost more than the margin or a grant cost at
    least that; a reduction is revoked exactly when it cost more than the greater margin, and
    then the resource switches as well. */
  predicate OnlyReexamined(users: seq<int>, ds: map<int, Decision>, types: map<int, Resource>, perf: map<int, real>,
                           ds': map<int, Decision>, types': map<int, Resource>, revoked: Option<(int, Resource)>)
  {
    var l := Latest(users, ds);
    if l.None? || l.value == 0 || l.value !in perf then ds' == ds && types' == types && revoked == None
    else
      var u := l.value;
      && u in users && ds'.Keys == ds.Keys && types'.Keys == types.Keys + {u}
      && (forall v :: v in ds && v != u ==> ds'[v] == ds[v])
      && (forall v :: v in types && v != u ==> types'[v] == types[v])
      && ds'[u].dir == ds[u].dir && ds'[u].lastUpdated == ds[u].lastUpdated && ds'[u].performance == perf[u]
      && types'[u] == ds'[u].res
      && var loss := ds[u].performance - perf[u];
         && (ds'[u].res != ds[u].res <==> if ds[u].dir == Down then loss > PERF_MARGIN else loss >= PERF_MARGIN)
         && (revoked.Some? <==> ds[u].dir == Down && loss > REVOKE_MARGIN)
         && (revoked.Some? ==> revoked.value == (u, ds[u].res) && ds'[u].res == Opposite(ds[u].res))
  }

  method Recheck(users: seq<int>, ds: map<int, Decision>, types: map<int, Resource>, perf: map<int, real>)
    returns (ds': map<int, Decision>, types': map<int, Resource>, revoked: Option<(int, Resource)>)
    ensures ds' == DecisionsAfter(users, ds, perf) && types' == TypesAfter(users, ds, perf, types) && revoked == Revocation(users, ds, perf)
    ensures OnlyReexamined(users, ds, types, perf, ds', types', revoked)
  {
    ds', types', revoked := ds, types, None;
    var latest := FindLatest(users, ds);
    LatestIsLatest(users, ds);
    if latest.Some? && latest.value != 0 && latest.value in perf {
      var u := latest.value;
      if Revokes(ds[u], perf[u]) {
        revoked := Some((u, ds[u].res));
      }
      var d := Rechecked(ds[u], perf[u]);
      ds', types' := ds[u := d], types[u := d.res];
    }
  }

  /** The record kept of a move; after a harvest the other resource is tried next. */
  function Recorded(ds: map<int, Decision>, move: Move, perf: map<int, real>, now: real): map<int, Decision>
    requires !move.Nothing? ==> move.user in perf
  {
    match move
    case Nothing => ds
    case Grant(u, r) => ds[u := Decision(r, Up, perf[u], now)]
    case Harvest(u, r) => ds[u := Decision(Opposite(r), Down, perf[u], now)]
  }

  function TypesWith(types: map<int, Resource>, move: Move): map<int, Resource>
  {
    match move
    case Nothing => types
    case Grant(u, r) => types[u := r]
    case Harvest(u, r) => types[u := Opposite(r)]
  }

  predicate MoveMeasured(move: Move, perf: map<int, real>)
  {
    !move.Nothing? ==> move.user in perf
  }

  /** The total after a move. */
  function SumAfter(users: seq<int>, cur: map<int, Bundle>, move: Move, unit: real, r: Resource): real
    requires P.Covers(cur, users) && MoveIn(cur, move)
  {
    Sum(users, SharesAfter(cur, move, unit), r)
  }

  predicate IsMoved(users: seq<int>, cur: map<int, Bundle>, move: Move, unit: real, after: map<int, Bundle>)
    requires P.Covers(cur, users) && MoveIn(cur, move)
  {
    P.Covers(after, users) && forall k :: 0 <= k < |users| ==> after[users[k]] == SharesAfter(cur, move, unit)[users[k]]
  }

  /** Choosing and making a move, and normalising unless nobody could be chosen. */
  method Adjust(users: seq<int>, v: View, pool: Bundle) returns (move: Move, chosen: bool, after: map<int, Bundle>)
    requires Distinct(users) && P.Covers(v.cur, users) && forall u :: u in v.cur <==> u in users
    ensures IsMove(users, v, pool, move) && (chosen <==> !IsWorst(users, v, None)) && (!chosen ==> move == Nothing)
    ensures MoveIn(v.cur, move) && MoveMeasured(move, v.perf) && (!move.Nothing? ==> move.user in users)
    ensures P.Covers(after, users) && after.Keys == v.cur.Keys
    ensures forall r :: Sum(users, after, r) <= SumAfter(users, v.cur, move, v.rules.unit, r)
    ensures (forall r :: Sum(users, v.cur, r) <= 1.0) ==> forall r :: Sum(users, after, r) <= 1.0
    ensures (forall r :: SumAfter(users, v.cur, move, v.rules.unit, r) <= 1.0) ==> IsMoved(users, v.cur, move, v.rules.unit, after)
  {
    hide Sum, Distinct, Explains;
    var worst;
    move, worst := ChooseMove(users, v, pool);
    MoveIsMeasured(users, v, pool, move);
    chosen := worst.Some?;
    after := v.cur;
    if chosen {
      after := Normalize(users, SharesAfter(v.cur, move, v.rules.unit));
      if forall r: Resource :: SumAfter(users, v.cur, move, v.rules.unit, r) <= 1.0 {
        ghost var moved := SharesAfter(v.cur, move, v.rules.unit);
        forall r: Resource, k | 0 <= k < |users| ensures Of(after[users[k]], r) == Of(moved[users[k]], r) {
          assert SumAfter(users, v.cur, move, v.rules.unit, r) <= 1.0;
          assert Sum(users, moved, r) <= 1.0;
        }
        SameShares(users, SharesAfter(v.cur, move, v.rules.unit), after);
      }
    }
  }

  lemma StoreMoved(users: seq<int>, cur: map<int, Bundle>, move: Move, unit: real, after: map<int, Bundle>, all: map<int, Bundle>)
    requires P.Covers(cur, users) && MoveIn(cur, move) && P.Covers(after, users) && forall u :: u in after ==> u in all && all[u] == after[u]
    ensures P.Covers(all, users) && forall r :: Sum(users, all, r) == Sum(users, after, r)
    ensures IsMoved(users, cur, move, unit, after) ==> IsMoved(users, cur, move, unit, all)
  {
    hide Sum, SharesAfter;
    StoreShares(users, all, after);
  }

  lemma CoversMember<T>(users: seq<int>, m: map<int, T>, u: int)
    requires P.Covers(m, users) && u in users
    ensures u in m
  {
  }

  lemma MoveIsMeasured(users: seq<int>, v: View, pool: Bundle, move: Move)
    requires IsMove(users, v, pool, move)
    ensures MoveMeasured(move, v.perf) && MoveIn(v.cur, move)
  {
  }

  /** What a round of one VM reads and writes. */
  datatype Fields = Fields(last: map<int, Bundle>, pool: Bundle, ds: map<int, Decision>, types: map<int, Resource>, skip: set<int>,
                           baseline: map<int, real>, fixed: Option<map<int, Bundle>>)

  /** What the round's choice is based on: the shares as they were before any revocation. */
  function ViewOf(f: Fields, users: seq<int>, i: Input, rules: Rules): View
    requires users != []
  {
    View(InitialShares(users, f.last), DecisionsAfter(users, f.ds, i.before), TypesAfter(users, f.ds, i.before, f.types),
         f.skip, i.perf, f.baseline, rules)
  }

  function PoolFor(f: Fields, users: seq<int>, i: Input, rules: Rules): Bundle
  {
    PoolAfterRevocation(f.pool, Revocation(users, f.ds, i.before), rules.unit)
  }

  /** A round: one move, chosen on the re-examined decisions.  A revocation changes the pool and
    nothing else, because the shares are overwritten by the copy made before it. */
  ghost predicate IsRound(f: Fields, users: seq<int>, i: Input, rules: Rules, move: Move, f': Fields)
    requires users != []
  {
    var v, pool := ViewOf(f, users, i, rules), PoolFor(f, users, i, rules);
    && IsMove(users, v, pool, move) && MoveIn(v.cur, move) && MoveMeasured(move, i.perf)
    && f'.pool == PoolAfter(pool, move, rules.unit)
    && f'.ds == Recorded(v.ds, move, i.perf, i.now) && f'.types == TypesWith(v.types, move)
    && f'.skip == (if IsWorst(users, v, None) then f.skip else if move.Nothing? then {} else {move.user})
    && f'.baseline == f.baseline && f'.fixed == f.fixed && P.Covers(f'.last, users)
    && (forall r :: Sum(users, f'.last, r) <= SumAfter(users, v.cur, move, rules.unit, r))
    && ((forall r :: Sum(users, v.cur, r) <= 1.0) ==> forall r :: Sum(users, f'.last, r) <= 1.0)
    && ((forall r :: SumAfter(users, v.cur, move, rules.unit, r) <= 1.0) ==> IsMoved(users, v.cur, move, rules.unit, f'.last))
    && (forall u :: u in f.last && u !in users ==> u in f'.last && f'.last[u] == f.last[u])
  }

  /** Only users that have shares have decisions. */
  predicate Decided(ds: map<int, Decision>, last: map<int, Bundle>)
  {
    ds.Keys <= last.Keys
  }

  lemma StillDecided(f: Fields, users: seq<int>, i: Input, ds: map<int, Decision>, move: Move, after: map<int, Bundle>)
    requires Decided(f.ds, f.last) && ds == DecisionsAfter(users, f.ds, i.before) && MoveMeasured(move, i.perf)
    requires f.last.Keys <= after.Keys && P.Covers(after, users) && (!move.Nothing? ==> move.user in users)
    ensures Decided(Recorded(ds, move, i.perf, i.now), after)
  {
    if !move.Nothing? {
      CoversMember(users, after, move.user);
    }
  }

  method Step(f: Fields, users: seq<int>, i: Input, rules: Rules) returns (move: Move, f': Fields)
    requires users != [] && Distinct(users) && Decided(f.ds, f.last)
    ensures IsRound(f, users, i, rules, move, f')
    ensures f.last.Keys <= f'.last.Keys && Decided(f'.ds, f'.last)
  {
    hide Sum, SumAfter, Distinct, IsMove, IsWorst, DecisionsAfter, TypesAfter, Revocation, InitialShares,
      PoolAfterRevocation, PoolAfter, SharesAfter, IsMoved, Recorded, Plus, P.Covers, TypesWith;
    var cur := InitialShares(users, f.last);
    var ds, types, revoked := Recheck(users, f.ds, f.types, i.before);
    var last := f.last;
    if revoked.Some? {
      var (u, r) := revoked.value;
      last := last[u := Plus(last[u], r, rules.unit)];
    }
    var pool := PoolAfterRevocation(f.pool, revoked, rules.unit);
    var v := View(cur, ds, types, f.skip, i.perf, f.baseline, rules);
    var chosen, after;
    move, chosen, after := Adjust(users, v, pool);
    f' := Fields(last + after, PoolAfter(pool, move, rules.unit), Recorded(ds, move, i.perf, i.now), TypesWith(types, move),
                 if !chosen then f.skip else if move.Nothing? then {} else {move.user}, f.baseline, f.fixed);
    StoreMoved(users, cur, move, rules.unit, after, f'.last);
    StillDecided(f, users, i, ds, move, f'.last);
  }

  /** On one VM a round creates nothing: shares and pool together stay the same, less the unit
    a revocation takes out of a non-empty pool; normalisation has nothing to do. */
  lemma RoundConserves(f: Fields, users: seq<int>, i: Input, rules: Rules, move: Move, f': Fields)
    requires users != [] && Distinct(users) && IsRound(f, users, i, rules, move, f') && Conserving(users, f.last, f.pool, rules)
    requires rules.unit > 0.0 && rules.min.cache >= 0.0 && rules.min.memBw >= 0.0
    ensures Conserving(users, f'.last, f'.pool, rules)
    ensures IsMoved(users, InitialShares(users, f.last), move, rules.unit, f'.last)
    ensures forall r :: Sum(users, f'.last, r) + Of(f'.pool, r)
                        == Sum(users, f.last, r) + Of(f.pool, r) - Lost(f.pool, Revocation(users, f.ds, i.before), rules.unit, r)
  {
    hide IsMove, IsWorst, PoolOk, Revocation, DecisionsAfter, TypesAfter, Sum, Legal, Distinct, InitialShares, SharesAfter, PoolAfter, PoolAfterRevocation;
    var v, pool, lost := ViewOf(f, users, i, rules), PoolFor(f, users, i, rules), Revocation(users, f.ds, i.before);
    InitialIsLast(users, f.last);
    BoundsFrame(users, v.cur, f.last, rules);
    RevocationLoses(f.pool, lost, rules.unit);
    MoveIsLegal(users, v, pool, move);
    MoveConserves(users, v.cur, pool, move, rules);
    PoolNonNegative(f'.pool, rules.unit);
    var moved := SharesAfter(v.cur, move, rules.unit);
    forall r: Resource ensures SumAfter(users, v.cur, move, rules.unit, r) <= 1.0 {
      assert Sum(users, moved, r) + Of(f'.pool, r) == Sum(users, v.cur, r) + Of(pool, r);
    }
    SumOfMoved(users, moved, f'.last);
    BoundsFrame(users, f'.last, moved, rules);
  }

  lemma PoolNonNegative(pool: Bundle, unit: real)
    requires PoolOk(pool, unit) && unit > 0.0
    ensures forall r :: Of(pool, r) >= 0.0
  {
  }

  lemma SumOfMoved(users: seq<int>, a: map<int, Bundle>, b: map<int, Bundle>)
    requires P.Covers(a, users) && P.Covers(b, users) && forall k :: 0 <= k < |users| ==> b[users[k]] == a[users[k]]
    ensures forall r :: Sum(users, b, r) == Sum(users, a, r)
  {
    forall r ensures Sum(users, b, r) == Sum(users, a, r) {
      SumFrame(users, b, a, r);
    }
  }

  /** The user whose reduction is revoked does not get its unit back, unless the round's own
    move happens to be about that user. */
  lemma RevocationReturnsNothing(f: Fields, users: seq<int>, i: Input, rules: Rules, move: Move, f': Fields)
    requires users != [] && Distinct(users) && IsRound(f, users, i, rules, move, f') && Conserving(users, f.last, f.pool, rules)
    requires rules.unit > 0.0 && rules.min.cache >= 0.0 && rules.min.memBw >= 0.0
    requires var revoked := Revocation(users, f.ds, i.before); revoked.Some? && (move.Nothing? || move.user != revoked.value.0)
    ensures var u := Revocation(users, f.ds, i.before).value.0; u in f.last && u in f'.last && f'.last[u] == f.last[u]
  {
    RoundConserves(f, users, i, rules, move, f');
    InitialIsLast(users, f.last);
    LatestIsLatest(users, f.ds);
    var u := Revocation(users, f.ds, i.before).value.0;
    hide Conserving, IsMove, IsWorst, Sum, SumAfter;
    var k :| 0 <= k < |users| && users[k] == u;
  }

  // ----- static rounds ------------------------------------------------------------

  function EqualShare(n: nat): Bundle
    requires n > 0
  {
    S.Bundle(1.0 / n as real, 1.0 / n as real)
  }

  function SharesOf(users: seq<int>, n: nat): map<int, Bundle>
    requires n > 0
  {
    map u | u in users :: EqualShare(n)
  }

  /** Equal shares on every VM. */
  function StaticShares(vms: seq<seq<int>>): map<int, Bundle>
  {
    if vms == [] then map[]
    else
      var vm := vms[|vms| - 1];
      StaticShares(vms[..|vms| - 1]) + if vm == [] then map[] else SharesOf(vm, |vm|)
  }

  /** No application runs on two VMs. */
  predicate Separate(vms: seq<seq<int>>)
  {
    forall v, w, u :: 0 <= v < w < |vms| && u in vms[v] ==> u !in vms[w]
  }

  lemma {:induction false} StaticShareOf(vms: seq<seq<int>>, v: nat, u: int)
    requires Separate(vms) && v < |vms| && u in vms[v]
    ensures u in StaticShares(vms) && StaticShares(vms)[u] == EqualShare(|vms[v]|)
  {
    var n := |vms| - 1;
    if v < n {
      StaticShareOf(vms[..n], v, u);
      assert u in vms[v] && u !in vms[n];
    }
  }

  lemma StaticCovers(vms: seq<seq<int>>, v: nat)
    requires Separate(vms) && v < |vms|
    ensures P.Covers(StaticShares(vms), vms[v])
    ensures vms[v] != [] ==> forall r :: Sum(vms[v], StaticShares(vms), r) == 1.0
  {
    hide StaticShares, EqualShare;
    var vm, alloc := vms[v], StaticShares(vms);
    forall k | 0 <= k < |vm| ensures vm[k] in alloc && alloc[vm[k]] == EqualShare(|vm|) {
      StaticShareOf(vms, v, vm[k]);
    }
    if vm != [] {
      forall r: Resource ensures Sum(vm, alloc, r) == 1.0 {
        EqualSum(vm, alloc, r);
      }
    }
  }

  lemma EqualSum(users: seq<int>, alloc: map<int, Bundle>, r: Resource)
    requires users != [] && P.Covers(alloc, users) && forall k :: 0 <= k < |users| ==> alloc[users[k]] == EqualShare(|users|)
    ensures Sum(users, alloc, r) == 1.0
  {
    var n := |users| as real;
    SumOfEqual(users, alloc, r, 1.0 / n);
    assert n * (1.0 / n) == 1.0;
  }

  /** Handing out everything again beside a pool keeps the bound exactly when the pool is empty. */
  lemma FullVmFitsIff(users: seq<int>, alloc: map<int, Bundle>, pool: Bundle, unit: real, r: Resource)
    requires P.Covers(alloc, users) && Sum(users, alloc, r) == 1.0 && PoolOk(pool, unit) && unit > 0.0
    ensures Sum(users, alloc, r) + Of(pool, r) <= 1.0 <==> Of(pool, r) == 0.0
  {
    PoolOf(pool, unit, r);
    MultipleNonNegative(Of(pool, r), unit);
  }

  /** On every VM that has users, shares and pool together stay within one exactly for a resource
    the pool has none of. */
  predicate FitsExactlyBesideEmptyPool(vms: seq<seq<int>>, alloc: map<int, Bundle>, pool: Bundle)
  {
    forall v, r :: 0 <= v < |vms| && vms[v] != [] ==> FitsIffNone(vms[v], alloc, pool, r)
  }

  predicate FitsIffNone(users: seq<int>, alloc: map<int, Bundle>, pool: Bundle, r: Resource)
  {
    P.Covers(alloc, users) && (Sum(users, alloc, r) + Of(pool, r) <= 1.0 <==> Of(pool, r) == 0.0)
  }

  lemma StaticRoundConservesIff(vms: seq<seq<int>>, pool: Bundle, unit: real)
    requires Separate(vms) && PoolOk(pool, unit) && unit > 0.0
    ensures FitsExactlyBesideEmptyPool(vms, StaticShares(vms), pool)
  {
    hide Sum, PoolOk, StaticShares, Separate;
    forall v, r | 0 <= v < |vms| && vms[v] != [] ensures FitsIffNone(vms[v], StaticShares(vms), pool, r) {
      StaticCovers(vms, v);
      FullVmFitsIff(vms[v], StaticShares(vms), pool, unit, r);
    }
  }

  /** `_get_static_allocation_for_vm`. */
  method SplitVm(before: map<int, Bundle>, vm: seq<int>) returns (alloc: map<int, Bundle>)
    ensures alloc == before + if vm == [] then map[] else SharesOf(vm, |vm|)
  {
    hide EqualShare;
    alloc := before;
    for k := 0 to |vm|
      invariant alloc == before + if k == 0 then map[] else SharesOf(vm[..k], |vm|)
    {
      alloc := alloc[vm[k] := EqualShare(|vm|)];
    }
    assert vm[..|vm|] == vm;
  }

  /** `_get_static_allocation_with_vm_mapping`. */
  method SplitEqually(vms: seq<seq<int>>) returns (alloc: map<int, Bundle>)
    ensures alloc == StaticShares(vms)
  {
    hide SharesOf;
    alloc := map[];
    for v := 0 to |vms|
      invariant alloc == StaticShares(vms[..v])
    {
      alloc := SplitVm(alloc, vms[v]);
      assert vms[..v + 1][..v] == vms[..v];
    }
    assert vms[..|vms|] == vms;
  }

  /** The last allocation is the static one, up to the tolerance. */
  predicate Matches(users: seq<int>, last: map<int, Bundle>, fixed: map<int, Bundle>)
  {
    forall k :: 0 <= k < |users| ==>
      && users[k] in last && users[k] in fixed
      && Abs(last[users[k]].cache - fixed[users[k]].cache) <= STATIC_TOLERANCE
      && Abs(last[users[k]].memBw - fixed[users[k]].memBw) <= STATIC_TOLERANCE
  }

  /** The performance of the measured users. */
  function Recordable(users: seq<int>, perf: map<int, real>): map<int, real>
  {
    map u | u in users && u in perf :: perf[u]
  }

  /** The resource measured users are to try first. */
  function FirstTypes(users: seq<int>, perf: map<int, real>): map<int, Resource>
  {
    map u | u in users && u in perf :: MemBw
  }

  /** What the start of a call does to the fields: while the shares are the static ones, the
    measurements of the call become the baseline, and measured users are to try bandwidth. */
  function Rerecorded(f: Fields, users: seq<int>, perf: map<int, real>): Fields
  {
    if f.fixed.Some? && Matches(users, f.last, f.fixed.value)
    then f.(baseline := Recordable(users, perf), types := f.types + FirstTypes(users, perf))
    else f
  }

  /** `allocate_and_parse` in a dynamic round, for a single VM.  Baseline and round read the same
    measurements. */
  ghost predicate IsCall(f: Fields, users: seq<int>, i: Input, rules: Rules, move: Move, f': Fields)
    requires users != []
  {
    IsRound(Rerecorded(f, users, i.before), users, i, rules, move, f')
  }

  /** A VM with these users alone after one or more static rounds, and nothing else yet. */
  predicate Started(f: Fields, users: seq<int>)
  {
    && f.last == StaticShares([users]) && f.fixed == Some(f.last) && f.pool == S.Bundle(0.0, 0.0) && f.ds == map[] && f.skip == {}
    && forall u :: u in f.types ==> f.types[u] == MemBw
  }

  predicate DecidedIn(decisions: map<int, map<int, Decision>>, last: map<int, Bundle>)
  {
    forall vm :: vm in decisions ==> Decided(decisions[vm], last)
  }

  lemma DecidedAt(decisions: map<int, map<int, Decision>>, last: map<int, Bundle>, vm: int)
    requires DecidedIn(decisions, last)
    ensures Decided(if vm in decisions then decisions[vm] else map[], last)
  {
  }

  lemma StillAllDecided(decisions: map<int, map<int, Decision>>, vm: int, last: map<int, Bundle>, f: Fields)
    requires DecidedIn(decisions, last) && last.Keys <= f.last.Keys && Decided(f.ds, f.last)
    ensures DecidedIn(decisions[vm := f.ds], f.last)
  {
    forall v | v in decisions ensures Decided(decisions[v], f.last) {
      assert Decided(decisions[v], last);
    }
  }

  class IncrementalTradeAllocator {
    const rules: Rules
    var lastAllocation: map<int, Bundle>
    var lastStatic: Option<map<int, Bundle>>
    var baseline: map<int, real>
    var pool: Bundle
    var decisions: map<int, map<int, Decision>>
    var lastAdjusted: map<int, set<int>>
    var types: map<int, Resource>

    constructor (rules: Rules)
      ensures this.rules == rules && lastAllocation == map[] && lastStatic == None && baseline == map[]
      ensures pool == S.Bundle(0.0, 0.0) && decisions == map[] && lastAdjusted == map[] && types == map[]
    {
      this.rules := rules;
      lastAllocation, lastStatic, baseline := map[], None, map[];
      pool, decisions, lastAdjusted, types := S.Bundle(0.0, 0.0), map[], map[], map[];
    }

    function FieldsOf(vm: int): Fields
      reads this
    {
      Fields(lastAllocation, pool, if vm in decisions then decisions[vm] else map[], types,
             if vm in lastAdjusted then lastAdjusted[vm] else {}, baseline, lastStatic)
    }

    ghost predicate AllDecided()
      reads this
    {
      DecidedIn(decisions, lastAllocation)
    }

    /** The per-VM static round: equal shares on every VM, and nothing else changes.  The pool is
      not emptied, so a VM's shares and the pool stay within one exactly when there was nothing
      in the pool. */
    method AllocateStatic(vms: seq<seq<int>>)
      requires Separate(vms)
      modifies this`lastAllocation, this`lastStatic
      ensures lastAllocation == StaticShares(vms) && lastStatic == Some(lastAllocation)
      ensures PoolOk(pool, rules.unit) && rules.unit > 0.0 ==> FitsExactlyBesideEmptyPool(vms, lastAllocation, pool)
    {
      hide Sum, PoolOk, FitsExactlyBesideEmptyPool;
      lastAllocation := SplitEqually(vms);
      lastStatic := Some(lastAllocation);
      if PoolOk(pool, rules.unit) && rules.unit > 0.0 {
        StaticRoundConservesIff(vms, pool, rules.unit);
      }
    }

    /** `_update_last_static_performance`: the baseline is recorded exactly while the allocation
      is the static one, and every user it is recorded for is to try bandwidth first. */
    method RecordBaseline(users: seq<int>, perf: map<int, real>) returns (recorded: bool)
      modifies this`baseline, this`types
      ensures recorded <==> lastStatic.Some? && Matches(users, lastAllocation, lastStatic.value)
      ensures !recorded ==> baseline == old(baseline) && types == old(types)
      ensures recorded ==> baseline == Recordable(users, perf) && types == old(types) + FirstTypes(users, perf)
    {
      if lastStatic.None? {
        return false;
      }
      for k := 0 to |users|
        invariant Matches(users[..k], lastAllocation, lastStatic.value)
      {
        var u, fixed := users[k], lastStatic.value;
        if u !in lastAllocation || u !in fixed
          || Abs(lastAllocation[u].cache - fixed[u].cache) > STATIC_TOLERANCE
          || Abs(lastAllocation[u].memBw - fixed[u].memBw) > STATIC_TOLERANCE
        {
          return false;
        }
      }
      assert users[..|users|] == users;
      baseline, types := Recordable(users, perf), types + FirstTypes(users, perf);
      return true;
    }

    /** How a VM comes to its first dynamic round: by static rounds, each of which records what
      was measured before it. */
    static method Begin(rules: Rules, vm: int, users: seq<int>, earlier: seq<map<int, real>>) returns (a: IncrementalTradeAllocator)
      ensures fresh(a) && a.rules == rules && a.AllDecided() && Started(a.FieldsOf(vm), users)
    {
      hide StaticShares;
      a := new IncrementalTradeAllocator(rules);
      a.AllocateStatic([users]);
      for k := 0 to |earlier|
        invariant fresh(a) && a.AllDecided() && Started(a.FieldsOf(vm), users)
      {
        var recorded := a.RecordBaseline(users, earlier[k]);
        a.AllocateStatic([users]);
      }
    }

    /** `allocate`, followed by the update of the last allocation. */
    method Round(vm: int, users: seq<int>, i: Input) returns (move: Move)
      requires users != [] && Distinct(users) && AllDecided()
      modifies this`lastAllocation, this`pool, this`types, this`decisions, this`lastAdjusted
      ensures AllDecided() && old(lastAllocation).Keys <= lastAllocation.Keys
      ensures IsRound(old(FieldsOf(vm)), users, i, rules, move, FieldsOf(vm))
      ensures forall v :: v != vm ==> FieldsOf(v).ds == old(FieldsOf(v).ds) && FieldsOf(v).skip == old(FieldsOf(v).skip)
    {
      hide IsRound, P.Covers, Distinct, Decided, DecidedIn;
      DecidedAt(decisions, lastAllocation, vm);
      var f;
      move, f := Step(FieldsOf(vm), users, i, rules);
      BaselineKept(FieldsOf(vm), users, i, rules, move, f);
      StillAllDecided(decisions, vm, lastAllocation, f);
      lastAllocation, pool, types := f.last, f.pool, f.types;
      decisions, lastAdjusted := decisions[vm := f.ds], lastAdjusted[vm := f.skip];
      assert FieldsOf(vm) == f;
    }

    /** A dynamic call for a single VM. */
    method Call(vm: int, users: seq<int>, i: Input) returns (move: Move)
      requires users != [] && Distinct(users) && AllDecided()
      modifies this`lastAllocation, this`pool, this`baseline, this`types, this`decisions, this`lastAdjusted
      ensures AllDecided() && IsCall(old(FieldsOf(vm)), users, i, rules, move, FieldsOf(vm))
      ensures forall v :: v != vm ==> FieldsOf(v).ds == old(FieldsOf(v).ds) && FieldsOf(v).skip == old(FieldsOf(v).skip)
    {
      hide IsRound, P.Covers, Distinct, DecidedIn, Matches, Recordable, FirstTypes;
      var recorded := RecordBaseline(users, i.before);
      assert FieldsOf(vm) == Rerecorded(old(FieldsOf(vm)), users, i.before);
      move := Round(vm, users, i);
    }

    /** Any run of calls for one VM from the first static round on creates no resource. */
    method Run(vm: int, users: seq<int>, inputs: seq<Input>)
      requires users != [] && Distinct(users) && AllDecided() && Conserving(users, lastAllocation, pool, rules)
      requires rules.unit > 0.0 && rules.min.cache >= 0.0 && rules.min.memBw >= 0.0
      modifies this`lastAllocation, this`pool, this`baseline, this`types, this`decisions, this`lastAdjusted
      ensures Conserving(users, lastAllocation, pool, rules)
      ensures forall r :: Sum(users, lastAllocation, r) + Of(pool, r) <= old(Sum(users, lastAllocation, r) + Of(pool, r))
    {
      hide IsRound, Distinct, Sum, Of, Rerecorded;
      for k := 0 to |inputs|
        invariant AllDecided() && Conserving(users, lastAllocation, pool, rules)
        invariant forall r :: Sum(users, lastAllocation, r) + Of(pool, r) <= old(Sum(users, lastAllocation, r) + Of(pool, r))
      {
        ghost var f := FieldsOf(vm);
        var move := Call(vm, users, inputs[k]);
        RecordingKeeps(f, users, inputs[k].before);
        RoundConserves(Rerecorded(f, users, inputs[k].before), users, inputs[k], rules, move, FieldsOf(vm));
      }
    }

    /** With several VMs drawing on the same pool, a VM's shares still sum to at most one, the
      shares of all VMs and the pool together never grow, and the pool holds whole units. */
    method RunMany(vms: seq<seq<int>>, calls: seq<Measurements>)
      requires AllDecided() && Separate(vms) && forall v :: 0 <= v < |vms| ==> vms[v] != [] && Distinct(vms[v])
      requires forall k :: 0 <= k < |calls| ==> |calls[k].inputs| == |vms|
      requires AtMostOne(vms, lastAllocation) && PoolOk(pool, rules.unit)
      requires rules.unit > 0.0 && rules.min.cache >= 0.0 && rules.min.memBw >= 0.0
      modifies this`lastAllocation, this`pool, this`baseline, this`types, this`decisions, this`lastAdjusted
      ensures AtMostOne(vms, lastAllocation) && PoolOk(pool, rules.unit)
      ensures forall r :: Stock(vms, lastAllocation, pool, r) <= old(Stock(vms, lastAllocation, pool, r))
    {
      hide IsRound, Distinct, AtMostOne, PoolOk, Stock, Matches, Recordable, FirstTypes, Flattened;
      for k := 0 to |calls|
        invariant AllDecided() && AtMostOne(vms, lastAllocation) && PoolOk(pool, rules.unit)
        invariant forall r :: Stock(vms, lastAllocation, pool, r) <= old(Stock(vms, lastAllocation, pool, r))
      {
        var recorded := RecordBaseline(Flattened(vms), calls[k].measured);
        for v := 0 to |vms|
          invariant AllDecided() && AtMostOne(vms, lastAllocation) && PoolOk(pool, rules.unit)
          invariant forall r :: Stock(vms, lastAllocation, pool, r) <= old(Stock(vms, lastAllocation, pool, r))
        {
          ghost var f := FieldsOf(v);
          var move := Round(v, vms[v], calls[k].inputs[v]);
          VmRound(vms, v, f, calls[k].inputs[v], rules, move, FieldsOf(v));
        }
      }
    }
  }

  /** What a call reads: the measurements of all users, and what the round of each VM is given. */
  datatype Measurements = Measurements(measured: map<int, real>, inputs: seq<Input>)

  function Flattened(vms: seq<seq<int>>): seq<int>
  {
    if vms == [] then [] else vms[0] + Flattened(vms[1..])
  }

  lemma RecordingKeeps(f: Fields, users: seq<int>, perf: map<int, real>)
    ensures var g := Rerecorded(f, users, perf);
            g.last == f.last && g.pool == f.pool && g.ds == f.ds && g.skip == f.skip && g.fixed == f.fixed
  {
  }

  lemma StaticMatches(users: seq<int>)
    ensures Matches(users, StaticShares([users]), StaticShares([users]))
  {
    forall k | 0 <= k < |users| ensures users[k] in StaticShares([users]) {
      StaticShareOf([users], 0, users[k]);
    }
  }

  lemma BaselineKept(f: Fields, users: seq<int>, i: Input, rules: Rules, move: Move, f': Fields)
    requires users != [] && IsRound(f, users, i, rules, move, f')
    ensures f'.baseline == f.baseline && f'.fixed == f.fixed
  {
  }

  // ----- many VMs on one pool -----------------------------------------------------

  predicate AtMostOne(vms: seq<seq<int>>, alloc: map<int, Bundle>)
  {
    forall v :: 0 <= v < |vms| ==> P.Covers(alloc, vms[v]) && forall r :: Sum(vms[v], alloc, r) <= 1.0
  }

  predicate AllCovered(vms: seq<seq<int>>, alloc: map<int, Bundle>)
  {
    forall v :: 0 <= v < |vms| ==> P.Covers(alloc, vms[v])
  }

  /** The shares of all VMs together. */
  function GrandTotal(vms: seq<seq<int>>, alloc: map<int, Bundle>, r: Resource): real
    requires AllCovered(vms, alloc)
  {
    if vms == [] then 0.0 else GrandTotal(vms[..|vms| - 1], alloc, r) + Sum(vms[|vms| - 1], alloc, r)
  }

  /** All there is of a resource. */
  function Stock(vms: seq<seq<int>>, alloc: map<int, Bundle>, pool: Bundle, r: Resource): real
    requires AtMostOne(vms, alloc)
  {
    GrandTotal(vms, alloc, r) + Of(pool, r)
  }

  /** A change of one VM's shares changes the grand total by just that. */
  lemma {:induction false} GrandTotalChanges(vms: seq<seq<int>>, v: nat, a: map<int, Bundle>, b: map<int, Bundle>, r: Resource)
    requires v < |vms| && AllCovered(vms, a) && AllCovered(vms, b)
    requires forall w :: 0 <= w < |vms| && w != v ==> Sum(vms[w], b, r) == Sum(vms[w], a, r)
    ensures GrandTotal(vms, b, r) - GrandTotal(vms, a, r) == Sum(vms[v], b, r) - Sum(vms[v], a, r)
  {
    hide Sum;
    var n := |vms| - 1;
    if v < n {
      GrandTotalChanges(vms[..n], v, a, b, r);
    } else {
      GrandTotalSame(vms[..n], a, b, r);
    }
  }

  lemma {:induction false} GrandTotalSame(vms: seq<seq<int>>, a: map<int, Bundle>, b: map<int, Bundle>, r: Resource)
    requires AllCovered(vms, a) && AllCovered(vms, b)
    requires forall w :: 0 <= w < |vms| ==> Sum(vms[w], b, r) == Sum(vms[w], a, r)
    ensures GrandTotal(vms, b, r) == GrandTotal(vms, a, r)
  {
    hide Sum;
    if vms != [] {
      GrandTotalSame(vms[..|vms| - 1], a, b, r);
    }
  }

  lemma OtherVmsKept(vms: seq<seq<int>>, v: nat, f: Fields, i: Input, rules: Rules, move: Move, f': Fields)
    requires v < |vms| && vms[v] != [] && IsRound(f, vms[v], i, rules, move, f') && Separate(vms) && AllCovered(vms, f.last)
    ensures AllCovered(vms, f'.last)
    ensures forall w, r :: 0 <= w < |vms| && w != v ==> Sum(vms[w], f'.last, r) == Sum(vms[w], f.last, r)
  {
    hide Sum, IsMove, IsMoved, SumAfter, IsWorst, InitialShares;
    forall w | 0 <= w < |vms| && w != v
      ensures P.Covers(f'.last, vms[w]) && forall r :: Sum(vms[w], f'.last, r) == Sum(vms[w], f.last, r)
    {
      forall k | 0 <= k < |vms[w]| ensures vms[w][k] in f'.last && f'.last[vms[w][k]] == f.last[vms[w][k]] {
        var u := vms[w][k];
        assert u in vms[w] && u !in vms[v] && u in f.last;
      }
      SumOfMoved(vms[w], f.last, f'.last);
    }
  }

  /** A round of one VM, normalised or not, creates nothing. */
  lemma RoundCreatesNothing(f: Fields, users: seq<int>, i: Input, rules: Rules, move: Move, f': Fields)
    requires users != [] && Distinct(users) && IsRound(f, users, i, rules, move, f') && P.Covers(f.last, users) && PoolOk(f.pool, rules.unit)
    requires rules.unit > 0.0 && rules.min.cache >= 0.0 && rules.min.memBw >= 0.0
    ensures PoolOk(f'.pool, rules.unit)
    ensures forall r :: Sum(users, f'.last, r) + Of(f'.pool, r) <= Sum(users, f.last, r) + Of(f.pool, r)
  {
    hide IsMove, IsWorst, PoolOk, Revocation, DecisionsAfter, TypesAfter, Sum, Legal, Distinct, InitialShares, SharesAfter, PoolAfter, PoolAfterRevocation;
    var v, pool := ViewOf(f, users, i, rules), PoolFor(f, users, i, rules);
    InitialIsLast(users, f.last);
    RevocationLoses(f.pool, Revocation(users, f.ds, i.before), rules.unit);
    MoveIsLegal(users, v, pool, move);
    MoveKeepsTotal(users, v.cur, pool, move, rules);
    forall r: Resource ensures Sum(users, f'.last, r) + Of(f'.pool, r) <= Sum(users, f.last, r) + Of(f.pool, r) {
      assert Sum(users, f'.last, r) <= SumAfter(users, v.cur, move, rules.unit, r);
    }
  }

  lemma VmRound(vms: seq<seq<int>>, v: nat, f: Fields, i: Input, rules: Rules, move: Move, f': Fields)
    requires v < |vms| && vms[v] != [] && Distinct(vms[v]) && IsRound(f, vms[v], i, rules, move, f') && Separate(vms)
    requires AtMostOne(vms, f.last) && PoolOk(f.pool, rules.unit)
    requires rules.unit > 0.0 && rules.min.cache >= 0.0 && rules.min.memBw >= 0.0
    ensures AtMostOne(vms, f'.last) && PoolOk(f'.pool, rules.unit)
    ensures forall r :: Stock(vms, f'.last, f'.pool, r) <= Stock(vms, f.last, f.pool, r)
  {
    hide Sum, PoolOk, Distinct, Separate, GrandTotal, IsMove, IsMoved, SumAfter, IsWorst, InitialShares;
    InitialIsLast(vms[v], f.last);
    OtherVmsKept(vms, v, f, i, rules, move, f');
    RoundCreatesNothing(f, vms[v], i, rules, move, f');
    forall r: Resource ensures Stock(vms, f'.last, f'.pool, r) <= Stock(vms, f.last, f.pool, r) {
      GrandTotalChanges(vms, v, f.last, f'.last, r);
    }
  }
}
