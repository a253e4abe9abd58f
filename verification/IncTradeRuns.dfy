/** Whole runs of `IncrementalTradeAllocator` from the first static round: a VM with one
  application, a unit that is lost, and a static round in mid-run. */
module IncTradeRuns {
  import opened Basics
  import opened RealMath
  import opened TradeShares
  import opened IncTrade
  import S = Sweep
  import P = PriceSearch

  /** f' follows from f by calls with these inputs, making these moves. */
  ghost predicate Runs(f: Fields, users: seq<int>, rules: Rules, inputs: seq<Input>, moves: seq<Move>, f': Fields)
    requires users != []
    decreases |inputs|
  {
    |moves| == |inputs| &&
    if inputs == [] then f' == f
    else exists mid :: IsCall(f, users, inputs[0], rules, moves[0], mid) && Runs(mid, users, rules, inputs[1..], moves[1..], f')
  }

  predicate Sensible(rules: Rules)
  {
    rules.unit > 0.0 && rules.min.cache >= 0.0 && rules.min.memBw >= 0.0
  }

  // ----- what a revocation names --------------------------------------------------

  /** After a harvest the decision names the resource that was not harvested. */
  lemma HarvestNamesOpposite(f: Fields, users: seq<int>, i: Input, rules: Rules, u: int, r: Resource, f': Fields)
    requires users != [] && IsRound(f, users, i, rules, Harvest(u, r), f')
    ensures u in i.perf && u in f'.ds && f'.ds[u] == Decision(Opposite(r), Down, i.perf[u], i.now) && u in f'.types && f'.types[u] == Opposite(r)
  {
  }

  /** After a grant it names the resource that was granted, so that more of it is tried. */
  lemma GrantNamesGranted(f: Fields, users: seq<int>, i: Input, rules: Rules, u: int, r: Resource, f': Fields)
    requires users != [] && IsRound(f, users, i, rules, Grant(u, r), f')
    ensures u in i.perf && u in f'.ds && f'.ds[u] == Decision(r, Up, i.perf[u], i.now) && u in f'.types && f'.types[u] == r
  {
  }

  /** So a revocation in the following round takes its unit from the pool of the other resource,
    and the harvested unit stays where it is. */
  lemma RevocationTakesOpposite(f: Fields, users: seq<int>, i: Input, rules: Rules, u: int, r: Resource, f': Fields, next: Input)
    requires users != [] && IsRound(f, users, i, rules, Harvest(u, r), f')
    requires Latest(users, f'.ds) == Some(u) && Revocation(users, f'.ds, next.before).Some?
    ensures Revocation(users, f'.ds, next.before) == Some((u, Opposite(r)))
    ensures Of(PoolFor(f', users, next, rules), r) == Of(f'.pool, r)
  {
    hide IsRound;
    HarvestNamesOpposite(f, users, i, rules, u, r, f');
  }

  // ----- rounds made explicit -----------------------------------------------------

  predicate Ready(f: Fields, users: seq<int>, i: Input, move: Move)
    requires users != []
  {
    MoveIn(InitialShares(users, f.last), move) && MoveMeasured(move, i.perf)
  }

  /** The fields after a round with a given move, where normalisation has nothing to do. */
  function NextOf(f: Fields, users: seq<int>, i: Input, rules: Rules, chosen: bool, move: Move): Fields
    requires users != [] && Ready(f, users, i, move)
  {
    Fields(f.last + SharesAfter(InitialShares(users, f.last), move, rules.unit), PoolAfter(PoolFor(f, users, i, rules), move, rules.unit),
           Recorded(DecisionsAfter(users, f.ds, i.before), move, i.perf, i.now),
           TypesWith(TypesAfter(users, f.ds, i.before, f.types), move),
           if !chosen then f.skip else if move.Nothing? then {} else {move.user}, f.baseline, f.fixed)
  }

  /** Shares and a pool of whole units that are one together at most. */
  ghost predicate Balanced(f: Fields, users: seq<int>, rules: Rules)
  {
    P.Covers(f.last, users) && PoolOk(f.pool, rules.unit) && forall r :: Sum(users, f.last, r) + Of(f.pool, r) <= 1.0
  }

  lemma ChosenIff(users: seq<int>, v: View, w: Option<int>)
    requires IsWorst(users, v, w)
    ensures IsWorst(users, v, None) <==> w.None?
  {
  }

  /** A move that needs no normalising leads to these fields. */
  lemma MoveMakesRound(f: Fields, users: seq<int>, i: Input, rules: Rules, chosen: bool, move: Move)
    requires users != [] && P.Covers(f.last, users) && Ready(f, users, i, move)
    requires var v := ViewOf(f, users, i, rules);
             IsMove(users, v, PoolFor(f, users, i, rules), move) && (IsWorst(users, v, None) <==> !chosen)
    requires var moved := SharesAfter(InitialShares(users, f.last), move, rules.unit);
             P.Covers(moved, users) && forall r :: Sum(users, moved, r) <= 1.0
    ensures var f' := NextOf(f, users, i, rules, chosen, move);
            && IsRound(f, users, i, rules, move, f') && P.Covers(f'.last, users)
            && forall r :: Sum(users, f'.last, r) == Sum(users, SharesAfter(InitialShares(users, f.last), move, rules.unit), r)
  {
    hide IsMove, IsWorst, Revocation, DecisionsAfter, TypesAfter, Sum, InitialShares, SharesAfter, PoolAfter, PoolAfterRevocation, Recorded, TypesWith;
    var cur := InitialShares(users, f.last);
    var moved := SharesAfter(cur, move, rules.unit);
    var f' := NextOf(f, users, i, rules, chosen, move);
    MovedKeys(cur, move, rules.unit);
    InitialIsLast(users, f.last);
    StoreShares(users, f'.last, moved);
  }

  /** A worst performer, a best one and the move they explain make a round. */
  lemma ExplainedRound(f: Fields, users: seq<int>, i: Input, rules: Rules, w: Option<int>, b: Option<int>, move: Move)
    requires users != [] && Distinct(users) && Sensible(rules) && Balanced(f, users, rules)
    requires Explains(users, ViewOf(f, users, i, rules), PoolFor(f, users, i, rules), w, b, move)
    ensures Ready(f, users, i, move)
    ensures var f' := NextOf(f, users, i, rules, w.Some?, move);
            && IsRound(f, users, i, rules, move, f') && Balanced(f', users, rules)
            && forall r :: Sum(users, f'.last, r) + Of(f'.pool, r) == Sum(users, f.last, r) + Of(PoolFor(f, users, i, rules), r)
  {
    hide Explains, IsMove, IsWorst, IsRound, PoolOk, Revocation, DecisionsAfter, TypesAfter, Sum, Legal, Distinct, InitialShares, SharesAfter,
      PoolAfter, PoolAfterRevocation, Recorded, TypesWith;
    var v, pool := ViewOf(f, users, i, rules), PoolFor(f, users, i, rules);
    ExplainedMove(users, v, pool, w, b, move);
    InitialIsLast(users, f.last);
    RevocationLoses(f.pool, Revocation(users, f.ds, i.before), rules.unit);
    MoveKeepsTotal(users, v.cur, pool, move, rules);
    PoolNonNegative(PoolAfter(pool, move, rules.unit), rules.unit);
    MoveMakesRound(f, users, i, rules, w.Some?, move);
  }

  lemma ExplainedMove(users: seq<int>, v: View, pool: Bundle, w: Option<int>, b: Option<int>, move: Move)
    requires Explains(users, v, pool, w, b, move)
    ensures IsMove(users, v, pool, move) && (IsWorst(users, v, None) <==> w.None?)
    ensures MoveMeasured(move, v.perf) && MoveIn(v.cur, move) && Legal(v.cur, pool, move, v.rules)
    ensures !move.Nothing? ==> move.user in users
  {
    hide IsBest, TypeOf, RatioOf;
    assert IsMove(users, v, pool, move);
    ChosenIff(users, v, w);
    MoveIsMeasured(users, v, pool, move);
    MoveIsLegal(users, v, pool, move);
  }

  lemma MovedKeys(cur: map<int, Bundle>, move: Move, unit: real)
    requires MoveIn(cur, move)
    ensures SharesAfter(cur, move, unit).Keys == cur.Keys
  {
  }

  // ----- the first dynamic round --------------------------------------------------

  /** Nothing is measured differently within a call. */
  predicate Steady(inputs: seq<Input>)
  {
    forall k :: 0 <= k < |inputs| ==> inputs[k].before == inputs[k].perf
  }

  /** While the shares are the static ones, every application is compared with itself. */
  lemma ComparedWithItself(f: Fields, users: seq<int>, i: Input, rules: Rules, u: int)
    requires users != [] && f.fixed.Some? && Matches(users, f.last, f.fixed.value) && Steady([i]) && u in users
    ensures var v := ViewOf(Rerecorded(f, users, i.before), users, i, rules);
            && (HasRatio(v, u) <==> u in i.perf && u !in f.skip)
            && (HasRatio(v, u) ==> RatioIn(v, u) == if i.perf[u] > 0.0 then Finite(1.0) else Infinite)
  {
    assert [i][0] == i;
    if u in i.perf && i.perf[u] > 0.0 {
      var p := i.perf[u];
      assert p / p == 1.0;
    }
  }

  /** The equal share leaves room for a unit of bandwidth more and one less. */
  predicate RoomAroundEqual(n: nat, rules: Rules)
    requires n > 0
  {
    MayGrow(EqualShare(n), MemBw, rules) && MayShrink(EqualShare(n), MemBw, rules)
  }

  /** Application k is the first of those that made no progress at all or, without such, the
    first that was measured. */
  predicate LosesFirst(users: seq<int>, perf: map<int, real>, k: int)
  {
    && 0 <= k < |users| && users[k] in perf
    && (forall j :: 0 <= j < k && users[j] in perf ==> perf[users[k]] <= 0.0 < perf[users[j]])
    && (perf[users[k]] > 0.0 ==> forall j :: 0 <= j < |users| && users[j] in perf ==> perf[users[j]] > 0.0)
  }

  /** Some application made progress. */
  predicate AnyProgress(users: seq<int>, perf: map<int, real>)
  {
    exists k :: 0 <= k < |users| && users[k] in perf && perf[users[k]] > 0.0
  }

  /** What the first dynamic round sees of an application. */
  lemma FirstView(f: Fields, users: seq<int>, i: Input, rules: Rules, u: int)
    requires users != [] && Started(f, users) && Steady([i]) && u in users
    ensures var v := ViewOf(Rerecorded(f, users, i.before), users, i, rules);
            && (HasRatio(v, u) <==> u in i.perf)
            && (HasRatio(v, u) ==> RatioIn(v, u) == if i.perf[u] > 0.0 then Finite(1.0) else Infinite)
            && (Needy(v, u) <==> u in i.perf && i.perf[u] > 0.0 && MayGrow(EqualShare(|users|), MemBw, rules))
            && (Needy(v, u) ==> TypeOf(u, v.ds, v.types) == MemBw)
            && (Donor(v, MemBw, u) <==> u in i.perf && MayShrink(EqualShare(|users|), MemBw, rules))
  {
    hide StaticShares, EqualShare, MayGrow, MayShrink, RatioOf;
    StaticMatches(users);
    ComparedWithItself(f, users, i, rules, u);
    StaticShareOf([users], 0, u);
    assert [i][0] == i;
    NoneLatest(users);
  }

  lemma {:induction false} NoneLatest(users: seq<int>)
    ensures Latest(users, map[]) == None
  {
    if users != [] {
      NoneLatest(users[..|users| - 1]);
    }
  }

  lemma FirstChosen(users: seq<int>, v: View, perf: map<int, real>, rules: Rules, pool: Bundle, w: Option<int>, b: Option<int>, move: Move)
    requires users != [] && pool == S.Bundle(0.0, 0.0) && Explains(users, v, pool, w, b, move)
    requires forall u :: u in users && HasRatio(v, u) ==> u in perf && RatioIn(v, u) == if perf[u] > 0.0 then Finite(1.0) else Infinite
    requires forall u :: u in users ==> (Needy(v, u) <==> u in perf && perf[u] > 0.0 && MayGrow(EqualShare(|users|), MemBw, rules))
    requires forall u :: u in users && Needy(v, u) ==> TypeOf(u, v.ds, v.types) == MemBw
    requires forall u :: u in users ==> (Donor(v, MemBw, u) <==> u in perf && MayShrink(EqualShare(|users|), MemBw, rules))
    ensures if AnyProgress(users, perf) && RoomAroundEqual(|users|, rules)
            then exists k :: LosesFirst(users, perf, k) && move == Harvest(users[k], MemBw)
            else move == Nothing
  {
    hide RatioOf, TypeOf, EqualShare, MayGrow, MayShrink;
    if w.Some? && b.Some? {
      var k :| 0 <= k < |users| && IsFirstBest(users, v, MemBw, k) && users[k] == b.value;
      forall j | 0 <= j < |users| && users[j] in perf
        ensures j < k ==> perf[users[k]] <= 0.0 < perf[users[j]]
        ensures perf[users[k]] > 0.0 ==> perf[users[j]] > 0.0
      {
        var u := users[j];
        assert u in users && Donor(v, MemBw, u) && HasRatio(v, u);
      }
      assert LosesFirst(users, perf, k);
    } else if AnyProgress(users, perf) {
      var k :| 0 <= k < |users| && users[k] in perf && perf[users[k]] > 0.0;
      var u := users[k];
      assert u in users;
    }
  }

  /** The first dynamic round after the static ones, for all applications, measurements and limits:
    whatever the performance was, it takes a unit of bandwidth from the first application, or
    from the first that made no progress, whose ratio counts as infinite. */
  lemma FirstRoundIsBlind(f: Fields, users: seq<int>, i: Input, rules: Rules, move: Move, f': Fields)
    requires users != [] && Started(f, users) && Steady([i]) && IsCall(f, users, i, rules, move, f')
    ensures if AnyProgress(users, i.perf) && RoomAroundEqual(|users|, rules)
            then exists k :: LosesFirst(users, i.perf, k) && move == Harvest(users[k], MemBw)
            else move == Nothing
  {
    var g := Rerecorded(f, users, i.before);
    var v, pool := ViewOf(g, users, i, rules), PoolFor(g, users, i, rules);
    NoneLatest(users);
    assert pool == f.pool;
    forall u | u in users
      ensures (HasRatio(v, u) <==> u in i.perf) && (HasRatio(v, u) ==> RatioIn(v, u) == if i.perf[u] > 0.0 then Finite(1.0) else Infinite)
      ensures Needy(v, u) <==> u in i.perf && i.perf[u] > 0.0 && MayGrow(EqualShare(|users|), MemBw, rules)
      ensures Needy(v, u) ==> TypeOf(u, v.ds, v.types) == MemBw
      ensures Donor(v, MemBw, u) <==> u in i.perf && MayShrink(EqualShare(|users|), MemBw, rules)
    {
      FirstView(f, users, i, rules, u);
    }
    hide ViewOf, PoolFor, Rerecorded, Needy, Donor, HasRatio, TypeOf, RatioIn, Started, EqualShare, MayGrow, MayShrink;
    var w, b :| Explains(users, v, pool, w, b, move);
    FirstChosen(users, v, i.perf, rules, pool, w, b, move);
  }

  /** There is only one such application, so measurements of the same applications that are all
    positive lead to the same move. */
  lemma FirstRoundIgnoresPerformance(f: Fields, users: seq<int>, i: Input, j: Input, rules: Rules, m: Move, m': Move, g: Fields, g': Fields)
    requires users != [] && Started(f, users) && Steady([i]) && Steady([j])
    requires IsCall(f, users, i, rules, m, g) && IsCall(f, users, j, rules, m', g')
    requires i.perf.Keys == j.perf.Keys && forall u :: u in i.perf ==> i.perf[u] > 0.0 && j.perf[u] > 0.0
    ensures m == m'
  {
    hide IsCall, Started, RoomAroundEqual;
    FirstRoundIsBlind(f, users, i, rules, m, g);
    FirstRoundIsBlind(f, users, j, rules, m', g');
    if AnyProgress(users, i.perf) {
      var k :| 0 <= k < |users| && users[k] in i.perf && i.perf[users[k]] > 0.0;
      var u := users[k];
      assert u in i.perf.Keys && j.perf[u] > 0.0;
    }
    if AnyProgress(users, j.perf) {
      var k :| 0 <= k < |users| && users[k] in j.perf && j.perf[users[k]] > 0.0;
      var u := users[k];
      assert u in j.perf.Keys && i.perf[u] > 0.0;
    }
  }

  // ----- a VM with one application ------------------------------------------------

  /** The application holds the whole VM and nothing was ever adjusted. */
  predicate LoneWhole(f: Fields, u: int)
  {
    && u in f.last && f.last[u] == S.Bundle(1.0, 1.0) && f.pool == S.Bundle(0.0, 0.0) && f.ds == map[] && f.skip == {}
    && (u in f.baseline ==> u in f.types && f.types[u] == MemBw)
  }

  /** The same between calls, where the baseline is still to be recorded. */
  predicate LoneReady(f: Fields, u: int)
  {
    && u in f.last && f.last[u] == S.Bundle(1.0, 1.0) && f.pool == S.Bundle(0.0, 0.0) && f.ds == map[] && f.skip == {}
    && f.fixed.Some? && u in f.fixed.value && f.fixed.value[u] == f.last[u]
    && (u in f.types ==> f.types[u] == MemBw)
  }

  /** Static rounds lead there. */
  lemma StartedIsReady(f: Fields, u: int)
    requires Started(f, [u])
    ensures LoneReady(f, u)
  {
    StaticShareOf([[u]], 0, u);
  }

  lemma LoneRecorded(f: Fields, u: int, perf: map<int, real>)
    requires LoneReady(f, u)
    ensures var g := Rerecorded(f, [u], perf);
            && LoneWhole(g, u) && g.fixed == f.fixed && (u in g.types ==> g.types[u] == MemBw)
            && (u in g.baseline <==> u in perf) && (u in perf ==> g.baseline[u] == perf[u])
  {
    assert Matches([u], f.last, f.fixed.value);
    assert u in [u];
  }

  /** The limits leave room for a unit above and below the whole of the bandwidth. */
  predicate RoomAroundWhole(rules: Rules)
  {
    1.0 + rules.unit <= rules.max.memBw && 1.0 - rules.unit >= rules.min.memBw
  }

  predicate CanBeChosen(f: Fields, u: int, i: Input, rules: Rules)
  {
    u in i.perf && u in f.baseline && f.baseline[u] > 0.0 && RoomAroundWhole(rules)
  }

  lemma LoneSums(f: Fields, u: int)
    requires u in f.last
    ensures P.Covers(f.last, [u]) && forall r :: Sum([u], f.last, r) == Of(f.last[u], r)
  {
    var users := [u];
    assert users[1..] == [] && P.Covers(f.last, users);
    assert P.Total(users, f.last) == P.Plus(f.last[u], P.Total([], f.last));
  }

  lemma LoneView(f: Fields, u: int, i: Input, rules: Rules)
    requires LoneWhole(f, u)
    ensures var v := ViewOf(f, [u], i, rules);
            && v.cur == map[u := S.Bundle(1.0, 1.0)] && v.ds == map[] && v.types == f.types && PoolFor(f, [u], i, rules) == f.pool
            && (Needy(v, u) <==> u in i.perf && u in f.baseline && f.baseline[u] > 0.0 && 1.0 + rules.unit <= rules.max.memBw)
            && (Needy(v, u) ==> TypeOf(u, v.ds, v.types) == MemBw && (Donor(v, MemBw, u) <==> 1.0 - rules.unit >= rules.min.memBw))
  {
    var users := [u];
    assert users[..0] == [];
    assert Latest(users, f.ds) == None;
    assert InitialShares(users, f.last) == map[u := S.Bundle(1.0, 1.0)];
  }

  /** Its only possible move is to harvest its own bandwidth, and it makes it exactly when it is
    measured and the limits leave room. */
  lemma LoneMove(f: Fields, u: int, i: Input, rules: Rules, move: Move)
    requires LoneWhole(f, u) && Sensible(rules) && IsMove([u], ViewOf(f, [u], i, rules), PoolFor(f, [u], i, rules), move)
    ensures move == if CanBeChosen(f, u, i, rules) then Harvest(u, MemBw) else Nothing
  {
    var v, pool := ViewOf(f, [u], i, rules), PoolFor(f, [u], i, rules);
    LoneView(f, u, i, rules);
    hide ViewOf, PoolFor, Needy, Donor;
    var w, b :| Explains([u], v, pool, w, b, move);
    assert u in [u];
  }

  lemma LoneShares(f: Fields, u: int, i: Input, rules: Rules, move: Move, f': Fields)
    requires LoneWhole(f, u) && Sensible(rules) && IsRound(f, [u], i, rules, move, f')
    ensures u in f'.last
    ensures f'.last[u] == if CanBeChosen(f, u, i, rules) then S.Bundle(1.0, 1.0 - rules.unit) else S.Bundle(1.0, 1.0)
  {
    hide Sum;
    LoneMove(f, u, i, rules, move);
    LoneView(f, u, i, rules);
    hide ViewOf, PoolFor, IsMove;
    var cur := map[u := S.Bundle(1.0, 1.0)];
    var moved := SharesAfter(cur, move, rules.unit);
    var g := f.(last := moved);
    LoneSums(g, u);
    forall r: Resource ensures SumAfter([u], cur, move, rules.unit, r) <= 1.0 {
      assert Sum([u], moved, r) == Of(moved[u], r);
    }
    assert f'.last[[u][0]] == moved[[u][0]];
  }

  lemma LoneRound(f: Fields, u: int, i: Input, rules: Rules, move: Move, f': Fields)
    requires LoneWhole(f, u) && Sensible(rules) && IsRound(f, [u], i, rules, move, f')
    ensures move == if CanBeChosen(f, u, i, rules) then Harvest(u, MemBw) else Nothing
    ensures f'.baseline == f.baseline && u in f'.last
    ensures !CanBeChosen(f, u, i, rules) ==> LoneWhole(f', u) && f'.types == f.types
    ensures CanBeChosen(f, u, i, rules) ==> f'.skip == {u} && f'.last[u] == S.Bundle(1.0, 1.0 - rules.unit)
  {
    LoneMove(f, u, i, rules, move);
    LoneShares(f, u, i, rules, move, f');
    LoneView(f, u, i, rules);
    var v := ViewOf(f, [u], i, rules);
    hide ViewOf, PoolFor, IsMove, Sum, SumAfter, Needy, IsMoved;
    if CanBeChosen(f, u, i, rules) {
      assert u in [u] && Needy(v, u);
    }
  }

  /** Measured, not at zero, and with room: what a call's choice comes down to. */
  predicate Chosen(u: int, i: Input, rules: Rules)
  {
    u in i.perf && u in i.before && i.before[u] > 0.0 && RoomAroundWhole(rules)
  }

  lemma LoneCall(f: Fields, u: int, i: Input, rules: Rules, move: Move, f': Fields)
    requires LoneReady(f, u) && Sensible(rules) && IsCall(f, [u], i, rules, move, f')
    ensures move == if Chosen(u, i, rules) then Harvest(u, MemBw) else Nothing
    ensures u in f'.last
    ensures !Chosen(u, i, rules) ==> LoneReady(f', u)
    ensures Chosen(u, i, rules) ==> f'.skip == {u} && f'.last[u] == S.Bundle(1.0, 1.0 - rules.unit)
  {
    hide Rerecorded;
    var g := Rerecorded(f, [u], i.before);
    LoneRecorded(f, u, i.before);
    BaselineKept(g, [u], i, rules, move, f');
    hide IsRound;
    LoneRound(g, u, i, rules, move, f');
  }

  /** Every application of the VM is marked as adjusted last, and together they hold no more than
    the VM. */
  ghost predicate AllMarked(f: Fields, users: seq<int>)
  {
    && (forall k :: 0 <= k < |users| ==> users[k] in f.skip)
    && P.Covers(f.last, users) && forall r :: Sum(users, f.last, r) <= 1.0
  }

  /** None of the applications changed. */
  predicate SharesKept(users: seq<int>, before: map<int, Bundle>, after: map<int, Bundle>)
  {
    P.Covers(before, users) && P.Covers(after, users) && forall k :: 0 <= k < |users| ==> after[users[k]] == before[users[k]]
  }

  /** Marked applications cannot be chosen, and their marks are not lifted. */
  lemma MarkedRound(f: Fields, users: seq<int>, i: Input, rules: Rules, move: Move, f': Fields)
    requires users != [] && AllMarked(f, users) && IsRound(f, users, i, rules, move, f')
    ensures move == Nothing && AllMarked(f', users) && SharesKept(users, f.last, f'.last)
  {
    hide Sum;
    var v, pool := ViewOf(f, users, i, rules), PoolFor(f, users, i, rules);
    var w, b :| Explains(users, v, pool, w, b, move);
    assert w == None && IsWorst(users, v, None);
    InitialIsLast(users, f.last);
    forall r: Resource ensures SumAfter(users, v.cur, move, rules.unit, r) <= 1.0 {
      assert Sum(users, v.cur, r) == Sum(users, f.last, r);
    }
  }

  /** So over any run nothing is ever adjusted again. */
  lemma {:induction false} MarkedRun(f: Fields, users: seq<int>, rules: Rules, inputs: seq<Input>, moves: seq<Move>, f': Fields)
    requires users != [] && AllMarked(f, users) && Runs(f, users, rules, inputs, moves, f')
    ensures (forall k :: 0 <= k < |moves| ==> moves[k] == Nothing) && SharesKept(users, f.last, f'.last)
    decreases |inputs|
  {
    hide IsRound, Sum, Rerecorded;
    if inputs != [] {
      var mid :| IsCall(f, users, inputs[0], rules, moves[0], mid) && Runs(mid, users, rules, inputs[1..], moves[1..], f');
      var g := Rerecorded(f, users, inputs[0].before);
      RecordingKeeps(f, users, inputs[0].before);
      MarkedRound(g, users, inputs[0], rules, moves[0], mid);
      MarkedRun(mid, users, rules, inputs[1..], moves[1..], f');
      forall k | 0 <= k < |moves| ensures moves[k] == Nothing {
        assert k > 0 ==> moves[k] == moves[1..][k - 1];
      }
    }
  }

  /** Over any run an application that is alone on its VM is adjusted at most once, by giving up
    one unit of bandwidth, and never if the limits leave no room for a unit above the whole. */
  lemma {:induction false} LoneRunFreezes(f: Fields, u: int, rules: Rules, inputs: seq<Input>, moves: seq<Move>, f': Fields)
    requires LoneReady(f, u) && Sensible(rules) && Runs(f, [u], rules, inputs, moves, f')
    ensures forall j, k :: 0 <= j < k < |moves| && moves[j] != Nothing ==> moves[k] == Nothing
    ensures forall k :: 0 <= k < |moves| && moves[k] != Nothing ==> moves[k] == Harvest(u, MemBw) && RoomAroundWhole(rules)
    ensures u in f'.last
    ensures f'.last[u] == if forall k :: 0 <= k < |moves| ==> moves[k] == Nothing then S.Bundle(1.0, 1.0) else S.Bundle(1.0, 1.0 - rules.unit)
    decreases |inputs|
  {
    hide IsCall;
    if inputs != [] {
      var mid :| IsCall(f, [u], inputs[0], rules, moves[0], mid) && Runs(mid, [u], rules, inputs[1..], moves[1..], f');
      LoneCall(f, u, inputs[0], rules, moves[0], mid);
      var rest := moves[1..];
      assert forall k :: 0 < k < |moves| ==> moves[k] == rest[k - 1];
      if moves[0] == Nothing {
        LoneRunFreezes(mid, u, rules, inputs[1..], rest, f');
        assert (forall k :: 0 <= k < |moves| ==> moves[k] == Nothing) <==> forall k :: 0 <= k < |rest| ==> rest[k] == Nothing by {
          assert forall k :: 0 <= k < |rest| ==> rest[k] == moves[k + 1];
        }
      } else {
        LoneSums(mid, u);
        MarkedRun(mid, [u], rules, inputs[1..], rest, f');
        assert f'.last[[u][0]] == mid.last[[u][0]];
      }
    }
  }

  /** Some run adjusts it. */
  ghost predicate Adjustable(f: Fields, u: int, rules: Rules)
  {
    exists inputs, moves, f' :: Runs(f, [u], rules, inputs, moves, f') && Steady(inputs) && HasMove(moves)
  }

  predicate HasMove(moves: seq<Move>)
  {
    exists k :: 0 <= k < |moves| && moves[k] != Nothing
  }

  lemma LoneCanMove(f: Fields, u: int, rules: Rules) returns (i: Input, f': Fields)
    requires LoneReady(f, u) && Sensible(rules) && RoomAroundWhole(rules)
    ensures i.before == i.perf && IsCall(f, [u], i, rules, Harvest(u, MemBw), f')
  {
    hide Rerecorded;
    i := Input(map[u := 1.0], map[u := 1.0], 1.0);
    var g := Rerecorded(f, [u], i.before);
    LoneRecorded(f, u, i.before);
    var v, pool := ViewOf(g, [u], i, rules), PoolFor(g, [u], i, rules);
    LoneView(g, u, i, rules);
    LoneSums(g, u);
    assert 0.0 == Units(0, rules.unit);
    hide ViewOf, PoolFor, Needy, Donor, Sum, NextOf;
    assert u in [u] && Needy(v, u) && Donor(v, MemBw, u);
    assert IsFirstWorst([u], v, 0) && IsFirstBest([u], v, MemBw, 0);
    assert Explains([u], v, pool, Some(u), Some(u), Harvest(u, MemBw));
    ExplainedRound(g, [u], i, rules, Some(u), Some(u), Harvest(u, MemBw));
    f' := NextOf(g, [u], i, rules, true, Harvest(u, MemBw));
  }

  /** The exact condition on the limits: with the usual maximum of the whole resource a VM with
    one application is never adjusted. */
  lemma LoneAdjustableIff(f: Fields, u: int, rules: Rules)
    requires LoneReady(f, u) && Sensible(rules)
    ensures Adjustable(f, u, rules) <==> RoomAroundWhole(rules)
  {
    hide IsCall, LoneReady;
    if RoomAroundWhole(rules) {
      var i, f' := LoneCanMove(f, u, rules);
      var inputs, moves := [i], [Harvest(u, MemBw)];
      assert inputs[1..] == [] && moves[1..] == [];
      assert Runs(f', [u], rules, inputs[1..], moves[1..], f');
      assert Runs(f, [u], rules, inputs, moves, f');
      assert moves[0] != Nothing && HasMove(moves);
    }
    if Adjustable(f, u, rules) {
      var inputs, moves, f' :| Runs(f, [u], rules, inputs, moves, f') && Steady(inputs) && HasMove(moves);
      LoneRunFreezes(f, u, rules, inputs, moves, f');
    }
  }

  // ----- three applications -------------------------------------------------------

  const THREE := [1, 2, 3]
  const TENTHS := Rules(0.1, S.Bundle(0.0, 0.0), S.Bundle(1.0, 1.0))
  const THIRD := 1.0 / 3.0

  function Shares(c1: real, b1: real, c2: real, b2: real, c3: real, b3: real): map<int, Bundle>
  {
    map[1 := S.Bundle(THIRD + c1, THIRD + b1), 2 := S.Bundle(THIRD + c2, THIRD + b2), 3 := S.Bundle(THIRD + c3, THIRD + b3)]
  }

  function Perfs(p1: real, p2: real, p3: real): map<int, real>
  {
    map[1 := p1, 2 := p2, 3 := p3]
  }

  /** All three applications are measured in every round. */
  function At(p1: real, p2: real, p3: real, now: real): Input
  {
    Input(Perfs(p1, p2, p3), Perfs(p1, p2, p3), now)
  }

  function Types(r1: Resource, r2: Resource, r3: Resource): map<int, Resource>
  {
    map[1 := r1, 2 := r2, 3 := r3]
  }

  const UNITY := map[1 := 1.0, 2 := 1.0, 3 := 1.0]

  const EQUAL := Some(Shares(0.0, 0.0, 0.0, 0.0, 0.0, 0.0))

  const AT_START := Fields(EQUAL.value, S.Bundle(0.0, 0.0), map[], map[], {}, map[], EQUAL)
  const RECORDED := AT_START.(types := Types(MemBw, MemBw, MemBw), baseline := UNITY)
  const HARVESTED := Fields(Shares(0.0, -0.1, 0.0, 0.0, 0.0, 0.0), S.Bundle(0.0, 0.1), map[1 := Decision(Cache, Down, 1.0, 1.0)],
                            Types(Cache, MemBw, MemBw), {1}, UNITY, EQUAL)
  const GRANTED := Fields(Shares(0.0, -0.1, 0.0, 0.1, 0.0, 0.0), S.Bundle(0.0, 0.0),
                          map[1 := Decision(Cache, Down, 1.0, 1.0), 2 := Decision(MemBw, Up, 0.5, 2.0)],
                          Types(Cache, MemBw, MemBw), {2}, UNITY, EQUAL)
  const HARVESTED_AGAIN := Fields(Shares(0.0, -0.2, 0.0, 0.1, 0.0, 0.0), S.Bundle(0.0, 0.1),
                                  map[1 := Decision(Cache, Down, 1.0, 3.0), 2 := Decision(Cache, Up, 0.4, 2.0)],
                                  Types(Cache, Cache, MemBw), {1}, UNITY, EQUAL)
  const BOTH_IN_POOL := Fields(Shares(0.0, -0.2, 0.0, 0.1, -0.1, 0.0), S.Bundle(0.1, 0.1),
                               map[1 := Decision(Cache, Down, 1.0, 3.0), 2 := Decision(Cache, Up, 0.4, 2.0),
                                   3 := Decision(MemBw, Down, 0.9, 4.0)],
                               Types(Cache, Cache, MemBw), {3}, UNITY, EQUAL)
  const REVOKED := Fields(Shares(0.0, -0.2, 0.1, 0.1, -0.1, 0.0), S.Bundle(0.0, 0.0),
                          map[1 := Decision(Cache, Down, 1.0, 3.0), 2 := Decision(Cache, Up, 0.5, 5.0),
                              3 := Decision(Cache, Down, 0.5, 4.0)],
                          Types(Cache, Cache, Cache), {2}, UNITY, EQUAL)

  function Later(ds: map<int, Decision>, r: Option<int>, u: int): Option<int>
    requires r.Some? ==> r.value in ds
  {
    if u in ds && ds[u].lastUpdated > (if r.Some? then ds[r.value].lastUpdated else 0.0) then Some(u) else r
  }

  lemma LatestOfThree(ds: map<int, Decision>)
    ensures Latest(THREE, ds) == Later(ds, Later(ds, Later(ds, None, 1), 2), 3)
  {
    var one, two := [1], [1, 2];
    assert THREE[..2] == two && two[..1] == one && one[..0] == [];
    assert Latest(one, ds) == Later(ds, None, 1);
    assert Latest(two, ds) == Later(ds, Latest(one, ds), 2);
  }

  lemma InitialOfThree(last: map<int, Bundle>)
    requires last.Keys == {1, 2, 3}
    ensures InitialShares(THREE, last) == last
  {
  }

  lemma StartShares()
    ensures StaticShares([THREE]) == AT_START.last
  {
    var vms := [THREE];
    assert vms[..0] == [];
    assert 1.0 / 3 as real == THIRD;
  }

  lemma StartsBalanced()
    ensures Started(AT_START, THREE) && Balanced(RECORDED, THREE, TENTHS) && P.Covers(AT_START.last, THREE)
    ensures forall r :: Sum(THREE, AT_START.last, r) == 1.0
  {
    hide Sum, StaticShares;
    var vms := [THREE];
    StartShares();
    StaticCovers(vms, 0);
    assert vms[0] == THREE && 0.0 == Units(0, 0.1);
  }

  /** The first call records what it measures, later ones do not: the first application then
    holds less than its static share. */
  lemma RecordedOnce(f: Fields, perf: map<int, real>)
    requires f.fixed == EQUAL && 1 in f.last && f.last[1].memBw <= THIRD - 0.1
    ensures Rerecorded(f, THREE, perf) == f
  {
    assert THREE[0] == 1;
  }

  lemma FirstRecord()
    ensures Rerecorded(AT_START, THREE, UNITY) == RECORDED
  {
    assert Matches(THREE, AT_START.last, EQUAL.value);
    assert Recordable(THREE, UNITY) == UNITY && FirstTypes(THREE, UNITY) == RECORDED.types;
  }

  /** What the re-examination leaves. */
  predicate Checked(f: Fields, i: Input, ds: map<int, Decision>, types: map<int, Resource>, pool: Bundle)
  {
    && DecisionsAfter(THREE, f.ds, i.before) == ds && TypesAfter(THREE, f.ds, i.before, f.types) == types
    && PoolFor(f, THREE, i, TENTHS) == pool
  }

  /** The fields after a move. */
  function Made(f: Fields, ds: map<int, Decision>, types: map<int, Resource>, pool: Bundle, move: Move, i: Input): Fields
    requires MoveIn(f.last, move) && MoveMeasured(move, i.perf) && !move.Nothing?
  {
    Fields(SharesAfter(f.last, move, 0.1), PoolAfter(pool, move, 0.1), Recorded(ds, move, i.perf, i.now), TypesWith(types, move),
           {move.user}, f.baseline, f.fixed)
  }

  lemma RunStep(f: Fields, i: Input, ds: map<int, Decision>, types: map<int, Resource>, pool: Bundle, w: Option<int>, b: Option<int>, move: Move, f': Fields)
    requires Balanced(f, THREE, TENTHS) && f.last.Keys == {1, 2, 3} && MoveIn(f.last, move) && MoveMeasured(move, i.perf)
    requires Checked(f, i, ds, types, pool)
    requires Explains(THREE, View(f.last, ds, types, f.skip, i.perf, f.baseline, TENTHS), pool, w, b, move)
    requires w.Some? && !move.Nothing? && f' == Made(f, ds, types, pool, move, i)
    ensures IsRound(f, THREE, i, TENTHS, move, f') && Balanced(f', THREE, TENTHS) && f'.last.Keys == {1, 2, 3} && P.Covers(f'.last, THREE)
    ensures forall r :: Sum(THREE, f'.last, r) + Of(f'.pool, r) == Sum(THREE, f.last, r) + Of(pool, r)
  {
    hide Explains, IsRound, Sum, SharesAfter, PoolAfter, PoolFor, Recorded, DecisionsAfter, TypesAfter, TypesWith, InitialShares;
    InitialOfThree(f.last);
    ExplainedRound(f, THREE, i, TENTHS, w, b, move);
    MovedKeys(f.last, move, 0.1);
    assert f.last + SharesAfter(f.last, move, 0.1) == SharesAfter(f.last, move, 0.1);
  }

  const DS_2 := map[1 := Decision(Cache, Down, 1.0, 1.0)]
  const DS_3 := map[1 := Decision(Cache, Down, 1.0, 1.0), 2 := Decision(Cache, Up, 0.4, 2.0)]
  const DS_4 := map[1 := Decision(Cache, Down, 1.0, 3.0), 2 := Decision(Cache, Up, 0.4, 2.0)]
  const DS_5 := map[1 := Decision(Cache, Down, 1.0, 3.0), 2 := Decision(Cache, Up, 0.4, 2.0), 3 := Decision(Cache, Down, 0.5, 4.0)]

  lemma Checks()
    ensures Checked(RECORDED, At(1.0, 1.0, 1.0, 1.0), map[], Types(MemBw, MemBw, MemBw), S.Bundle(0.0, 0.0))
    ensures Checked(HARVESTED, At(1.0, 0.5, 0.8, 2.0), DS_2, Types(Cache, MemBw, MemBw), S.Bundle(0.0, 0.1))
    ensures Checked(GRANTED, At(1.0, 0.4, 0.3, 3.0), DS_3, Types(Cache, Cache, MemBw), S.Bundle(0.0, 0.0))
    ensures Checked(HARVESTED_AGAIN, At(1.0, 0.3, 0.9, 4.0), DS_4, Types(Cache, Cache, MemBw), S.Bundle(0.0, 0.1))
  {
    hide Latest;
    LatestOfThree(RECORDED.ds);
    LatestOfThree(HARVESTED.ds);
    LatestOfThree(GRANTED.ds);
    LatestOfThree(HARVESTED_AGAIN.ds);
  }

  /** The last round revokes bandwidth although cache was taken from the third application. */
  lemma LastCheck()
    ensures Checked(BOTH_IN_POOL, At(1.0, 0.5, 0.5, 5.0), DS_5, Types(Cache, Cache, Cache), S.Bundle(0.1, 0.0))
    ensures Revocation(THREE, BOTH_IN_POOL.ds, Perfs(1.0, 0.5, 0.5)) == Some((3, MemBw))
  {
    hide Latest;
    LatestOfThree(BOTH_IN_POOL.ds);
  }

  lemma FirstFields()
    ensures MoveIn(RECORDED.last, Harvest(1, MemBw)) && HARVESTED == Made(RECORDED, map[], Types(MemBw, MemBw, MemBw), S.Bundle(0.0, 0.0), Harvest(1, MemBw), At(1.0, 1.0, 1.0, 1.0))
  {
  }

  lemma FirstChoice()
    ensures Explains(THREE, View(RECORDED.last, map[], Types(MemBw, MemBw, MemBw), RECORDED.skip, Perfs(1.0, 1.0, 1.0), UNITY, TENTHS), S.Bundle(0.0, 0.0), Some(1), Some(1), Harvest(1, MemBw))
  {
    var v := View(RECORDED.last, map[], Types(MemBw, MemBw, MemBw), RECORDED.skip, Perfs(1.0, 1.0, 1.0), UNITY, TENTHS);
    assert IsFirstWorst(THREE, v, 0) && IsFirstBest(THREE, v, MemBw, 0);
  }

  lemma SecondFields()
    ensures MoveIn(HARVESTED.last, Grant(2, MemBw)) && GRANTED == Made(HARVESTED, DS_2, Types(Cache, MemBw, MemBw), S.Bundle(0.0, 0.1), Grant(2, MemBw), At(1.0, 0.5, 0.8, 2.0))
  {
  }

  lemma SecondChoice()
    ensures Explains(THREE, View(HARVESTED.last, DS_2, Types(Cache, MemBw, MemBw), HARVESTED.skip, Perfs(1.0, 0.5, 0.8), UNITY, TENTHS), S.Bundle(0.0, 0.1), Some(2), None, Grant(2, MemBw))
  {
    var v := View(HARVESTED.last, DS_2, Types(Cache, MemBw, MemBw), HARVESTED.skip, Perfs(1.0, 0.5, 0.8), UNITY, TENTHS);
    assert IsFirstWorst(THREE, v, 1);
  }

  lemma ThirdFields()
    ensures MoveIn(GRANTED.last, Harvest(1, MemBw)) && HARVESTED_AGAIN == Made(GRANTED, DS_3, Types(Cache, Cache, MemBw), S.Bundle(0.0, 0.0), Harvest(1, MemBw), At(1.0, 0.4, 0.3, 3.0))
  {
  }

  lemma ThirdChoice()
    ensures Explains(THREE, View(GRANTED.last, DS_3, Types(Cache, Cache, MemBw), GRANTED.skip, Perfs(1.0, 0.4, 0.3), UNITY, TENTHS), S.Bundle(0.0, 0.0), Some(3), Some(1), Harvest(1, MemBw))
  {
    var v := View(GRANTED.last, DS_3, Types(Cache, Cache, MemBw), GRANTED.skip, Perfs(1.0, 0.4, 0.3), UNITY, TENTHS);
    assert IsFirstWorst(THREE, v, 2) && IsFirstBest(THREE, v, MemBw, 0);
  }

  lemma FourthFields()
    ensures MoveIn(HARVESTED_AGAIN.last, Harvest(3, Cache)) && BOTH_IN_POOL == Made(HARVESTED_AGAIN, DS_4, Types(Cache, Cache, MemBw), S.Bundle(0.0, 0.1), Harvest(3, Cache), At(1.0, 0.3, 0.9, 4.0))
  {
  }

  lemma FourthChoice()
    ensures Explains(THREE, View(HARVESTED_AGAIN.last, DS_4, Types(Cache, Cache, MemBw), HARVESTED_AGAIN.skip, Perfs(1.0, 0.3, 0.9), UNITY, TENTHS), S.Bundle(0.0, 0.1), Some(2), Some(3), Harvest(3, Cache))
  {
    var v := View(HARVESTED_AGAIN.last, DS_4, Types(Cache, Cache, MemBw), HARVESTED_AGAIN.skip, Perfs(1.0, 0.3, 0.9), UNITY, TENTHS);
    assert IsFirstWorst(THREE, v, 1) && IsFirstBest(THREE, v, Cache, 2);
  }

  lemma FifthFields()
    ensures MoveIn(BOTH_IN_POOL.last, Grant(2, Cache)) && REVOKED == Made(BOTH_IN_POOL, DS_5, Types(Cache, Cache, Cache), S.Bundle(0.1, 0.0), Grant(2, Cache), At(1.0, 0.5, 0.5, 5.0))
  {
  }

  lemma FifthChoice()
    ensures Explains(THREE, View(BOTH_IN_POOL.last, DS_5, Types(Cache, Cache, Cache), BOTH_IN_POOL.skip, Perfs(1.0, 0.5, 0.5), UNITY, TENTHS), S.Bundle(0.1, 0.0), Some(2), None, Grant(2, Cache))
  {
    var v := View(BOTH_IN_POOL.last, DS_5, Types(Cache, Cache, Cache), BOTH_IN_POOL.skip, Perfs(1.0, 0.5, 0.5), UNITY, TENTHS);
    assert IsFirstWorst(THREE, v, 1);
  }

  lemma FirstRound()
    ensures IsRound(RECORDED, THREE, At(1.0, 1.0, 1.0, 1.0), TENTHS, Harvest(1, MemBw), HARVESTED) && Balanced(HARVESTED, THREE, TENTHS)
    ensures forall r :: Sum(THREE, HARVESTED.last, r) + Of(HARVESTED.pool, r) == 1.0
  {
    hide Sum, IsRound, Balanced, Checked, Explains, Made, Started;
    FirstChoice();
    FirstFields();
    StartsBalanced();
    Checks();
    RunStep(RECORDED, At(1.0, 1.0, 1.0, 1.0), map[], Types(MemBw, MemBw, MemBw), S.Bundle(0.0, 0.0), Some(1), Some(1), Harvest(1, MemBw), HARVESTED);
  }

  lemma SecondRound()
    ensures IsRound(HARVESTED, THREE, At(1.0, 0.5, 0.8, 2.0), TENTHS, Grant(2, MemBw), GRANTED) && Balanced(GRANTED, THREE, TENTHS)
    ensures forall r :: Sum(THREE, GRANTED.last, r) + Of(GRANTED.pool, r) == 1.0
  {
    hide Sum, IsRound, Balanced, Checked, Explains, Made;
    SecondChoice();
    SecondFields();
    FirstRound();
    Checks();
    RunStep(HARVESTED, At(1.0, 0.5, 0.8, 2.0), DS_2, Types(Cache, MemBw, MemBw), S.Bundle(0.0, 0.1), Some(2), None, Grant(2, MemBw), GRANTED);
  }

  lemma ThirdRound()
    ensures IsRound(GRANTED, THREE, At(1.0, 0.4, 0.3, 3.0), TENTHS, Harvest(1, MemBw), HARVESTED_AGAIN) && Balanced(HARVESTED_AGAIN, THREE, TENTHS)
    ensures forall r :: Sum(THREE, HARVESTED_AGAIN.last, r) + Of(HARVESTED_AGAIN.pool, r) == 1.0
  {
    hide Sum, IsRound, Balanced, Checked, Explains, Made;
    ThirdChoice();
    ThirdFields();
    SecondRound();
    Checks();
    RunStep(GRANTED, At(1.0, 0.4, 0.3, 3.0), DS_3, Types(Cache, Cache, MemBw), S.Bundle(0.0, 0.0), Some(3), Some(1), Harvest(1, MemBw), HARVESTED_AGAIN);
  }

  lemma FourthRound()
    ensures IsRound(HARVESTED_AGAIN, THREE, At(1.0, 0.3, 0.9, 4.0), TENTHS, Harvest(3, Cache), BOTH_IN_POOL) && Balanced(BOTH_IN_POOL, THREE, TENTHS)
    ensures forall r :: Sum(THREE, BOTH_IN_POOL.last, r) + Of(BOTH_IN_POOL.pool, r) == 1.0
  {
    hide Sum, IsRound, Balanced, Checked, Explains, Made;
    FourthChoice();
    FourthFields();
    ThirdRound();
    Checks();
    RunStep(HARVESTED_AGAIN, At(1.0, 0.3, 0.9, 4.0), DS_4, Types(Cache, Cache, MemBw), S.Bundle(0.0, 0.1), Some(2), Some(3), Harvest(3, Cache), BOTH_IN_POOL);
  }

  lemma FifthRound()
    ensures IsRound(BOTH_IN_POOL, THREE, At(1.0, 0.5, 0.5, 5.0), TENTHS, Grant(2, Cache), REVOKED)
    ensures P.Covers(REVOKED.last, THREE)
    ensures Sum(THREE, REVOKED.last, Cache) + Of(REVOKED.pool, Cache) == 1.0
    ensures Sum(THREE, REVOKED.last, MemBw) + Of(REVOKED.pool, MemBw) == 0.9
  {
    hide Sum, IsRound, Balanced, Checked, Explains, Made;
    FifthChoice();
    FifthFields();
    FourthRound();
    LastCheck();
    RunStep(BOTH_IN_POOL, At(1.0, 0.5, 0.5, 5.0), DS_5, Types(Cache, Cache, Cache), S.Bundle(0.1, 0.0), Some(2), None, Grant(2, Cache), REVOKED);
    assert Sum(THREE, BOTH_IN_POOL.last, Cache) + 0.1 == 1.0;
    assert Sum(THREE, BOTH_IN_POOL.last, MemBw) + 0.1 == 1.0;
  }

  const LOSING_INPUTS := [At(1.0, 1.0, 1.0, 1.0), At(1.0, 0.5, 0.8, 2.0), At(1.0, 0.4, 0.3, 3.0), At(1.0, 0.3, 0.9, 4.0), At(1.0, 0.5, 0.5, 5.0)]
  const LOSING_MOVES := [Harvest(1, MemBw), Grant(2, MemBw), Harvest(1, MemBw), Harvest(3, Cache), Grant(2, Cache)]

  lemma RunsNil(f: Fields, rules: Rules)
    ensures Runs(f, THREE, rules, [], [], f)
  {
  }

  lemma RunsCons(f: Fields, rules: Rules, i: Input, move: Move, mid: Fields, inputs: seq<Input>, moves: seq<Move>, f': Fields)
    requires IsCall(f, THREE, i, rules, move, mid) && Runs(mid, THREE, rules, inputs, moves, f')
    ensures Runs(f, THREE, rules, [i] + inputs, [move] + moves, f')
  {
    hide IsCall;
    assert ([i] + inputs)[1..] == inputs && ([move] + moves)[1..] == moves;
  }

  lemma LosingCalls()
    ensures IsCall(AT_START, THREE, LOSING_INPUTS[0], TENTHS, LOSING_MOVES[0], HARVESTED)
    ensures IsCall(HARVESTED, THREE, LOSING_INPUTS[1], TENTHS, LOSING_MOVES[1], GRANTED)
    ensures IsCall(GRANTED, THREE, LOSING_INPUTS[2], TENTHS, LOSING_MOVES[2], HARVESTED_AGAIN)
    ensures IsCall(HARVESTED_AGAIN, THREE, LOSING_INPUTS[3], TENTHS, LOSING_MOVES[3], BOTH_IN_POOL)
    ensures IsCall(BOTH_IN_POOL, THREE, LOSING_INPUTS[4], TENTHS, LOSING_MOVES[4], REVOKED)
  {
    hide IsRound, Sum, Balanced, Rerecorded, Perfs;
    assert Perfs(1.0, 1.0, 1.0) == UNITY by {
      UnityIsPerfs();
    }
    FirstRecord();
    FirstRound();
    SecondRound();
    ThirdRound();
    FourthRound();
    FifthRound();
    RecordedOnce(HARVESTED, LOSING_INPUTS[1].before);
    RecordedOnce(GRANTED, LOSING_INPUTS[2].before);
    RecordedOnce(HARVESTED_AGAIN, LOSING_INPUTS[3].before);
    RecordedOnce(BOTH_IN_POOL, LOSING_INPUTS[4].before);
  }

  lemma UnityIsPerfs()
    ensures Perfs(1.0, 1.0, 1.0) == UNITY
  {
  }

  /** A run from the first static round, all applications measured in every round, that loses a
    unit.  Cache is taken from the third application; when its performance collapses the code
    revokes bandwidth, so a unit harvested from the first application leaves the pool, and
    nobody has it afterwards. */
  lemma UnitCanBeLost()
    ensures Started(AT_START, THREE) && Steady(LOSING_INPUTS) && Runs(AT_START, THREE, TENTHS, LOSING_INPUTS, LOSING_MOVES, REVOKED)
    ensures P.Covers(AT_START.last, THREE) && Sum(THREE, AT_START.last, MemBw) + Of(AT_START.pool, MemBw) == 1.0
    ensures P.Covers(REVOKED.last, THREE) && Sum(THREE, REVOKED.last, MemBw) + Of(REVOKED.pool, MemBw) == 1.0 - TENTHS.unit
  {
    hide IsCall, IsRound, Sum, Started, Balanced, Runs;
    StartsBalanced();
    FifthRound();
    LosingCalls();
    var i, m := LOSING_INPUTS, LOSING_MOVES;
    RunsNil(REVOKED, TENTHS);
    RunsCons(BOTH_IN_POOL, TENTHS, i[4], m[4], REVOKED, [], [], REVOKED);
    assert [i[4]] + [] == [i[4]] && [m[4]] + [] == [m[4]];
    RunsCons(HARVESTED_AGAIN, TENTHS, i[3], m[3], BOTH_IN_POOL, [i[4]], [m[4]], REVOKED);
    RunsCons(GRANTED, TENTHS, i[2], m[2], HARVESTED_AGAIN, [i[3]] + [i[4]], [m[3]] + [m[4]], REVOKED);
    RunsCons(HARVESTED, TENTHS, i[1], m[1], GRANTED, [i[2]] + ([i[3]] + [i[4]]), [m[2]] + ([m[3]] + [m[4]]), REVOKED);
    RunsCons(AT_START, TENTHS, i[0], m[0], HARVESTED, [i[1]] + ([i[2]] + ([i[3]] + [i[4]])), [m[1]] + ([m[2]] + ([m[3]] + [m[4]])), REVOKED);
    assert i == [i[0]] + ([i[1]] + ([i[2]] + ([i[3]] + [i[4]]))) && m == [m[0]] + ([m[1]] + ([m[2]] + ([m[3]] + [m[4]])));
  }

  /** A static round after the first round of that run: the harvested unit is given out again
    while it is still in the pool. */
  lemma StaticRoundCanExceed()
    ensures Started(AT_START, THREE)
    ensures Runs(AT_START, THREE, TENTHS, LOSING_INPUTS[..1], LOSING_MOVES[..1], HARVESTED)
    ensures P.Covers(StaticShares([THREE]), THREE) && Sum(THREE, StaticShares([THREE]), MemBw) + Of(HARVESTED.pool, MemBw) == 1.1
  {
    hide IsCall, Sum, Started, Balanced;
    StartsBalanced();
    StartShares();
    LosingCalls();
    RunsCons(AT_START, TENTHS, LOSING_INPUTS[0], Harvest(1, MemBw), HARVESTED, [], [], HARVESTED);
    assert [LOSING_INPUTS[0]] + [] == LOSING_INPUTS[..1] && [LOSING_MOVES[0]] + [] == LOSING_MOVES[..1];
  }
}
