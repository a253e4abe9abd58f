/** `FijTradeAllocator`: in each round one cache-sensitive and one bandwidth-sensitive
  application of a VM swap a unit of bandwidth for a unit of cache. */
module FijTrade {
  import opened Basics
  import opened RealMath
  import opened TradeShares
  import S = Sweep
  import P = PriceSearch

  /** Estimated performance of an application at given shares. */
  type Estimates = (int, Bundle) -> real

  function Estimate(est: Estimates, u: int, b: Bundle): real
  {
    est(u, b)
  }

  /** What the estimator returns: minus one when it cannot estimate, else a positive value. */
  ghost predicate IsEstimator(est: Estimates)
  {
    forall u, b :: Estimate(est, u, b) == -1.0 || Estimate(est, u, b) > 0.0
  }

  function MoreCache(b: Bundle, unit: real): Bundle
  {
    S.Bundle(b.cache + unit, b.memBw - unit)
  }

  function MoreBw(b: Bundle, unit: real): Bundle
  {
    S.Bundle(b.cache - unit, b.memBw + unit)
  }

  predicate CanTakeCache(b: Bundle, rules: Rules)
  {
    b.cache + rules.unit <= rules.max.cache && b.memBw - rules.unit >= rules.min.memBw
  }

  predicate CanTakeBw(b: Bundle, rules: Rules)
  {
    b.cache - rules.unit >= rules.min.cache && b.memBw + rules.unit <= rules.max.memBw
  }

  datatype Score = Score(cache: real, memBw: real)

  /** Relative change of the estimate. */
  function Gain(now: real, then': real): real
    requires now != 0.0
  {
    (then' - now) / now
  }

  function ScoreOf(est: Estimates, rules: Rules, u: int, b: Bundle): Score
    requires Estimate(est, u, b) != 0.0
  {
    var now := Estimate(est, u, b);
    Score(if CanTakeCache(b, rules) then Gain(now, Estimate(est, u, MoreCache(b, rules.unit))) else 0.0,
          if CanTakeBw(b, rules) then Gain(now, Estimate(est, u, MoreBw(b, rules.unit))) else 0.0)
  }

  /** A positive gain is a real one: from a known estimate to a strictly larger one. */
  lemma PositiveGain(now: real, then': real)
    requires (now == -1.0 || now > 0.0) && (then' == -1.0 || then' > 0.0) && Gain(now, then') > 0.0
    ensures 0.0 < now < then'
  {
  }

  predicate PrefersCache(s: Score)
  {
    s.cache > 0.0 && s.cache > s.memBw
  }

  predicate PrefersBw(s: Score)
  {
    s.memBw > 0.0 && s.memBw > s.cache
  }

  /** A gain is a fraction of the estimate now. */
  lemma GainIsRelative(now: real, then': real)
    requires now != 0.0
    ensures Gain(now, then') * now == then' - now
  {
  }

  /** What it takes to prefer cache, in terms of the estimates: it is known, there is room for the
    trade, the trade raises it, and the opposite trade is not possible or raises it less. */
  lemma PrefersCacheIff(est: Estimates, rules: Rules, u: int, b: Bundle)
    requires IsEstimator(est)
    ensures var now, more, less := Estimate(est, u, b), Estimate(est, u, S.Bundle(b.cache + rules.unit, b.memBw - rules.unit)),
                                   Estimate(est, u, S.Bundle(b.cache - rules.unit, b.memBw + rules.unit));
            && now != 0.0
            && (PrefersCache(ScoreOf(est, rules, u, b)) <==>
                  && 0.0 < now < more
                  && b.cache + rules.unit <= rules.max.cache && b.memBw - rules.unit >= rules.min.memBw
                  && (b.cache - rules.unit >= rules.min.cache && b.memBw + rules.unit <= rules.max.memBw ==> more > less))
  {
    var now, more, less := Estimate(est, u, b), Estimate(est, u, MoreCache(b, rules.unit)), Estimate(est, u, MoreBw(b, rules.unit));
    assert more == -1.0 || more > 0.0;
    assert less == -1.0 || less > 0.0;
    GainOrder(now, more, less);
  }

  lemma PrefersBwIff(est: Estimates, rules: Rules, u: int, b: Bundle)
    requires IsEstimator(est)
    ensures var now, more, less := Estimate(est, u, b), Estimate(est, u, S.Bundle(b.cache - rules.unit, b.memBw + rules.unit)),
                                   Estimate(est, u, S.Bundle(b.cache + rules.unit, b.memBw - rules.unit));
            && now != 0.0
            && (PrefersBw(ScoreOf(est, rules, u, b)) <==>
                  && 0.0 < now < more
                  && b.cache - rules.unit >= rules.min.cache && b.memBw + rules.unit <= rules.max.memBw
                  && (b.cache + rules.unit <= rules.max.cache && b.memBw - rules.unit >= rules.min.memBw ==> more > less))
  {
    var now, more, less := Estimate(est, u, b), Estimate(est, u, MoreBw(b, rules.unit)), Estimate(est, u, MoreCache(b, rules.unit));
    assert more == -1.0 || more > 0.0;
    assert less == -1.0 || less > 0.0;
    GainOrder(now, more, less);
  }

  lemma GainOrder(now: real, more: real, less: real)
    requires (now == -1.0 || now > 0.0) && (more == -1.0 || more > 0.0) && (less == -1.0 || less > 0.0)
    ensures Gain(now, more) > 0.0 <==> 0.0 < now < more
    ensures now > 0.0 ==> (Gain(now, more) > Gain(now, less) <==> more > less)
  {
    GainIsRelative(now, more);
    GainIsRelative(now, less);
    hide Gain;
    if now > 0.0 {
      OrderOfTimes(Gain(now, more), Gain(now, less), now, more - now, less - now);
      OrderOfTimes(Gain(now, more), 0.0, now, more - now, 0.0);
    } else {
      assert Gain(now, more) * (-1.0) == more + 1.0;
    }
  }

  lemma OrderOfTimes(g: real, h: real, c: real, x: real, y: real)
    requires c > 0.0 && g * c == x && h * c == y
    ensures g > h <==> x > y
  {
    ScaleLe(g, h, c);
  }

  /** User k is the first that prefers cache with its score. */
  predicate IsFirstCache(users: seq<int>, scores: map<int, Score>, k: int)
  {
    && 0 <= k < |users| && users[k] in scores
    && forall j :: 0 <= j < k && users[j] in scores && PrefersCache(scores[users[j]]) ==> scores[users[j]].cache < scores[users[k]].cache
  }

  predicate IsFirstBw(users: seq<int>, scores: map<int, Score>, exclude: Option<int>, k: int)
  {
    && 0 <= k < |users| && users[k] in scores
    && forall j :: 0 <= j < k && users[j] in scores && Some(users[j]) != exclude && PrefersBw(scores[users[j]]) ==>
         scores[users[j]].memBw < scores[users[k]].memBw
  }

  /** The first user with the greatest score among those that prefer cache, if there are any. */
  predicate IsMostCache(users: seq<int>, scores: map<int, Score>, r: Option<int>)
  {
    && (r.None? ==> forall u :: u in users && u in scores ==> !PrefersCache(scores[u]))
    && (r.Some? ==>
          && r.value in users && r.value in scores && PrefersCache(scores[r.value])
          && (forall u :: u in users && u in scores && PrefersCache(scores[u]) ==> scores[u].cache <= scores[r.value].cache)
          && exists k :: 0 <= k < |users| && users[k] == r.value && IsFirstCache(users, scores, k))
  }

  /** Likewise for bandwidth, leaving out one user. */
  predicate IsMostBw(users: seq<int>, scores: map<int, Score>, exclude: Option<int>, r: Option<int>)
  {
    && (r.None? ==> forall u :: u in users && u in scores && Some(u) != exclude ==> !PrefersBw(scores[u]))
    && (r.Some? ==>
          && r.value in users && r.value in scores && r != exclude && PrefersBw(scores[r.value])
          && (forall u :: u in users && u in scores && Some(u) != exclude && PrefersBw(scores[u]) ==> scores[u].memBw <= scores[r.value].memBw)
          && exists k :: 0 <= k < |users| && users[k] == r.value && IsFirstBw(users, scores, exclude, k))
  }

  lemma CacheNext(users: seq<int>, scores: map<int, Score>, r: Option<int>, u: int)
    requires IsMostCache(users, scores, r)
    ensures var takes := u in scores && PrefersCache(scores[u]) && (r.None? || scores[u].cache > scores[r.value].cache);
            IsMostCache(users + [u], scores, if takes then Some(u) else r)
  {
    var n, all := |users|, users + [u];
    if u in scores && PrefersCache(scores[u]) && (r.None? || scores[u].cache > scores[r.value].cache) {
      forall j | 0 <= j < n && all[j] in scores && PrefersCache(scores[all[j]]) ensures scores[all[j]].cache < scores[u].cache {
        var w := users[j];
        assert w in users;
      }
      assert all[n] == u && IsFirstCache(all, scores, n);
    } else if r.Some? {
      var k :| 0 <= k < |users| && users[k] == r.value && IsFirstCache(users, scores, k);
      assert all[k] == r.value && IsFirstCache(all, scores, k);
    }
  }

  lemma BwNext(users: seq<int>, scores: map<int, Score>, exclude: Option<int>, r: Option<int>, u: int)
    requires IsMostBw(users, scores, exclude, r)
    ensures var takes := u in scores && Some(u) != exclude && PrefersBw(scores[u]) && (r.None? || scores[u].memBw > scores[r.value].memBw);
            IsMostBw(users + [u], scores, exclude, if takes then Some(u) else r)
  {
    var n, all := |users|, users + [u];
    if u in scores && Some(u) != exclude && PrefersBw(scores[u]) && (r.None? || scores[u].memBw > scores[r.value].memBw) {
      forall j | 0 <= j < n && all[j] in scores && Some(all[j]) != exclude && PrefersBw(scores[all[j]])
        ensures scores[all[j]].memBw < scores[u].memBw
      {
        var w := users[j];
        assert w in users;
      }
      assert all[n] == u && IsFirstBw(all, scores, exclude, n);
    } else if r.Some? {
      var k :| 0 <= k < |users| && users[k] == r.value && IsFirstBw(users, scores, exclude, k);
      assert all[k] == r.value && IsFirstBw(all, scores, exclude, k);
    }
  }

  method FindMostCacheSensitive(users: seq<int>, scores: map<int, Score>) returns (best: Option<int>)
    ensures IsMostCache(users, scores, best)
  {
    hide IsFirstCache;
    best := None;
    var bestScore := 0.0;
    for i := 0 to |users|
      invariant IsMostCache(users[..i], scores, best)
      invariant best.Some? ==> bestScore == scores[best.value].cache
    {
      var u := users[i];
      assert users[..i + 1] == users[..i] + [u];
      CacheNext(users[..i], scores, best, u);
      if u in scores && PrefersCache(scores[u]) && (best.None? || scores[u].cache > bestScore) {
        best, bestScore := Some(u), scores[u].cache;
      }
    }
    assert users[..|users|] == users;
  }

  method FindMostBwSensitive(users: seq<int>, scores: map<int, Score>, exclude: Option<int>) returns (best: Option<int>)
    ensures IsMostBw(users, scores, exclude, best)
  {
    hide IsFirstBw;
    best := None;
    var bestScore := 0.0;
    for i := 0 to |users|
      invariant IsMostBw(users[..i], scores, exclude, best)
      invariant best.Some? ==> bestScore == scores[best.value].memBw
    {
      var u := users[i];
      assert users[..i + 1] == users[..i] + [u];
      BwNext(users[..i], scores, exclude, best, u);
      if u in scores && Some(u) != exclude && PrefersBw(scores[u]) && (best.None? || scores[u].memBw > bestScore) {
        best, bestScore := Some(u), scores[u].memBw;
      }
    }
    assert users[..|users|] == users;
  }

  /** Scores of the users that did not trade in the previous round. */
  ghost predicate IsScoring(est: Estimates, rules: Rules, users: seq<int>, cur: map<int, Bundle>, skip: set<int>, scores: map<int, Score>)
  {
    && (forall u :: u in scores <==> u in users && u !in skip)
    && (forall u :: u in scores ==> u in cur && Estimate(est, u, cur[u]) != 0.0 && scores[u] == ScoreOf(est, rules, u, cur[u]))
  }

  method CalculateScores(est: Estimates, rules: Rules, users: seq<int>, cur: map<int, Bundle>, skip: set<int>) returns (scores: map<int, Score>)
    requires IsEstimator(est) && forall u :: u in users ==> u in cur
    ensures IsScoring(est, rules, users, cur, skip, scores)
  {
    hide ScoreOf, Estimate;
    scores := map[];
    for i := 0 to |users|
      invariant IsScoring(est, rules, users[..i], cur, skip, scores)
    {
      var u := users[i];
      assert users[..i + 1] == users[..i] + [u];
      if u !in skip {
        assert Estimate(est, u, cur[u]) != 0.0;
        scores := scores[u := ScoreOf(est, rules, u, cur[u])];
      }
    }
    assert users[..|users|] == users;
  }

  // ----- one trade ----------------------------------------------------------------

  /** The first of the pair gets cache for bandwidth, the second bandwidth for cache. */
  function AfterTrade(cur: map<int, Bundle>, trade: Option<(int, int)>, unit: real): map<int, Bundle>
    requires trade.Some? ==> trade.value.0 in cur && trade.value.1 in cur
  {
    if trade.None? then cur
    else
      var (a, b) := trade.value;
      var once := cur[a := MoreCache(cur[a], unit)];
      once[b := MoreBw(once[b], unit)]
  }

  /** What makes a pair trade: both prefer it, they are two users, neither traded last time and
    neither has the id zero, which counts as no user. */
  ghost predicate IsTrade(est: Estimates, rules: Rules, users: seq<int>, cur: map<int, Bundle>, skip: set<int>, trade: Option<(int, int)>)
  {
    exists scores, c, b ::
      && IsScoring(est, rules, users, cur, skip, scores)
      && IsMostCache(users, scores, c) && IsMostBw(users, scores, c, b)
      && trade == TradeOf(c, b)
  }

  function TradeOf(c: Option<int>, b: Option<int>): Option<(int, int)>
  {
    if c.Some? && b.Some? && c.value != 0 && b.value != 0 then Some((c.value, b.value)) else None
  }

  /** Some user that did not trade last time prefers cache. */
  ghost predicate CacheWanted(est: Estimates, rules: Rules, users: seq<int>, cur: map<int, Bundle>, skip: set<int>)
  {
    exists u :: u in users && u !in skip && u in cur && Estimate(est, u, cur[u]) != 0.0 && PrefersCache(ScoreOf(est, rules, u, cur[u]))
  }

  ghost predicate BwWanted(est: Estimates, rules: Rules, users: seq<int>, cur: map<int, Bundle>, skip: set<int>)
  {
    exists u :: u in users && u !in skip && u in cur && Estimate(est, u, cur[u]) != 0.0 && PrefersBw(ScoreOf(est, rules, u, cur[u]))
  }

  /** Unless the id zero may be chosen, a round trades exactly when one user prefers cache and one
    bandwidth. */
  lemma TradesExactlyWhenWanted(est: Estimates, rules: Rules, users: seq<int>, cur: map<int, Bundle>, skip: set<int>, trade: Option<(int, int)>)
    requires (0 in users ==> 0 in skip) && IsTrade(est, rules, users, cur, skip, trade)
    ensures trade.Some? <==> CacheWanted(est, rules, users, cur, skip) && BwWanted(est, rules, users, cur, skip)
  {
    hide Estimate, ScoreOf;
    var scores, c, b :|
      IsScoring(est, rules, users, cur, skip, scores) && IsMostCache(users, scores, c) && IsMostBw(users, scores, c, b) && trade == TradeOf(c, b);
    if CacheWanted(est, rules, users, cur, skip) {
      var u :| u in users && u !in skip && u in cur && Estimate(est, u, cur[u]) != 0.0 && PrefersCache(ScoreOf(est, rules, u, cur[u]));
      assert u in scores && c.Some?;
    }
    if BwWanted(est, rules, users, cur, skip) {
      var u :| u in users && u !in skip && u in cur && Estimate(est, u, cur[u]) != 0.0 && PrefersBw(ScoreOf(est, rules, u, cur[u]));
      assert u in scores && Some(u) != c && b.Some?;
    }
    if c.Some? && b.Some? {
      assert c.value in cur && scores[c.value] == ScoreOf(est, rules, c.value, cur[c.value]);
      assert b.value in cur && scores[b.value] == ScoreOf(est, rules, b.value, cur[b.value]);
    }
  }

  /** Whatever the estimates are, a round trades exactly when it is wanted. */
  ghost predicate TradesAsWanted(rules: Rules, users: seq<int>, cur: map<int, Bundle>, skip: set<int>)
  {
    forall est, trade :: IsEstimator(est) && IsTrade(est, rules, users, cur, skip, trade) ==>
      (trade.Some? <==> CacheWanted(est, rules, users, cur, skip) && BwWanted(est, rules, users, cur, skip))
  }

  /** Users that did not trade last time have room to trade either way. */
  predicate HaveRoom(rules: Rules, users: seq<int>, cur: map<int, Bundle>, skip: set<int>)
  {
    forall u :: u in users && u !in skip ==> u in cur && CanTakeCache(cur[u], rules) && CanTakeBw(cur[u], rules)
  }

  /** User 0 gains from more cache than it has, everybody else from more bandwidth. */
  function ZeroWantsCache(cur: map<int, Bundle>): Estimates
  {
    (u: int, b: Bundle) =>
      if u !in cur then 1.0
      else if u == 0 then if b.cache > cur[u].cache then 2.0 else 1.0
      else if b.memBw > cur[u].memBw then 2.0 else 1.0
  }

  lemma ZeroScores(rules: Rules, cur: map<int, Bundle>, u: int)
    requires rules.unit > 0.0 && u in cur && CanTakeCache(cur[u], rules) && CanTakeBw(cur[u], rules)
    ensures IsEstimator(ZeroWantsCache(cur)) && Estimate(ZeroWantsCache(cur), u, cur[u]) == 1.0
    ensures ScoreOf(ZeroWantsCache(cur), rules, u, cur[u]) == if u == 0 then Score(1.0, 0.0) else Score(0.0, 1.0)
  {
  }

  /** Somebody is chosen. */
  lemma {:induction false} SomeMostBw(users: seq<int>, scores: map<int, Score>, exclude: Option<int>) returns (r: Option<int>)
    ensures IsMostBw(users, scores, exclude, r)
  {
    if users == [] {
      return None;
    }
    var n := |users| - 1;
    r := SomeMostBw(users[..n], scores, exclude);
    BwNext(users[..n], scores, exclude, r, users[n]);
    assert users[..n] + [users[n]] == users;
    if users[n] in scores && Some(users[n]) != exclude && PrefersBw(scores[users[n]]) && (r.None? || scores[users[n]].memBw > scores[r.value].memBw) {
      r := Some(users[n]);
    }
  }

  lemma ZeroIsChosen(users: seq<int>, scores: map<int, Score>)
    requires 0 in users && 0 in scores
    requires forall u :: u in scores ==> scores[u] == if u == 0 then Score(1.0, 0.0) else Score(0.0, 1.0)
    ensures IsMostCache(users, scores, Some(0))
  {
    var k :| 0 <= k < |users| && users[k] == 0;
    var i := FirstIndex(users, 0, k);
    assert IsFirstCache(users, scores, i);
  }

  lemma {:induction false} FirstIndex(users: seq<int>, u: int, k: nat) returns (i: nat)
    requires k < |users| && users[k] == u
    ensures i <= k && users[i] == u && forall j :: 0 <= j < i ==> users[j] != u
  {
    if exists j :: 0 <= j < k && users[j] == u {
      var j :| 0 <= j < k && users[j] == u;
      i := FirstIndex(users, u, j);
    } else {
      i := k;
    }
  }

  /** With those estimates user 0 and another one could trade, and do not. */
  lemma ZeroBlocks(rules: Rules, users: seq<int>, cur: map<int, Bundle>, skip: set<int>, v: int)
    requires rules.unit > 0.0 && HaveRoom(rules, users, cur, skip)
    requires 0 in users && 0 !in skip && v in users && v !in skip && v != 0
    ensures !TradesAsWanted(rules, users, cur, skip)
  {
    var est := ZeroWantsCache(cur);
    var scores := map u | u in users && u !in skip :: if u == 0 then Score(1.0, 0.0) else Score(0.0, 1.0);
    forall u | u in users && u !in skip
      ensures u in cur && Estimate(est, u, cur[u]) == 1.0 && scores[u] == ScoreOf(est, rules, u, cur[u])
    {
      ZeroScores(rules, cur, u);
    }
    ZeroScores(rules, cur, 0);
    hide ScoreOf, Estimate, IsEstimator, ZeroWantsCache, CanTakeCache, CanTakeBw;
    assert IsScoring(est, rules, users, cur, skip, scores);
    ZeroIsChosen(users, scores);
    var b := SomeMostBw(users, scores, Some(0));
    assert TradeOf(Some(0), b) == None;
    assert IsTrade(est, rules, users, cur, skip, None);
    assert PrefersCache(ScoreOf(est, rules, 0, cur[0])) && PrefersBw(ScoreOf(est, rules, v, cur[v]));
    assert CacheWanted(est, rules, users, cur, skip) && BwWanted(est, rules, users, cur, skip);
  }

  /** The exact condition: among two or more users that did not trade last time and have room,
    none has the id zero. */
  lemma TradesAsWantedIff(rules: Rules, users: seq<int>, cur: map<int, Bundle>, skip: set<int>, u: int, v: int)
    requires rules.unit > 0.0 && HaveRoom(rules, users, cur, skip)
    requires u != v && u in users && u !in skip && v in users && v !in skip
    ensures TradesAsWanted(rules, users, cur, skip) <==> (0 in users ==> 0 in skip)
  {
    hide IsEstimator, IsTrade, CacheWanted, BwWanted, HaveRoom;
    if 0 in users && 0 !in skip {
      ZeroBlocks(rules, users, cur, skip, if u == 0 then v else u);
    } else {
      forall est, trade | IsEstimator(est) && IsTrade(est, rules, users, cur, skip, trade)
        ensures trade.Some? <==> CacheWanted(est, rules, users, cur, skip) && BwWanted(est, rules, users, cur, skip)
      {
        TradesExactlyWhenWanted(est, rules, users, cur, skip, trade);
      }
    }
  }

  /** Users 0 and 1 gain from cache, user 0 more; user 2 gains from bandwidth. */
  function Eager(u: int, b: Bundle): real
  {
    if u == 2 then if b.memBw > 0.25 then 2.0 else 1.0
    else if b.cache <= 0.25 then 1.0 else if u == 0 then 3.0 else 2.0
  }

  const QUARTER := S.Bundle(0.25, 0.25)

  /** With an id zero it need not trade: user 0 is chosen for cache and counts as nobody, so
    nothing is traded, although without it users 1 and 2 trade. */
  lemma ZeroStopsTrading(rules: Rules, trade: Option<(int, int)>)
    requires 0.0 < rules.unit && CanTakeCache(QUARTER, rules) && CanTakeBw(QUARTER, rules)
    ensures IsEstimator(Eager)
    ensures IsTrade(Eager, rules, [0, 1, 2], map[0 := QUARTER, 1 := QUARTER, 2 := QUARTER], {}, trade) ==> trade == None
    ensures IsTrade(Eager, rules, [1, 2], map[1 := QUARTER, 2 := QUARTER], {}, trade) ==> trade == Some((1, 2))
  {
    EagerScores(rules);
    hide ScoreOf, Eager, CanTakeCache, CanTakeBw, IsTrade, IsEstimator, Estimate;
    ZeroChosen(rules, trade);
    PairChosen(rules, trade);
  }

  lemma ZeroChosen(rules: Rules, trade: Option<(int, int)>)
    requires Estimate(Eager, 0, QUARTER) == Estimate(Eager, 1, QUARTER) == Estimate(Eager, 2, QUARTER) == 1.0
    requires ScoreOf(Eager, rules, 0, QUARTER) == Score(2.0, 0.0) && ScoreOf(Eager, rules, 1, QUARTER) == Score(1.0, 0.0)
    requires ScoreOf(Eager, rules, 2, QUARTER) == Score(0.0, 1.0)
    ensures IsTrade(Eager, rules, [0, 1, 2], map[0 := QUARTER, 1 := QUARTER, 2 := QUARTER], {}, trade) ==> trade == None
  {
    hide ScoreOf, Eager, Estimate, IsFirstCache, IsMostBw;
    var users, cur := [0, 1, 2], map[0 := QUARTER, 1 := QUARTER, 2 := QUARTER];
    if IsTrade(Eager, rules, users, cur, {}, trade) {
      var scores, c, b :|
        IsScoring(Eager, rules, users, cur, {}, scores) && IsMostCache(users, scores, c) && IsMostBw(users, scores, c, b) && trade == TradeOf(c, b);
      assert 0 in scores && 1 in scores && 2 in scores;
      assert c == Some(0);
    }
  }

  lemma PairChosen(rules: Rules, trade: Option<(int, int)>)
    requires Estimate(Eager, 1, QUARTER) == Estimate(Eager, 2, QUARTER) == 1.0
    requires ScoreOf(Eager, rules, 1, QUARTER) == Score(1.0, 0.0) && ScoreOf(Eager, rules, 2, QUARTER) == Score(0.0, 1.0)
    ensures IsTrade(Eager, rules, [1, 2], map[1 := QUARTER, 2 := QUARTER], {}, trade) ==> trade == Some((1, 2))
  {
    hide ScoreOf, Eager, Estimate;
    var users, cur := [1, 2], map[1 := QUARTER, 2 := QUARTER];
    if IsTrade(Eager, rules, users, cur, {}, trade) {
      var scores, c, b :|
        IsScoring(Eager, rules, users, cur, {}, scores) && IsMostCache(users, scores, c) && IsMostBw(users, scores, c, b) && trade == TradeOf(c, b);
      assert 1 in scores && 2 in scores;
      assert c == Some(1) && b == Some(2);
    }
  }

  lemma EagerScores(rules: Rules)
    requires 0.0 < rules.unit && CanTakeCache(QUARTER, rules) && CanTakeBw(QUARTER, rules)
    ensures IsEstimator(Eager) && forall u :: Estimate(Eager, u, QUARTER) == 1.0
    ensures ScoreOf(Eager, rules, 0, QUARTER) == Score(2.0, 0.0)
    ensures ScoreOf(Eager, rules, 1, QUARTER) == Score(1.0, 0.0)
    ensures ScoreOf(Eager, rules, 2, QUARTER) == Score(0.0, 1.0)
  {
  }

  /** Both traders are better off, by their own estimates, and stay within the bounds. */
  lemma TradersGain(est: Estimates, rules: Rules, users: seq<int>, cur: map<int, Bundle>, skip: set<int>, trade: Option<(int, int)>)
    requires IsEstimator(est) && IsTrade(est, rules, users, cur, skip, trade) && trade.Some?
    ensures var (a, b) := trade.value;
            && a != b && a in users && b in users && a in cur && b in cur && a !in skip && b !in skip
            && 0.0 < Estimate(est, a, cur[a]) < Estimate(est, a, MoreCache(cur[a], rules.unit))
            && 0.0 < Estimate(est, b, cur[b]) < Estimate(est, b, MoreBw(cur[b], rules.unit))
            && CanTakeCache(cur[a], rules) && CanTakeBw(cur[b], rules)
  {
  }

  /** A trade moves resources between two users and leaves both totals as they are. */
  lemma TradeKeepsTotals(users: seq<int>, cur: map<int, Bundle>, trade: Option<(int, int)>, unit: real, r: Resource)
    requires Distinct(users) && P.Covers(cur, users)
    requires trade.Some? ==> trade.value.0 in users && trade.value.1 in users && trade.value.0 in cur && trade.value.1 in cur
    ensures P.Covers(AfterTrade(cur, trade, unit), users) && Sum(users, AfterTrade(cur, trade, unit), r) == Sum(users, cur, r)
  {
    hide Sum, Distinct;
    if trade.Some? {
      var (a, b) := trade.value;
      var once := cur[a := MoreCache(cur[a], unit)];
      SumUpdate(users, cur, a, MoreCache(cur[a], unit), r);
      SumUpdate(users, once, b, MoreBw(once[b], unit), r);
    }
  }

  /** The shares after the round are those before it with the trade applied. */
  predicate Applied(users: seq<int>, before: map<int, Bundle>, trade: Option<(int, int)>, unit: real, after: map<int, Bundle>)
  {
    && P.Covers(before, users) && P.Covers(after, users)
    && (trade.Some? ==> trade.value.0 in users && trade.value.1 in users && trade.value.0 in before && trade.value.1 in before)
    && P.Covers(AfterTrade(before, trade, unit), users)
    && forall k :: 0 <= k < |users| ==> after[users[k]] == AfterTrade(before, trade, unit)[users[k]]
  }

  /** Scoring, choosing, trading and normalising. */
  method Trade(est: Estimates, rules: Rules, users: seq<int>, cur: map<int, Bundle>, skip: set<int>)
    returns (trade: Option<(int, int)>, after: map<int, Bundle>)
    requires Distinct(users) && IsEstimator(est) && P.Covers(cur, users) && forall u :: u in cur <==> u in users
    ensures IsTrade(est, rules, users, cur, skip, trade)
    ensures trade.Some? ==> trade.value.0 in users && trade.value.1 in users
    ensures P.Covers(after, users) && after.Keys == cur.Keys
    ensures forall r :: Sum(users, after, r) == Min(1.0, Sum(users, cur, r))
    ensures (forall r :: Sum(users, cur, r) <= 1.0) ==> Applied(users, cur, trade, rules.unit, after)
  {
    hide IsScoring, IsEstimator, Sum, Distinct, MoreCache, MoreBw;
    var scores := CalculateScores(est, rules, users, cur, skip);
    var c := FindMostCacheSensitive(users, scores);
    var b := FindMostBwSensitive(users, scores, c);
    trade := TradeOf(c, b);
    var traded := AfterTrade(cur, trade, rules.unit);
    TradeKeepsTotals(users, cur, trade, rules.unit, Cache);
    TradeKeepsTotals(users, cur, trade, rules.unit, MemBw);
    forall r: Resource ensures Sum(users, traded, r) == Sum(users, cur, r) {
      assert r == Cache || r == MemBw;
    }
    after := Normalize(users, traded);
    if forall r: Resource :: Sum(users, cur, r) <= 1.0 {
      SameShares(users, traded, after);
    }
  }

  class FijTradeAllocator {
    const rules: Rules
    var lastAllocation: map<int, Bundle>
    var lastAdjusted: map<int, set<int>>

    constructor (rules: Rules)
      ensures this.rules == rules && lastAllocation == map[] && lastAdjusted == map[]
    {
      this.rules := rules;
      lastAllocation, lastAdjusted := map[], map[];
    }

    /** Users that traded in the previous round of a VM. */
    function Skipped(vm: int): set<int>
      reads this
    {
      if vm in lastAdjusted then lastAdjusted[vm] else {}
    }

    function Initial(users: seq<int>): map<int, Bundle>
      requires users != []
      reads this
    {
      InitialShares(users, lastAllocation)
    }

    /** `allocate`, followed by the update of the last allocation: at most one trade. */
    method Round(vm: int, users: seq<int>, est: Estimates) returns (trade: Option<(int, int)>)
      requires users != [] && Distinct(users) && IsEstimator(est)
      modifies this
      ensures IsTrade(est, rules, users, old(Initial(users)), old(Skipped(vm)), trade)
      ensures Skipped(vm) == Traders(trade) && forall v :: v != vm ==> Skipped(v) == old(Skipped(v))
      ensures P.Covers(lastAllocation, users)
      ensures forall r :: Sum(users, lastAllocation, r) == Min(1.0, Sum(users, old(Initial(users)), r))
      ensures (forall r :: Sum(users, old(Initial(users)), r) <= 1.0) ==>
                Applied(users, old(Initial(users)), trade, rules.unit, lastAllocation)
      ensures forall u :: u in old(lastAllocation) && u !in users ==> u in lastAllocation && lastAllocation[u] == old(lastAllocation)[u]
    {
      hide IsEstimator, IsTrade, Sum, Distinct, AfterTrade;
      var cur := Initial(users);
      var after;
      trade, after := Trade(est, rules, users, cur, Skipped(vm));
      lastAdjusted := lastAdjusted[vm := if trade.Some? then {trade.value.0, trade.value.1} else {}];
      lastAllocation := lastAllocation + after;
      StoreShares(users, lastAllocation, after);
    }

    /** Any sequence of rounds of one VM: totals and bounds are kept throughout, and nobody
      trades in two rounds in a row. */
    method Run(vm: int, users: seq<int>, ests: seq<Estimates>) returns (trades: seq<Option<(int, int)>>)
      requires users != [] && Distinct(users) && P.Covers(lastAllocation, users) && rules.unit >= 0.0
      requires forall i :: 0 <= i < |ests| ==> IsEstimator(ests[i])
      requires forall r :: Sum(users, lastAllocation, r) <= 1.0
      modifies this
      ensures |trades| == |ests| && P.Covers(lastAllocation, users)
      ensures forall i :: 0 < i < |trades| ==> Traders(trades[i - 1]) !! Traders(trades[i])
      ensures |trades| > 0 ==> Traders(trades[0]) !! old(Skipped(vm))
      ensures forall r :: Sum(users, lastAllocation, r) == Sum(users, old(lastAllocation), r)
      ensures old(AllInBounds(users, lastAllocation, rules)) ==> AllInBounds(users, lastAllocation, rules)
    {
      hide IsEstimator, IsTrade, Sum, Distinct, P.Covers, AllInBounds, Applied, Traders;
      trades := [];
      for i := 0 to |ests|
        invariant |trades| == i && P.Covers(lastAllocation, users)
        invariant forall j :: 0 < j < i ==> Traders(trades[j - 1]) !! Traders(trades[j])
        invariant Skipped(vm) == if i == 0 then old(Skipped(vm)) else Traders(trades[i - 1])
        invariant i > 0 ==> Traders(trades[0]) !! old(Skipped(vm))
        invariant forall r :: Sum(users, lastAllocation, r) == Sum(users, old(lastAllocation), r)
        invariant old(AllInBounds(users, lastAllocation, rules)) ==> AllInBounds(users, lastAllocation, rules)
      {
        ghost var before, skip, last := Initial(users), Skipped(vm), lastAllocation;
        InitialIsLast(users, last);
        var trade := Round(vm, users, ests[i]);
        RoundIsParetoStep(ests[i], rules, users, before, skip, trade, lastAllocation);
        BoundsFrame(users, last, before, rules);
        trades := trades + [trade];
      }
    }
  }

  function Traders(trade: Option<(int, int)>): set<int>
  {
    if trade.Some? then {trade.value.0, trade.value.1} else {}
  }

  /** A round is an estimated Pareto improvement: the traders' estimates strictly rise, nobody
    else's shares change, and shares within the bounds stay within them. */
  lemma RoundIsParetoStep(est: Estimates, rules: Rules, users: seq<int>, before: map<int, Bundle>, skip: set<int>, trade: Option<(int, int)>, after: map<int, Bundle>)
    requires IsEstimator(est) && IsTrade(est, rules, users, before, skip, trade) && rules.unit >= 0.0
    requires Applied(users, before, trade, rules.unit, after)
    ensures Traders(trade) !! skip
    ensures forall k :: 0 <= k < |users| && users[k] !in Traders(trade) ==> after[users[k]] == before[users[k]]
    ensures forall k :: 0 <= k < |users| && users[k] in Traders(trade) ==>
              0.0 < Estimate(est, users[k], before[users[k]]) < Estimate(est, users[k], after[users[k]])
    ensures AllInBounds(users, before, rules) ==> AllInBounds(users, after, rules)
  {
    if trade.Some? {
      TradersGain(est, rules, users, before, skip, trade);
    }
    hide IsEstimator, IsTrade, Estimate;
  }
}
