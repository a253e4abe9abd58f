/** Shares of a VM's applications, as both trading allocators handle them. */
module TradeShares {
  import opened Basics
  import opened RealMath
  import S = Sweep
  import P = PriceSearch

  type Bundle = S.Bundle

  datatype Resource = Cache | MemBw

  function Opposite(r: Resource): Resource
  {
    if r == Cache then MemBw else Cache
  }

  function Of(b: Bundle, r: Resource): real
  {
    if r == Cache then b.cache else b.memBw
  }

  function With(b: Bundle, r: Resource, x: real): (c: Bundle)
    ensures Of(c, r) == x && Of(c, Opposite(r)) == Of(b, Opposite(r))
  {
    if r == Cache then b.(cache := x) else b.(memBw := x)
  }

  function Plus(b: Bundle, r: Resource, d: real): Bundle
  {
    With(b, r, Of(b, r) + d)
  }

  /** The total of one resource. */
  function Sum(users: seq<int>, alloc: map<int, Bundle>, r: Resource): real
    requires P.Covers(alloc, users)
  {
    Of(P.Total(users, alloc), r)
  }

  lemma {:induction false} SumFrame(users: seq<int>, a: map<int, Bundle>, b: map<int, Bundle>, r: Resource)
    requires P.Covers(a, users) && P.Covers(b, users)
    requires forall k :: 0 <= k < |users| ==> Of(a[users[k]], r) == Of(b[users[k]], r)
    ensures Sum(users, a, r) == Sum(users, b, r)
  {
    if users != [] {
      SumFrame(users[1..], a, b, r);
    }
  }

  /** Changing one application's shares changes the total by exactly that. */
  lemma {:induction false} SumUpdate(users: seq<int>, alloc: map<int, Bundle>, u: int, b: Bundle, r: Resource)
    requires Distinct(users) && P.Covers(alloc, users) && u in users
    ensures P.Covers(alloc[u := b], users)
    ensures u in alloc && Sum(users, alloc[u := b], r) == Sum(users, alloc, r) - Of(alloc[u], r) + Of(b, r)
  {
    if users[0] == u {
      SumFrame(users[1..], alloc, alloc[u := b], r);
    } else {
      SumUpdate(users[1..], alloc, u, b, r);
    }
  }

  /** A share of a total that must not exceed one. */
  function Capped(x: real, total: real): real
  {
    if total > 1.0 then x / total else x
  }

  lemma {:induction false} SumCapped(users: seq<int>, a: map<int, Bundle>, b: map<int, Bundle>, r: Resource, t: real)
    requires P.Covers(a, users) && P.Covers(b, users)
    requires forall k :: 0 <= k < |users| ==> Of(b[users[k]], r) == Capped(Of(a[users[k]], r), t)
    ensures Sum(users, b, r) == Capped(Sum(users, a, r), t)
  {
    hide Capped;
    if users == [] {
      AddCapped(0.0, 0.0, t);
    } else {
      SumCapped(users[1..], a, b, r, t);
      AddCapped(Of(a[users[0]], r), Sum(users[1..], a, r), t);
    }
  }

  lemma AddCapped(x: real, y: real, t: real)
    ensures Capped(x, t) + Capped(y, t) == Capped(x + y, t)
  {
  }

  lemma {:induction false} SumOfEqual(users: seq<int>, alloc: map<int, Bundle>, r: Resource, x: real)
    requires P.Covers(alloc, users) && forall k :: 0 <= k < |users| ==> Of(alloc[users[k]], r) == x
    ensures Sum(users, alloc, r) == |users| as real * x
  {
    if users != [] {
      SumOfEqual(users[1..], alloc, r, x);
      assert (|users| - 1) as real * x + x == |users| as real * x;
    }
  }

  // ----- limits and frames -------------------------------------------------------

  /** Trading step and the least and greatest share of each resource. */
  datatype Rules = Rules(unit: real, min: Bundle, max: Bundle)

  predicate InBounds(b: Bundle, rules: Rules)
  {
    rules.min.cache <= b.cache <= rules.max.cache && rules.min.memBw <= b.memBw <= rules.max.memBw
  }

  predicate AllInBounds(users: seq<int>, alloc: map<int, Bundle>, rules: Rules)
  {
    P.Covers(alloc, users) && forall k :: 0 <= k < |users| ==> InBounds(alloc[users[k]], rules)
  }

  lemma BoundsFrame(users: seq<int>, a: map<int, Bundle>, b: map<int, Bundle>, rules: Rules)
    requires P.Covers(a, users) && P.Covers(b, users) && forall k :: 0 <= k < |users| ==> a[users[k]] == b[users[k]]
    ensures AllInBounds(users, a, rules) <==> AllInBounds(users, b, rules)
  {
  }

  lemma SameShares(users: seq<int>, a: map<int, Bundle>, b: map<int, Bundle>)
    requires P.Covers(a, users) && P.Covers(b, users)
    requires forall r: Resource, k :: 0 <= k < |users| ==> Of(b[users[k]], r) == Of(a[users[k]], r)
    ensures forall k :: 0 <= k < |users| ==> b[users[k]] == a[users[k]]
  {
    forall k | 0 <= k < |users| ensures b[users[k]] == a[users[k]] {
      assert Of(b[users[k]], Cache) == Of(a[users[k]], Cache);
      assert Of(b[users[k]], MemBw) == Of(a[users[k]], MemBw);
    }
  }

  /** `_initialize_allocation`: the last shares, or an equal share for a user that has none. */
  function InitialShares(users: seq<int>, last: map<int, Bundle>): (m: map<int, Bundle>)
    requires users != []
    ensures P.Covers(m, users) && forall u :: u in m <==> u in users
  {
    var equal := 1.0 / |users| as real;
    map u | u in users :: if u in last then last[u] else S.Bundle(equal, equal)
  }

  /** Who has no shares yet starts with an equal part of the VM. */
  lemma NewcomersShareEqually(users: seq<int>, last: map<int, Bundle>, u: int)
    requires users != [] && u in users && u !in last
    ensures InitialShares(users, last)[u].cache * |users| as real == 1.0 && InitialShares(users, last)[u].memBw * |users| as real == 1.0
  {
  }

  lemma InitialIsLast(users: seq<int>, last: map<int, Bundle>)
    requires users != [] && P.Covers(last, users)
    ensures forall k :: 0 <= k < |users| ==> InitialShares(users, last)[users[k]] == last[users[k]]
    ensures forall r :: Sum(users, InitialShares(users, last), r) == Sum(users, last, r)
  {
    var initial := InitialShares(users, last);
    forall k | 0 <= k < |users| ensures initial[users[k]] == last[users[k]] {
      var u := users[k];
      assert u in users && u in last;
    }
    forall r ensures Sum(users, initial, r) == Sum(users, last, r) {
      SumFrame(users, initial, last, r);
    }
  }

  lemma StoreShares(users: seq<int>, all: map<int, Bundle>, after: map<int, Bundle>)
    requires P.Covers(after, users) && forall u :: u in after ==> u in all && all[u] == after[u]
    ensures P.Covers(all, users) && (forall k :: 0 <= k < |users| ==> all[users[k]] == after[users[k]])
    ensures forall r :: Sum(users, all, r) == Sum(users, after, r)
  {
    forall k | 0 <= k < |users| ensures users[k] in all && all[users[k]] == after[users[k]] {
      var u := users[k];
      assert u in after;
    }
    forall r ensures Sum(users, all, r) == Sum(users, after, r) {
      SumFrame(users, all, after, r);
    }
  }

  // ----- _normalize_allocations ---------------------------------------------------

  /** One resource scaled down to a total of one, if it was above. */
  predicate NormalizedIn(users: seq<int>, before: map<int, Bundle>, after: map<int, Bundle>, r: Resource)
  {
    && P.Covers(before, users) && P.Covers(after, users) && after.Keys == before.Keys
    && (var t := Sum(users, before, r);
        forall k :: 0 <= k < |users| ==>
          && Of(after[users[k]], r) == Capped(Of(before[users[k]], r), t)
          && Of(after[users[k]], Opposite(r)) == Of(before[users[k]], Opposite(r)))
  }

  method SumShares(users: seq<int>, alloc: map<int, Bundle>, r: Resource) returns (total: real)
    requires P.Covers(alloc, users)
    ensures total == Sum(users, alloc, r)
  {
    total := 0.0;
    for i := 0 to |users|
      invariant P.Covers(alloc, users[i..]) && total + Sum(users[i..], alloc, r) == Sum(users, alloc, r)
    {
      assert users[i..][1..] == users[i + 1..];
      total := total + Of(alloc[users[i]], r);
    }
  }

  method NormalizeOne(users: seq<int>, alloc: map<int, Bundle>, r: Resource) returns (after: map<int, Bundle>)
    requires Distinct(users) && P.Covers(alloc, users)
    ensures NormalizedIn(users, alloc, after, r)
    ensures forall u :: u in alloc && u !in users ==> after[u] == alloc[u]
  {
    after := alloc;
    var total := SumShares(users, alloc, r);
    if total > 1.0 {
      for i := 0 to |users|
        invariant after.Keys == alloc.Keys
        invariant forall k :: 0 <= k < i ==> after[users[k]] == With(alloc[users[k]], r, Capped(Of(alloc[users[k]], r), total))
        invariant forall k :: i <= k < |users| ==> after[users[k]] == alloc[users[k]]
        invariant forall u :: u in alloc && u !in users ==> after[u] == alloc[u]
      {
        var u := users[i];
        after := after[u := With(after[u], r, Of(after[u], r) / total)];
      }
    }
  }

  /** Both resources, one after the other. */
  method Normalize(users: seq<int>, alloc: map<int, Bundle>) returns (after: map<int, Bundle>)
    requires Distinct(users) && P.Covers(alloc, users)
    ensures P.Covers(after, users) && after.Keys == alloc.Keys
    ensures forall r :: Sum(users, after, r) == if Sum(users, alloc, r) > 1.0 then 1.0 else Sum(users, alloc, r)
    ensures forall r :: Sum(users, alloc, r) <= 1.0 ==> forall k :: 0 <= k < |users| ==> Of(after[users[k]], r) == Of(alloc[users[k]], r)
    ensures forall r, k :: 0 <= k < |users| && Sum(users, alloc, r) > 1.0 ==>
              Of(after[users[k]], r) == Of(alloc[users[k]], r) / Sum(users, alloc, r)
    ensures forall r, k :: 0 <= k < |users| && Of(alloc[users[k]], r) >= 0.0 ==> Of(after[users[k]], r) >= 0.0
    ensures forall u :: u in alloc && u !in users ==> after[u] == alloc[u]
  {
    hide Sum, Distinct;
    var middle := NormalizeOne(users, alloc, Cache);
    after := NormalizeOne(users, middle, MemBw);
    SumFrame(users, alloc, middle, MemBw);
    SumFrame(users, middle, after, Cache);
    NormalizedSum(users, alloc, middle, Cache);
    NormalizedSum(users, middle, after, MemBw);
    forall r: Resource ensures Sum(users, after, r) == if Sum(users, alloc, r) > 1.0 then 1.0 else Sum(users, alloc, r) {
      assert r == Cache || r == MemBw;
    }
  }

  lemma NormalizedSum(users: seq<int>, before: map<int, Bundle>, after: map<int, Bundle>, r: Resource)
    requires NormalizedIn(users, before, after, r)
    ensures Sum(users, after, r) == if Sum(users, before, r) > 1.0 then 1.0 else Sum(users, before, r)
  {
    hide Sum, Capped;
    var t := Sum(users, before, r);
    SumCapped(users, before, after, r, t);
    CappedSelf(t);
  }

  lemma CappedSelf(t: real)
    ensures Capped(t, t) == if t > 1.0 then 1.0 else t
  {
    assert t > 1.0 ==> t / t == 1.0;
  }
}
