/** The cache-trace loader: compression of idle time and accounting of the working set. */
module TraceLoader {
  import opened Basics

  const MAX_IDLE_TIME := 10
  const TIMING_RATIO := 100
  const MAX_REQUEST_NUM := 10_000_000 * 10
  const MAX_VALUE_SIZE := 512 * 1024 * 1024
  const MAX_TOTAL_VALUE_SIZE := 200 * 1024 * 1024 * 1024
  const MAX_REPEATED_REQ := 1
  const TWO_64 := 0x1_0000_0000_0000_0000

  datatype Request = Request(valid: bool, objId: nat, objSize: nat, clockTime: nat, nReq: nat)

  datatype DbRequest = DbRequest(key: nat, valueLen: nat, timestamp: nat, nReq: nat)

  function Min(a: int, b: int): int
  {
    if a <= b then a else b
  }

  // ----- idle time ----------------------------------------------------------------

  function TimeOf(req: Request): nat
  {
    req.clockTime / TIMING_RATIO
  }

  /** Time from the request before, or from zero. */
  function Gap(reqs: seq<Request>, i: nat): int
    requires i < |reqs|
  {
    TimeOf(reqs[i]) - if i == 0 then 0 else TimeOf(reqs[i - 1])
  }

  /** The sum of the first n gaps, each capped at the longest idle time. */
  function CappedTime(reqs: seq<Request>, n: nat): int
    requires n <= |reqs|
  {
    if n == 0 then 0 else CappedTime(reqs, n - 1) + Min(MAX_IDLE_TIME, Gap(reqs, n - 1))
  }

  predicate Ordered(reqs: seq<Request>)
  {
    forall i :: 0 < i < |reqs| ==> TimeOf(reqs[i - 1]) <= TimeOf(reqs[i])
  }

  /** On an ordered trace compressed time starts at zero or later, never runs backwards, never
    pauses for longer than the longest idle time, and never overtakes the trace. */
  lemma {:induction false} OrderedTimes(reqs: seq<Request>, n: nat)
    requires Ordered(reqs) && n <= |reqs|
    ensures 0 <= CappedTime(reqs, n)
    ensures n > 0 ==> CappedTime(reqs, n - 1) <= CappedTime(reqs, n) <= CappedTime(reqs, n - 1) + MAX_IDLE_TIME
    ensures n > 0 ==> CappedTime(reqs, n) <= TimeOf(reqs[n - 1])
  {
    if n > 0 {
      OrderedTimes(reqs, n - 1);
    }
  }

  /** A trace without idle stretches is not changed. */
  lemma {:induction false} BusyTraceUnchanged(reqs: seq<Request>, n: nat)
    requires n <= |reqs| && forall i :: 0 <= i < n ==> Gap(reqs, i) <= MAX_IDLE_TIME
    ensures CappedTime(reqs, n) == if n == 0 then 0 else TimeOf(reqs[n - 1])
  {
    if n > 0 {
      BusyTraceUnchanged(reqs, n - 1);
    }
  }

  /** An idle stretch, however long, is cut to just the longest idle time. */
  lemma IdleStretchIsCut(reqs: seq<Request>, n: nat)
    requires n < |reqs| && Gap(reqs, n) >= 10
    ensures CappedTime(reqs, n + 1) == CappedTime(reqs, n) + 10
  {
  }

  /** Four requests: after a busy start an idle stretch is cut, and a step back is kept. */
  lemma ExampleTimes(reqs: seq<Request>)
    requires |reqs| == 4 && reqs[0].clockTime == 250 && reqs[1].clockTime == 899
    requires reqs[2].clockTime == 9900 && reqs[3].clockTime == 9500
    ensures CappedTime(reqs, 1) == 2 && CappedTime(reqs, 2) == 8 && CappedTime(reqs, 3) == 18 && CappedTime(reqs, 4) == 14
  {
    assert TimeOf(reqs[0]) == 2 && TimeOf(reqs[1]) == 8 && TimeOf(reqs[2]) == 99 && TimeOf(reqs[3]) == 95;
    assert CappedTime(reqs, 1) == CappedTime(reqs, 0) + 2;
    assert CappedTime(reqs, 2) == CappedTime(reqs, 1) + 6;
    assert CappedTime(reqs, 3) == CappedTime(reqs, 2) + 10;
  }

  // ----- working set --------------------------------------------------------------

  /** The sum of all tracked sizes. */
  ghost function Total(m: map<nat, nat>): nat
    decreases |m.Keys|
  {
    if m == map[] then 0
    else
      var k :| k in m;
      assert (m - {k}).Keys == m.Keys - {k};
      m[k] + Total(m - {k})
  }

  lemma {:induction false} TotalRemove(m: map<nat, nat>, k: nat)
    requires k in m
    ensures Total(m) == m[k] + Total(m - {k})
    decreases |m.Keys|
  {
    var j :| j in m && Total(m) == m[j] + Total(m - {j});
    if j != k {
      assert (m - {j}).Keys == m.Keys - {j} && (m - {k}).Keys == m.Keys - {k};
      TotalRemove(m - {j}, k);
      TotalRemove(m - {k}, j);
      assert (m - {j}) - {k} == (m - {k}) - {j};
    }
  }

  lemma TotalUpdate(m: map<nat, nat>, k: nat, x: nat)
    ensures Total(m[k := x]) == x + Total(m - {k})
    ensures k in m ==> Total(m) == m[k] + Total(m - {k})
    ensures k !in m ==> Total(m - {k}) == Total(m)
  {
    TotalRemove(m[k := x], k);
    assert m[k := x] - {k} == m - {k};
    if k in m {
      TotalRemove(m, k);
    } else {
      assert m - {k} == m;
    }
  }

  function ValueLen(req: Request): nat
  {
    Min(MAX_VALUE_SIZE, req.objSize)
  }

  /** The size last seen of every key. */
  function Sizes(reqs: seq<Request>): map<nat, nat>
  {
    if reqs == [] then map[]
    else var last := reqs[|reqs| - 1]; Sizes(reqs[..|reqs| - 1])[last.objId := ValueLen(last)]
  }

  /** Request i is the last one for a key. */
  predicate IsLastFor(reqs: seq<Request>, key: nat, i: int)
  {
    0 <= i < |reqs| && reqs[i].objId == key && forall j :: i < j < |reqs| ==> reqs[j].objId != key
  }

  /** Every key is tracked with the size of its last request, cut at the largest value size. */
  lemma {:induction false} SizesAreLastSeen(reqs: seq<Request>, key: nat, i: nat)
    requires IsLastFor(reqs, key, i)
    ensures key in Sizes(reqs) && Sizes(reqs)[key] == if reqs[i].objSize <= 536870912 then reqs[i].objSize else 536870912
  {
    var n := |reqs| - 1;
    if i < n {
      SizesAreLastSeen(reqs[..n], key, i);
    }
  }

  /** Nothing else is tracked. */
  lemma {:induction false} OnlySeenAreTracked(reqs: seq<Request>, key: nat) returns (i: nat)
    requires key in Sizes(reqs)
    ensures i < |reqs| && reqs[i].objId == key
  {
    var n := |reqs| - 1;
    if reqs[n].objId == key {
      return n;
    }
    i := OnlySeenAreTracked(reqs[..n], key);
  }

  /** `generate_dbrequest`: the running total is the sum over the distinct keys of the size last
    seen, so shrinking it cannot underflow. */
  method GenerateDbRequest(req: Request, totalValue: nat, tracker: map<nat, nat>) returns (db: DbRequest, total': nat, tracker': map<nat, nat>)
    requires totalValue == Total(tracker)
    ensures tracker' == tracker[req.objId := ValueLen(req)] && total' == Total(tracker')
    ensures db == DbRequest(req.objId, ValueLen(req), TimeOf(req), 1)
    ensures db.valueLen <= MAX_VALUE_SIZE && (req.objSize <= MAX_VALUE_SIZE ==> db.valueLen == req.objSize)
    ensures db.timestamp == req.clockTime / 100
  {
    var key, valueLen := req.objId, Min(MAX_VALUE_SIZE, req.objSize);
    total', tracker' := totalValue, tracker;
    TotalUpdate(tracker, key, valueLen);
    if key in tracker {
      var size := tracker[key];
      if size != valueLen {
        if size < valueLen {
          total' := total' + (valueLen - size);
        } else {
          assert total' >= size - valueLen;
          total' := total' - (size - valueLen);
        }
        tracker' := tracker[key := valueLen];
      } else {
        assert tracker == tracker[key := valueLen];
      }
    } else {
      tracker' := tracker[key := valueLen];
      total' := total' + valueLen;
    }
    db := DbRequest(key, valueLen, req.clockTime / TIMING_RATIO, Min(MAX_REPEATED_REQ, if req.nReq >= 1 then req.nReq else 1));
  }

  // ----- the loader ---------------------------------------------------------------

  /** Reading goes on after n requests. */
  ghost predicate Continues(reqs: seq<Request>, n: nat)
    requires n <= |reqs|
  {
    n < MAX_REQUEST_NUM && Total(Sizes(reqs[..n])) < MAX_TOTAL_VALUE_SIZE
  }

  /** n requests are read: all valid, none of the limits reached before, and the trace ends,
    turns invalid or reaches a limit there. */
  ghost predicate IsRead(reqs: seq<Request>, n: nat)
  {
    && n <= |reqs|
    && (forall k :: 0 <= k < n ==> reqs[k].valid)
    && (forall k :: 0 < k < n ==> Continues(reqs, k))
    && (n == |reqs| || !reqs[n].valid || (n > 0 && !Continues(reqs, n)))
  }

  predicate IsLoaded(reqs: seq<Request>, n: nat, db: seq<DbRequest>)
    requires n <= |reqs|
  {
    |db| == n && forall i :: 0 <= i < n ==> IsLoadedAt(reqs, i, db[i])
  }

  /** Request i keeps its key and size and gets the compressed time. */
  predicate IsLoadedAt(reqs: seq<Request>, i: nat, db: DbRequest)
    requires i < |reqs|
  {
    CappedTime(reqs, i + 1) >= 0 && db == DbRequest(reqs[i].objId, ValueLen(reqs[i]), CappedTime(reqs, i + 1), 1)
  }

  /** Request n is valid, is reached before any limit, and is the first to lie further back than
    the compressed time so far. */
  ghost predicate IsUnderflow(reqs: seq<Request>, n: nat)
  {
    && n < |reqs|
    && (forall k :: 0 <= k <= n ==> reqs[k].valid)
    && (forall k :: 0 < k <= n ==> Continues(reqs, k))
    && (forall k :: 0 <= k <= n ==> CappedTime(reqs, k) >= 0)
    && CappedTime(reqs, n + 1) < 0
  }

  /** Such a request and a complete load exclude each other. */
  lemma UnderflowOrLoaded(reqs: seq<Request>, n: nat, db: seq<DbRequest>, m: nat)
    requires IsRead(reqs, n) && IsLoaded(reqs, n, db)
    ensures !IsUnderflow(reqs, m)
  {
    hide Total, Sizes, CappedTime;
    if m < n {
      assert IsLoadedAt(reqs, m, db[m]);
    }
  }

  /** `parse_cachesim_requests`, built with overflow checks.  None stands for the panic on an
    unsigned subtraction that underflows, which happens exactly when there is such a request. */
  method Parse(reqs: seq<Request>) returns (db: Option<seq<DbRequest>>, n: nat)
    requires forall i :: 0 <= i < |reqs| ==> reqs[i].clockTime < TWO_64
    ensures n <= |reqs|
    ensures db.Some? ==> IsRead(reqs, n) && IsLoaded(reqs, n, db.value)
    ensures db.None? ==> IsUnderflow(reqs, n)
    ensures db.None? <==> exists m: nat :: IsUnderflow(reqs, m)
  {
    hide Total, Sizes, CappedTime, IsLoaded, TimeOf, IsClock;
    n := 0;
    var out: seq<DbRequest> := [];
    var lastTime, offset, total := 0, 0, 0;
    var tracker: map<nat, nat> := map[];
    NothingLoaded(reqs);
    while n < |reqs|
      invariant n <= |reqs| && IsLoaded(reqs, n, out) && IsClock(reqs, n, lastTime, offset)
      invariant forall i :: 0 <= i <= n ==> CappedTime(reqs, i) >= 0
      invariant tracker == Sizes(reqs[..n]) && total == Total(tracker)
      invariant forall k :: 0 <= k < n ==> reqs[k].valid
      invariant forall k :: 0 < k <= n ==> Continues(reqs, k)
    {
      if !reqs[n].valid {
        break;
      }
      var req;
      req, total, tracker := GenerateDbRequest(reqs[n], total, tracker);
      SizesStep(reqs, n);
      var time := req.timestamp;
      ClockStep(reqs, n, lastTime, offset);
      if time < offset {
        return None, n;
      }
      assert lastTime + MAX_IDLE_TIME < TWO_64;
      if time - offset > lastTime + MAX_IDLE_TIME {
        offset := time - lastTime - MAX_IDLE_TIME;
      }
      lastTime := time - offset;
      LoadedStep(reqs, n, out, lastTime);
      out := out + [req.(timestamp := lastTime)];
      n := n + 1;
      if n >= MAX_REQUEST_NUM || total >= MAX_TOTAL_VALUE_SIZE {
        break;
      }
    }
    db := Some(out);
    forall m: nat ensures !IsUnderflow(reqs, m) {
      UnderflowOrLoaded(reqs, n, out, m);
    }
  }

  /** The last output time and the offset after n requests. */
  predicate IsClock(reqs: seq<Request>, n: nat, lastTime: int, offset: int)
    requires n <= |reqs|
  {
    0 <= lastTime == CappedTime(reqs, n) && 0 <= offset && lastTime + offset == if n == 0 then 0 else TimeOf(reqs[n - 1])
  }

  lemma NothingLoaded(reqs: seq<Request>)
    ensures IsLoaded(reqs, 0, []) && IsClock(reqs, 0, 0, 0) && CappedTime(reqs, 0) == 0
    ensures Sizes(reqs[..0]) == map[] && Total(map[]) == 0
  {
  }

  /** The two clocks move on as the sum of capped gaps does. */
  lemma ClockStep(reqs: seq<Request>, n: nat, lastTime: int, offset: int)
    requires n < |reqs| && IsClock(reqs, n, lastTime, offset) && forall i :: 0 <= i < |reqs| ==> reqs[i].clockTime < TWO_64
    ensures TimeOf(reqs[n]) < offset <==> CappedTime(reqs, n + 1) < 0
    ensures var time := TimeOf(reqs[n]);
            var offset' := if time - offset > lastTime + MAX_IDLE_TIME then time - lastTime - MAX_IDLE_TIME else offset;
            time >= offset ==> IsClock(reqs, n + 1, time - offset', offset')
    ensures lastTime + MAX_IDLE_TIME < TWO_64 && 0 <= offset
    ensures TimeOf(reqs[n]) >= offset ==>
              CappedTime(reqs, n + 1) == Min(TimeOf(reqs[n]) - offset, lastTime + MAX_IDLE_TIME)
  {
  }

  lemma LoadedStep(reqs: seq<Request>, n: nat, out: seq<DbRequest>, time: int)
    requires n < |reqs| && IsLoaded(reqs, n, out) && time >= 0 && CappedTime(reqs, n + 1) == time
    ensures IsLoaded(reqs, n + 1, out + [DbRequest(reqs[n].objId, ValueLen(reqs[n]), time, 1)])
  {
  }

  lemma SizesStep(reqs: seq<Request>, n: nat)
    requires n < |reqs|
    ensures Sizes(reqs[..n + 1]) == Sizes(reqs[..n])[reqs[n].objId := ValueLen(reqs[n])]
  {
    assert reqs[..n + 1][..n] == reqs[..n];
  }

  /** So an ordered trace is always loaded. */
  lemma OrderedTraceLoads(reqs: seq<Request>)
    requires Ordered(reqs)
    ensures !exists n: nat :: IsUnderflow(reqs, n)
  {
    forall n: nat ensures !IsUnderflow(reqs, n) {
      if n < |reqs| {
        OrderedTimes(reqs, n + 1);
      }
    }
  }

  /** A trace that jumps back further than its compressed time is not. */
  lemma BackwardTraceUnderflows()
    ensures IsUnderflow([Request(true, 0, 1, 10000, 1), Request(true, 0, 1, 0, 1)], 1)
  {
    var reqs := [Request(true, 0, 1, 10000, 1), Request(true, 0, 1, 0, 1)];
    assert CappedTime(reqs, 1) == 10 && Gap(reqs, 1) == -100;
    assert reqs[..1] == [reqs[0]] && [reqs[0]][..0] == [];
    TotalUpdate(map[], 0, 1);
    assert Continues(reqs, 1);
  }

  // ----- without overflow checks --------------------------------------------------

  /** 64-bit unsigned subtraction that wraps. */
  function Sub64(a: nat, b: nat): (r: nat)
    requires a < TWO_64 && b < TWO_64
    ensures r < TWO_64 && (r + b) % TWO_64 == a
  {
    if a >= b then a - b else a - b + TWO_64
  }

  /** Output times when subtractions wrap: a step back beyond zero counts as the longest idle
    time. */
  function WrappedTime(reqs: seq<Request>, n: nat): (t: nat)
    requires n <= |reqs|
    ensures t <= n * MAX_IDLE_TIME
  {
    if n == 0 then 0
    else
      var last := WrappedTime(reqs, n - 1);
      var t := last + Gap(reqs, n - 1);
      if 0 <= t <= last + MAX_IDLE_TIME then t else last + MAX_IDLE_TIME
  }

  /** Up to the first underflow both builds give the same times, and there the wrapping one goes
    on by the longest idle time. */
  lemma {:induction false} WrappedAgrees(reqs: seq<Request>, n: nat)
    requires n <= |reqs| && forall k :: 0 <= k <= n ==> CappedTime(reqs, k) >= 0
    ensures WrappedTime(reqs, n) == CappedTime(reqs, n)
    ensures n < |reqs| && CappedTime(reqs, n + 1) < 0 ==> WrappedTime(reqs, n + 1) == CappedTime(reqs, n) + MAX_IDLE_TIME
  {
    if n > 0 {
      WrappedAgrees(reqs, n - 1);
      assert CappedTime(reqs, n) >= 0;
    }
  }

  predicate IsLoadedWrapped(reqs: seq<Request>, n: nat, db: seq<DbRequest>)
    requires n <= |reqs|
  {
    |db| == n && forall i :: 0 <= i < n ==> db[i] == DbRequest(reqs[i].objId, ValueLen(reqs[i]), WrappedTime(reqs, i + 1), 1)
  }

  /** The last output time and the offset, which may have wrapped. */
  predicate IsWrappedClock(reqs: seq<Request>, n: nat, lastTime: nat, offset: nat)
    requires n <= |reqs| && (n > 0 ==> TimeOf(reqs[n - 1]) < TWO_64)
  {
    var time := if n == 0 then 0 else TimeOf(reqs[n - 1]);
    lastTime == WrappedTime(reqs, n) < TWO_64 && offset < TWO_64 && offset == Sub64(time, lastTime)
  }

  lemma WrappedClockStep(reqs: seq<Request>, n: nat, lastTime: nat, offset: nat)
    requires n < |reqs| && n < MAX_REQUEST_NUM && forall i :: 0 <= i < |reqs| ==> reqs[i].clockTime < TWO_64
    requires IsWrappedClock(reqs, n, lastTime, offset)
    ensures var time := TimeOf(reqs[n]);
            && lastTime + MAX_IDLE_TIME < TWO_64 && time < TWO_64
            && var offset' := if Sub64(time, offset) > lastTime + MAX_IDLE_TIME then Sub64(Sub64(time, lastTime), MAX_IDLE_TIME) else offset;
               IsWrappedClock(reqs, n + 1, Sub64(time, offset'), offset')
  {
    assert n * MAX_IDLE_TIME <= MAX_REQUEST_NUM * MAX_IDLE_TIME;
    assert reqs[n].clockTime < TWO_64 && (n > 0 ==> reqs[n - 1].clockTime < TWO_64);
  }

  lemma NothingWrapped(reqs: seq<Request>)
    ensures IsLoadedWrapped(reqs, 0, []) && IsWrappedClock(reqs, 0, 0, 0) && Sizes(reqs[..0]) == map[] && Total(map[]) == 0
  {
  }

  lemma LoadedWrappedStep(reqs: seq<Request>, n: nat, out: seq<DbRequest>)
    requires n < |reqs| && IsLoadedWrapped(reqs, n, out)
    ensures IsLoadedWrapped(reqs, n + 1, out + [DbRequest(reqs[n].objId, ValueLen(reqs[n]), WrappedTime(reqs, n + 1), 1)])
  {
  }

  /** The same code built without overflow checks: it always loads the trace. */
  method ParseWrapping(reqs: seq<Request>) returns (db: seq<DbRequest>, n: nat)
    requires forall i :: 0 <= i < |reqs| ==> reqs[i].clockTime < TWO_64
    ensures IsRead(reqs, n) && IsLoadedWrapped(reqs, n, db)
  {
    hide Total, Sizes, WrappedTime, IsLoadedWrapped, ValueLen, Sub64;
    n, db := 0, [];
    var lastTime: nat, offset: nat, total: nat := 0, 0, 0;
    var tracker: map<nat, nat> := map[];
    NothingWrapped(reqs);
    while n < |reqs|
      invariant n <= |reqs| && IsLoadedWrapped(reqs, n, db) && IsWrappedClock(reqs, n, lastTime, offset)
      invariant tracker == Sizes(reqs[..n]) && total == Total(tracker)
      invariant forall k :: 0 <= k < n ==> reqs[k].valid
      invariant forall k :: 0 < k <= n ==> Continues(reqs, k)
    {
      if !reqs[n].valid {
        break;
      }
      var req;
      req, total, tracker := GenerateDbRequest(reqs[n], total, tracker);
      SizesStep(reqs, n);
      assert n > 0 ==> Continues(reqs, n);
      WrappedClockStep(reqs, n, lastTime, offset);
      var time := req.timestamp;
      if Sub64(time, offset) > lastTime + MAX_IDLE_TIME {
        offset := Sub64(Sub64(time, lastTime), MAX_IDLE_TIME);
      }
      lastTime := Sub64(time, offset);
      LoadedWrappedStep(reqs, n, db);
      db := db + [req.(timestamp := lastTime)];
      n := n + 1;
      if n >= MAX_REQUEST_NUM || total >= MAX_TOTAL_VALUE_SIZE {
        break;
      }
    }
  }
}
