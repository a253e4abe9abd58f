/** Two runs that show the safety theorems are about windows the driver really opens. */
module BlockDriverRuns {
  import opened BlockDriver

  lemma Next(s: State, st: Step) returns (s': State)
    requires Reachable(s) && Enabled(s, st)
    ensures s' == Apply(s, st) && Reachable(s')
  {
    s' := Apply(s, st);
    var s0, steps :| Init(s0) && Runs(s0, steps, s);
    var more := steps + [st];
    assert more[..|more| - 1] == steps;
    assert Runs(s0, more, s');
  }

  function Start(queueSize: nat): State
  {
    State(queueSize, {}, map[], {}, [], [], map[], 0, RwIdle, AwIdle, {}, [], {}, {}, [])
  }

  /** Request 7 with one segment, its entry at address 100. */
  function OneEntry(posted: nat): Entry
  {
    Entry(7, FreshOps(1), 1, 0, 1, posted)
  }

  lemma Submitted(queueSize: nat) returns (s: State)
    ensures Reachable(s)
    ensures s == Start(queueSize).(outstanding := {7}, heap := map[100 := OneEntry(0)], table := [100], fifo := [100], submitted := [1])
  {
    s := Start(queueSize);
    assert Runs(s, [], s);
    s := Next(s, Alloc(7, 100, 1));
    s := Next(s, Publish(100));
  }

  lemma Served(queueSize: nat) returns (s: State)
    requires queueSize >= 1
    ensures Reachable(s)
    ensures s == Start(queueSize).(outstanding := {7}, heap := map[100 := OneEntry(0)], table := [100], submitted := [1],
                                   rw := RwPost(100, 1, 0))
  {
    hide Reachable;
    s := Submitted(queueSize);
    s := Next(s, Fetch);
    s := Next(s, ReadPending);
    s := Next(s, CheckRoom);
    s := Next(s, LoadOp);
  }

  lemma Completed(queueSize: nat) returns (s: State)
    requires queueSize >= 1
    ensures Reachable(s)
    ensures s == Start(queueSize).(outstanding := {7}, heap := map[100 := OneEntry(1)], table := [100], submitted := [1],
                                   rw := RwCount(100, 1, 0), wrs := map[500 := Wr(100, 0, 0, DoneOk)], completed := {(0, 0)})
  {
    hide Reachable;
    s := Served(queueSize);
    s := Next(s, PostOk(500));
    s := Next(s, Complete(500, true));
  }

  /** The RNIC's completion is polled and taken off the counter while the request worker has
    not counted its post yet. */
  lemma PolledBeforeCounted(queueSize: nat) returns (s: State)
    requires queueSize >= 1
    ensures Reachable(s)
    ensures s == Start(queueSize).(outstanding := {7}, heap := map[100 := OneEntry(1)], table := [100], submitted := [1],
                                   rw := RwCount(100, 1, 0), wrs := map[500 := Wr(100, 0, 0, Held)], aw := AwLookup(500),
                                   pendingRdma := -1, completed := {(0, 0)})
  {
    hide Reachable;
    s := Completed(queueSize);
    s := Next(s, PollOk(500));
    s := Next(s, CountPoll);
  }

  /** The in-flight counter, incremented only after the post, can be read as -1. */
  lemma CounterCanBeNegative()
    ensures exists s :: Reachable(s) && s.pendingRdma == -1
  {
    var s := PolledBeforeCounted(16);
  }

  lemma Acknowledged(queueSize: nat) returns (s: State)
    requires queueSize >= 1
    ensures Reachable(s)
    ensures s == Start(queueSize).(outstanding := {7}, heap := map[100 := OneEntry(1).(ops := FreshOps(1)[0 := Acked])], table := [100],
                                   submitted := [1], rw := RwCount(100, 1, 0), aw := AwAcked(100), pendingRdma := -1,
                                   completed := {(0, 0)})
  {
    hide Reachable;
    s := PolledBeforeCounted(queueSize);
    s := Next(s, Lookup);
    s := Next(s, SetStatus);
    assert s.wrs == map[];
  }

  lemma Ended(queueSize: nat) returns (s: State)
    requires queueSize >= 1
    ensures Reachable(s)
    ensures s == Start(queueSize).(heap := map[100 := OneEntry(1).(ops := FreshOps(1)[0 := Acked], numPending := 0)], table := [100],
                                   submitted := [1], rw := RwCount(100, 1, 0), aw := AwDel(100), pendingRdma := -1,
                                   completed := {(0, 0)}, ended := [0])
  {
    hide Reachable;
    s := Acknowledged(queueSize);
    s := Next(s, DropPending);
    s := Next(s, EndRequest);
  }

  /** Because a request is ended before its entry leaves the table, its tag can be submitted
    again while the old entry is still linked: the table then holds two entries for one
    request, and a lookup made in that window would return the newer one. */
  lemma TagCanBeInTableTwice()
    ensures exists s, stale: Ptr, newer: Ptr :: Reachable(s) && stale != newer && s.table == [newer, stale] && s.aw == AwDel(stale)
              && stale in s.heap && newer in s.heap && s.heap[stale].rq == s.heap[newer].rq
              && FirstMatch(s.heap, s.table, s.heap[stale].rq) == Found(newer)
  {
    hide Reachable;
    var s := Ended(16);
    s := Next(s, Alloc(7, 101, 1));
    s := Next(s, Publish(101));
    assert FirstMatch(s.heap, s.table, 7) == Found(101);
  }
}
