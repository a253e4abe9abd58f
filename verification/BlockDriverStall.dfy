/** When the driver can still post a segment: a failed completion keeps its place on the queue
  for good, and a request with a failed or refused segment keeps its tag for good. */
module BlockDriverStall {
  import opened BlockDriver
  import opened BlockDriverRuns
  import opened BlockDriverSafety

  // ----- what never comes back ----------------------------------------------------

  /** Completed in error, polled or not.  The counter is never lowered for it. */
  predicate IsFailed(w: Wr)
  {
    w.stage == DoneFailed || w.stage == Leaked
  }

  function Failed(wrs: map<WrId, Wr>): set<WrId>
  {
    set id | id in wrs && IsFailed(wrs[id])
  }

  /** Failed completions take up the whole queue. */
  predicate Stalled(s: State)
  {
    |Failed(s.wrs)| >= s.queueSize
  }

  /** A segment the worker has got past, that is pending and that no live work request can
    acknowledge any more. */
  predicate Abandoned(heap: map<Ptr, Entry>, wrs: map<WrId, Wr>, p: Ptr, i: nat)
  {
    && p in heap && i < heap[p].posted && i < |heap[p].ops| && heap[p].ops[i] == Started
    && forall id :: id in wrs && wrs[id].entry == p && wrs[id].op == i ==> IsFailed(wrs[id])
  }

  predicate HoldsTag(heap: map<Ptr, Entry>, wrs: map<WrId, Wr>, rq: Tag, p: Ptr, i: nat)
  {
    Abandoned(heap, wrs, p, i) && heap[p].rq == rq
  }

  /** The request of this tag has such a segment, so it is never ended. */
  ghost predicate Stuck(s: State, rq: Tag)
  {
    exists p, i: nat :: HoldsTag(s.heap, s.wrs, rq, p, i)
  }

  predicate Unposted(heap: map<Ptr, Entry>, p: Ptr)
  {
    p in heap && heap[p].posted < heap[p].segs
  }

  ghost predicate HasUnposted(s: State)
  {
    exists p :: Unposted(s.heap, p)
  }

  ghost predicate HasFreeTag(s: State)
  {
    exists rq: Tag :: rq < QUEUE_DEPTH && !Stuck(s, rq)
  }

  /** A segment is left to post, or a tag is or will be free for a new request. */
  ghost predicate Postable(s: State)
  {
    HasUnposted(s) || HasFreeTag(s)
  }

  // ----- facts of the invariant ---------------------------------------------------

  lemma Matched(s: State)
    requires R(s) && s.aw.AwMatched?
    ensures s.aw.id in s.wrs && s.wrs[s.aw.id].entry == s.aw.e && s.wrs[s.aw.id].stage == Held
    ensures s.aw.e in s.heap && s.wrs[s.aw.id].op < |s.heap[s.aw.e].ops| && s.heap[s.aw.e].ops[s.wrs[s.aw.id].op] == Started
  {
    hide Entries, SegmentsKept, Undrained;
  }

  lemma Finished(s: State)
    requires R(s) && (s.aw.AwEnd? || s.aw.AwDel?)
    ensures s.aw.e in s.heap && forall i: nat :: i < |s.heap[s.aw.e].ops| ==> s.heap[s.aw.e].ops[i] != Started
    ensures s.heap[s.aw.e].posted == s.heap[s.aw.e].segs
  {
    hide Requests, SegmentsKept, Undrained;
    var e := s.heap[s.aw.e];
    assert EntryOk(e, false, s.completed);
    NoneStarted(e.ops);
    assert e.ops[e.segs - 1] == Acked;
  }

  lemma FailedBelow(s: State)
    requires R(s)
    ensures |Failed(s.wrs)| <= |s.wrs| - Discounted(s.aw)
  {
    hide Entries, SegmentsKept, Undrained;
    SubsetCardinality(Failed(s.wrs), s.wrs.Keys - Holding(s.aw));
  }

  // ----- a full queue stays full --------------------------------------------------

  lemma FailedStays(s: State, st: Step, id: WrId)
    requires R(s) && Enabled(s, st) && id in s.wrs && IsFailed(s.wrs[id])
    ensures id in Apply(s, st).wrs && IsFailed(Apply(s, st).wrs[id]) && Apply(s, st).queueSize == s.queueSize
  {
    hide R, FirstMatch, Unlink, Passed, FreshOps;
    if st.SetStatus? {
      Matched(s);
    }
  }

  lemma StalledStays(s: State, st: Step)
    requires R(s) && Enabled(s, st) && Stalled(s)
    ensures Stalled(Apply(s, st))
  {
    hide R, Apply, IsFailed;
    forall id | id in Failed(s.wrs) ensures id in Failed(Apply(s, st).wrs) {
      FailedStays(s, st, id);
    }
    if Failed(s.wrs) != {} {
      var id :| id in Failed(s.wrs);
      FailedStays(s, st, id);
    } else {
      SizeStays(s, st);
    }
    SubsetCardinality(Failed(s.wrs), Failed(Apply(s, st).wrs));
  }

  lemma SizeStays(s: State, st: Step)
    requires Enabled(s, st)
    ensures Apply(s, st).queueSize == s.queueSize
  {
    hide FirstMatch, Unlink, Passed, FreshOps;
  }

  lemma StalledCannotPost(s: State)
    requires R(s) && C(s) && Stalled(s)
    ensures !s.rw.RwRoom? && !s.rw.RwPost?
  {
    hide R;
    FailedBelow(s);
  }

  // ----- an abandoned segment stays abandoned -------------------------------------

  predicate IsAck(st: Step)
  {
    st.SetStatus? || st.DropPending? || st.EndRequest? || st.Delete?
  }

  lemma AbandonedAck(s: State, st: Step, p: Ptr, i: nat)
    requires R(s) && Enabled(s, st) && IsAck(st) && Abandoned(s.heap, s.wrs, p, i)
    ensures Abandoned(Apply(s, st).heap, Apply(s, st).wrs, p, i) && Apply(s, st).heap[p].rq == s.heap[p].rq
  {
    hide R, Unlink;
    if st.SetStatus? {
      Matched(s);
    } else if st.Delete? {
      Finished(s);
    }
  }

  lemma AbandonedOther(s: State, st: Step, p: Ptr, i: nat)
    requires T(s) && L(s) && R(s) && Enabled(s, st) && !IsAck(st) && Abandoned(s.heap, s.wrs, p, i)
    ensures Abandoned(Apply(s, st).heap, Apply(s, st).wrs, p, i) && Apply(s, st).heap[p].rq == s.heap[p].rq
  {
    hide T, L, R, FirstMatch, FreshOps;
    if st.PostOk? {
      PostTarget(s);
    } else if st.Publish? {
      FifoHasRoom(s);
    }
  }

  lemma AbandonedStays(s: State, st: Step, p: Ptr, i: nat)
    requires T(s) && L(s) && R(s) && Enabled(s, st) && Abandoned(s.heap, s.wrs, p, i)
    ensures Abandoned(Apply(s, st).heap, Apply(s, st).wrs, p, i) && Apply(s, st).heap[p].rq == s.heap[p].rq
  {
    hide T, L, R, Apply, IsAck;
    if IsAck(st) {
      AbandonedAck(s, st, p, i);
    } else {
      AbandonedOther(s, st, p, i);
    }
  }

  lemma StuckStays(s: State, st: Step, rq: Tag)
    requires T(s) && L(s) && R(s) && Enabled(s, st) && Stuck(s, rq)
    ensures Stuck(Apply(s, st), rq)
  {
    hide T, L, R, Apply, Abandoned;
    var p, i: nat :| HoldsTag(s.heap, s.wrs, rq, p, i);
    AbandonedStays(s, st, p, i);
    assert HoldsTag(Apply(s, st).heap, Apply(s, st).wrs, rq, p, i);
  }

  /** The entry of a stuck tag is not one that is being deleted, so the tag is in use. */
  lemma StuckIsOutstanding(s: State, rq: Tag)
    requires L(s) && R(s) && Stuck(s, rq)
    ensures rq in s.outstanding
  {
    var p, i: nat :| HoldsTag(s.heap, s.wrs, rq, p, i);
    hide R, Ledger, RequestsKept, Settled;
    if s.aw.AwDel? {
      Finished(s);
    }
  }

  /** Segments are posted once and only new requests bring more. */
  lemma UnpostedWas(s: State, st: Step, p: Ptr)
    requires T(s) && L(s) && R(s) && Enabled(s, st) && !st.Alloc? && Unposted(Apply(s, st).heap, p)
    ensures Unposted(s.heap, p)
  {
    hide T, L, R, FirstMatch, Unlink, FreshOps;
    if st.Publish? {
      FifoHasRoom(s);
    }
  }

  lemma UnpostableStays(s: State, st: Step)
    requires T(s) && L(s) && R(s) && Enabled(s, st) && !Postable(s)
    ensures !Postable(Apply(s, st))
  {
    hide T, L, R, Apply, Unposted, Stuck;
    if st.Alloc? {
      assert Stuck(s, st.rq);
      StuckIsOutstanding(s, st.rq);
      assert false;
    }
    if HasUnposted(Apply(s, st)) {
      var p :| Unposted(Apply(s, st).heap, p);
      UnpostedWas(s, st, p);
    }
    forall rq: Tag | rq < QUEUE_DEPTH ensures Stuck(Apply(s, st), rq) {
      assert Stuck(s, rq);
      StuckStays(s, st, rq);
    }
  }

  lemma UnpostableCannotPost(s: State)
    requires T(s) && !HasUnposted(s)
    ensures !s.rw.RwRoom? && !s.rw.RwPost?
  {
    assert s.rw.RwRoom? || s.rw.RwPost? ==> Unposted(s.heap, s.rw.e);
  }

  /** No step of any later run posts. */
  ghost predicate NeverPosts(s: State)
  {
    forall steps, s' :: Runs(s, steps, s') ==> !s'.rw.RwPost?
  }

  lemma {:induction false} StillBlocked(s: State, steps: seq<Step>, s': State)
    requires Inv(s) && (Stalled(s) || !Postable(s)) && Runs(s, steps, s')
    ensures Inv(s') && (Stalled(s) ==> Stalled(s')) && (!Postable(s) ==> !Postable(s'))
    decreases |steps|
  {
    hide T, L, R, C, Apply, Stalled, Postable;
    if steps != [] {
      var n := |steps| - 1;
      var mid :| Runs(s, steps[..n], mid) && Enabled(mid, steps[n]) && s' == Apply(mid, steps[n]);
      StillBlocked(s, steps[..n], mid);
      StepKeepsInv(mid, steps[n]);
      if Stalled(s) {
        StalledStays(mid, steps[n]);
      }
      if !Postable(s) {
        UnpostableStays(mid, steps[n]);
      }
    }
  }

  lemma BlockedNeverPosts(s: State)
    requires Inv(s) && (Stalled(s) || !Postable(s))
    ensures NeverPosts(s)
  {
    hide T, L, R, C, Stalled, HasUnposted, HasFreeTag, Runs;
    forall steps, s' | Runs(s, steps, s') ensures !s'.rw.RwPost? {
      StillBlocked(s, steps, s');
      if Stalled(s) {
        StalledCannotPost(s');
      } else {
        UnpostableCannotPost(s');
      }
    }
  }

  // ----- draining -----------------------------------------------------------------

  ghost predicate CanReach(s: State, s': State)
  {
    exists steps :: Runs(s, steps, s')
  }

  lemma RunsThen(s: State, steps: seq<Step>, mid: State, st: Step)
    requires Runs(s, steps, mid) && Enabled(mid, st)
    ensures Runs(s, steps + [st], Apply(mid, st))
  {
    hide Enabled, Apply;
    var all := steps + [st];
    assert all[..|all| - 1] == steps && all[|all| - 1] == st;
    assert Runs(s, all[..|all| - 1], mid) && Enabled(mid, all[|all| - 1]);
  }

  lemma {:induction false} RunsJoin(s: State, a: seq<Step>, mid: State, b: seq<Step>, s': State)
    requires Runs(s, a, mid) && Runs(mid, b, s')
    ensures Runs(s, a + b, s')
    decreases |b|
  {
    hide Enabled, Apply;
    if b == [] {
      assert a + b == a;
    } else {
      var n := |b| - 1;
      var last :| Runs(mid, b[..n], last) && Enabled(last, b[n]) && s' == Apply(last, b[n]);
      RunsJoin(s, a, mid, b[..n], last);
      RunsThen(s, a + b[..n], last, b[n]);
      assert a + b == a + b[..n] + [b[n]];
    }
  }

  lemma ReachHere(s: State)
    ensures CanReach(s, s)
  {
    assert Runs(s, [], s);
  }

  lemma ReachTwice(s: State, mid: State, s': State)
    requires CanReach(s, mid) && CanReach(mid, s')
    ensures CanReach(s, s')
  {
    hide Runs;
    var a :| Runs(s, a, mid);
    var b :| Runs(mid, b, s');
    RunsJoin(s, a, mid, b, s');
  }

  lemma ReachAfter(s: State, st: Step, s': State)
    requires Enabled(s, st) && CanReach(Apply(s, st), s')
    ensures CanReach(s, s')
  {
    hide Enabled, Apply;
    assert Runs(s, [], s);
    hide Runs;
    RunsThen(s, [], s, st);
    ReachTwice(s, Apply(s, st), s');
  }

  function In(wrs: map<WrId, Wr>, stage: Stage): set<WrId>
  {
    set id | id in wrs && wrs[id].stage == stage
  }

  function Rank(aw: AckWorker): nat
  {
    match aw
    case AwIdle => 0
    case AwPolled(_) => 6
    case AwLookup(_) => 5
    case AwMatched(_, _) => 4
    case AwAcked(_) => 3
    case AwEnd(_) => 2
    case AwDel(_) => 1
  }

  /** What is left to do until everything that can be acknowledged is. */
  function ToDo(s: State): nat
  {
    8 * |In(s.wrs, Posted)| + 7 * |In(s.wrs, DoneOk)| + Rank(s.aw) + if s.rw.RwCount? then 1 else 0
  }

  predicate Drained(s: State)
  {
    s.aw.AwIdle? && !s.rw.RwCount? && forall id :: id in s.wrs ==> IsFailed(s.wrs[id])
  }

  /** The steps that bring this about, if the RNIC reports no further error. */
  predicate Drains(st: Step)
  {
    st.CountPost? || (st.Complete? && st.ok) || st.PollOk? || st.CountPoll? || st.Lookup? || st.SetStatus? || st.DropPending?
    || st.EndRequest? || st.Delete?
  }

  /** Nothing gets worse: the same failures, nothing unposted lost, no tag newly stuck. */
  ghost predicate NoWorse(s: State, s': State)
  {
    && s'.queueSize == s.queueSize && Failed(s'.wrs) == Failed(s.wrs)
    && (HasUnposted(s) ==> HasUnposted(s'))
    && forall rq: Tag :: Stuck(s', rq) ==> Stuck(s, rq)
  }

  lemma DrainKeepsFailed(s: State, st: Step)
    requires R(s) && Enabled(s, st) && Drains(st)
    ensures Failed(Apply(s, st).wrs) == Failed(s.wrs)
  {
    hide R, FirstMatch, Unlink, FreshOps;
    if st.SetStatus? {
      Matched(s);
    }
  }

  lemma DrainKeepsUnposted(s: State, st: Step, p: Ptr)
    requires R(s) && Enabled(s, st) && Drains(st) && Unposted(s.heap, p)
    ensures Unposted(Apply(s, st).heap, p)
  {
    hide R, FirstMatch, Unlink, FreshOps;
    if st.Delete? {
      Finished(s);
    }
  }

  lemma AckAbandonsNothing(s: State, st: Step, p: Ptr, i: nat)
    requires R(s) && Enabled(s, st) && IsAck(st) && Abandoned(Apply(s, st).heap, Apply(s, st).wrs, p, i)
    ensures Abandoned(s.heap, s.wrs, p, i) && Apply(s, st).heap[p].rq == s.heap[p].rq
  {
    hide R, Unlink;
    var wrs' := Apply(s, st).wrs;
    if st.SetStatus? {
      Matched(s);
    }
    forall id | id in s.wrs && s.wrs[id].entry == p && s.wrs[id].op == i ensures IsFailed(s.wrs[id]) {
      assert id in wrs' ==> wrs'[id].entry == p && wrs'[id].op == i;
    }
  }

  lemma PollAbandonsNothing(s: State, st: Step, p: Ptr, i: nat)
    requires Enabled(s, st) && Drains(st) && !IsAck(st) && Abandoned(Apply(s, st).heap, Apply(s, st).wrs, p, i)
    ensures Abandoned(s.heap, s.wrs, p, i) && Apply(s, st).heap[p].rq == s.heap[p].rq
  {
    hide FirstMatch;
    var wrs' := Apply(s, st).wrs;
    forall id | id in s.wrs && s.wrs[id].entry == p && s.wrs[id].op == i ensures IsFailed(s.wrs[id]) {
      assert id in wrs' && wrs'[id].entry == p && wrs'[id].op == i;
    }
  }

  lemma DrainIsNoWorse(s: State, st: Step)
    requires R(s) && Enabled(s, st) && Drains(st)
    ensures NoWorse(s, Apply(s, st))
  {
    hide R, Apply, Drains, Unposted, Abandoned, IsAck;
    SizeStays(s, st);
    DrainKeepsFailed(s, st);
    if HasUnposted(s) {
      var p :| Unposted(s.heap, p);
      DrainKeepsUnposted(s, st, p);
    }
    forall rq: Tag | Stuck(Apply(s, st), rq) ensures Stuck(s, rq) {
      var p, i: nat :| HoldsTag(Apply(s, st).heap, Apply(s, st).wrs, rq, p, i);
      if IsAck(st) {
        AckAbandonsNothing(s, st, p, i);
      } else {
        PollAbandonsNothing(s, st, p, i);
      }
      assert HoldsTag(s.heap, s.wrs, rq, p, i);
    }
  }

  lemma HoldsLive(s: State)
    requires R(s) && (s.aw.AwLookup? || s.aw.AwMatched?)
    ensures s.aw.id in s.wrs
  {
  }

  lemma IdleHoldsNone(s: State, id: WrId)
    requires R(s) && s.aw.AwIdle? && id in s.wrs
    ensures s.wrs[id].stage != Held
  {
    hide Entries, SegmentsKept, Undrained;
  }

  /** The next such step. */
  lemma NextDrain(s: State) returns (st: Step)
    requires R(s) && !Drained(s)
    ensures Enabled(s, st) && Drains(st)
    ensures (st.CountPost? <==> s.rw.RwCount?) && (st.Complete? || st.PollOk? ==> s.aw.AwIdle?)
  {
    hide R;
    if s.aw.AwLookup? || s.aw.AwMatched? {
      HoldsLive(s);
    }
    if s.rw.RwCount? {
      st := CountPost;
    } else {
      match s.aw
      case AwPolled(_) => st := CountPoll;
      case AwLookup(_) => st := Lookup;
      case AwMatched(_, _) => st := SetStatus;
      case AwAcked(_) => st := DropPending;
      case AwEnd(_) => st := EndRequest;
      case AwDel(_) => st := Delete;
      case AwIdle =>
        var id :| id in s.wrs && !IsFailed(s.wrs[id]);
        IdleHoldsNone(s, id);
        st := if s.wrs[id].stage == Posted then Complete(id, true) else PollOk(id);
    }
  }

  lemma StageMoves(wrs: map<WrId, Wr>, id: WrId, stage: Stage)
    requires id in wrs && wrs[id].stage != stage
    ensures var wrs' := wrs[id := wrs[id].(stage := stage)];
            forall x: Stage :: |In(wrs', x)| == |In(wrs, x)| + (if x == stage then 1 else 0) - if x == wrs[id].stage then 1 else 0
  {
    var wrs' := wrs[id := wrs[id].(stage := stage)];
    forall x: Stage
      ensures |In(wrs', x)| == |In(wrs, x)| + (if x == stage then 1 else 0) - if x == wrs[id].stage then 1 else 0
    {
      if x == stage {
        assert In(wrs', x) == In(wrs, x) + {id};
      } else if x == wrs[id].stage {
        assert In(wrs', x) == In(wrs, x) - {id};
      } else {
        assert In(wrs', x) == In(wrs, x);
      }
    }
  }

  lemma HeldLeaves(wrs: map<WrId, Wr>, id: WrId)
    requires id in wrs && wrs[id].stage == Held
    ensures In(wrs - {id}, Posted) == In(wrs, Posted) && In(wrs - {id}, DoneOk) == In(wrs, DoneOk)
  {
  }

  lemma DrainShrinks(s: State, st: Step)
    requires T(s) && L(s) && R(s) && Enabled(s, st) && Drains(st)
    requires (st.CountPost? <==> s.rw.RwCount?) && (st.Complete? || st.PollOk? ==> s.aw.AwIdle?)
    ensures ToDo(Apply(s, st)) < ToDo(s)
  {
    hide T, L, R, In, FirstMatch, Unlink, FreshOps;
    if st.Complete? {
      StageMoves(s.wrs, st.id, DoneOk);
    } else if st.PollOk? {
      StageMoves(s.wrs, st.id, Held);
    } else if st.SetStatus? {
      Matched(s);
      HeldLeaves(s.wrs, s.aw.id);
    } else if st.Lookup? {
      LookupAgrees(s);
    }
  }

  lemma NoWorseAfter(s: State, mid: State, s': State)
    requires NoWorse(s, mid) && NoWorse(mid, s')
    ensures NoWorse(s, s')
  {
    hide HasUnposted, Stuck, Failed;
  }

  /** From every state of the invariant everything that can be acknowledged may be. */
  lemma {:induction false} Drain(s: State) returns (s': State)
    requires Inv(s)
    ensures CanReach(s, s') && Inv(s') && Drained(s') && NoWorse(s, s')
    decreases ToDo(s)
  {
    hide Inv, T, L, R, C, Apply, Enabled, ToDo, Drained, NoWorse, CanReach, Drains;
    if Drained(s) {
      ReachHere(s);
      SameIsNoWorse(s);
      return s;
    }
    InvParts(s);
    var st := NextDrain(s);
    StepKeepsInv(s, st);
    DrainShrinks(s, st);
    DrainIsNoWorse(s, st);
    s' := Drain(Apply(s, st));
    NoWorseAfter(s, Apply(s, st), s');
    ReachAfter(s, st, s');
  }

  lemma InvParts(s: State)
    requires Inv(s)
    ensures T(s) && L(s) && R(s) && C(s)
  {
  }

  lemma SameIsNoWorse(s: State)
    ensures NoWorse(s, s)
  {
  }

  // ----- serving ------------------------------------------------------------------

  /** Drained, with room on the queue. */
  predicate Quiet(s: State)
  {
    Inv(s) && Drained(s) && !Stalled(s)
  }

  ghost predicate CanPost(s: State)
  {
    exists s' :: CanReach(s, s') && s'.rw.RwPost?
  }

  lemma CanPostAfter(s: State, st: Step)
    requires Enabled(s, st) && CanPost(Apply(s, st))
    ensures CanPost(s)
  {
    hide Enabled, Apply, CanReach;
    var s' :| CanReach(Apply(s, st), s') && s'.rw.RwPost?;
    ReachAfter(s, st, s');
  }

  /** Steps on the way to a post, the post itself not included. */
  predicate Approaches(st: Step)
  {
    st.Alloc? || st.Publish? || st.Fetch? || st.ReadPending? || st.CheckRoom? || st.LoadOp? || st.FinishServe?
  }

  lemma StaysQuiet(s: State, st: Step)
    requires Quiet(s) && Enabled(s, st) && Approaches(st)
    ensures Quiet(Apply(s, st))
  {
    hide Inv, T, L, R, C, IsFailed;
    InvParts(s);
    StepKeepsInv(s, st);
    FifoHasRoom(s);
    ApproachFrame(s, st);
  }

  lemma ApproachFrame(s: State, st: Step)
    requires Enabled(s, st) && Approaches(st) && |s.fifo| <= QUEUE_DEPTH && !s.rw.RwCount?
    ensures var s' := Apply(s, st); s'.wrs == s.wrs && s'.aw == s.aw && s'.queueSize == s.queueSize && !s'.rw.RwCount?
  {
    hide FreshOps;
  }

  lemma FromRoom(s: State)
    requires Quiet(s) && (s.rw.RwRoom? || s.rw.RwPost?)
    ensures CanPost(s)
  {
    hide Drained, Stalled, CanReach, Linked, Waiting, EntriesServed, L, C, AckWorkerOk, Requests, SegmentsKept, Undrained;
    if s.rw.RwPost? {
      ReachHere(s);
    } else {
      OpIsNotIdle(s.heap, Acking(s.aw), s.completed, s.rw.e, s.rw.idx);
      hide Entries;
      var s' := Apply(s, LoadOp);
      assert s'.rw.RwPost?;
      ReachHere(s');
      assert CanPost(s');
      CanPostAfter(s, LoadOp);
    }
  }

  /** With nothing but failures on the queue the counter is their number. */
  lemma RoomToPost(s: State)
    requires Quiet(s)
    ensures s.pendingRdma < s.queueSize
  {
    hide T, L, R;
    assert Failed(s.wrs) == s.wrs.Keys;
  }

  lemma FromLoop(s: State)
    requires Quiet(s) && s.rw.RwLoop? && s.rw.idx < s.rw.toSend
    ensures CanPost(s)
  {
    hide Quiet, CanPost;
    RoomToPost(s);
    StaysQuiet(s, CheckRoom);
    FromRoom(Apply(s, CheckRoom));
    CanPostAfter(s, CheckRoom);
  }

  lemma FetchedIsPending(s: State)
    requires Quiet(s) && s.rw.RwFetched?
    ensures s.rw.e in s.heap && s.heap[s.rw.e].numPending > 0
  {
    hide L, C, Linked, Waiting, EntriesServed, Entries, Requests, SegmentsKept;
  }

  lemma FromFetched(s: State)
    requires Quiet(s) && s.rw.RwFetched?
    ensures CanPost(s)
  {
    hide Quiet, CanPost;
    FetchedIsPending(s);
    StaysQuiet(s, ReadPending);
    FromLoop(Apply(s, ReadPending));
    CanPostAfter(s, ReadPending);
  }

  lemma FromQueue(s: State)
    requires Quiet(s) && s.rw.RwIdle? && s.fifo != []
    ensures CanPost(s)
  {
    hide Quiet, CanPost;
    StaysQuiet(s, Fetch);
    FromFetched(Apply(s, Fetch));
    CanPostAfter(s, Fetch);
  }

  lemma FromPrivate(s: State, p: Ptr)
    requires Quiet(s) && s.rw.RwIdle? && p in s.private
    ensures CanPost(s)
  {
    hide Inv, Drained, Stalled, CanPost;
    StaysQuiet(s, Publish(p));
    QuietFifo(s);
    hide Quiet;
    FromQueue(Apply(s, Publish(p)));
    CanPostAfter(s, Publish(p));
  }

  lemma QuietFifo(s: State)
    requires Quiet(s)
    ensures |s.fifo| <= QUEUE_DEPTH
  {
    hide T, L, R, C, Drained, Stalled;
    FifoHasRoom(s);
  }

  /** Somebody has the segment: a submitter, the fifo or the worker. */
  lemma UnpostedIsQueued(s: State, p: Ptr)
    requires Quiet(s) && s.rw.RwIdle? && Unposted(s.heap, p)
    ensures p in s.private || p in s.fifo
  {
    hide L, R, C, Linked, Waiting;
  }

  lemma FromIdle(s: State)
    requires Quiet(s) && s.rw.RwIdle? && HasUnposted(s)
    ensures CanPost(s)
  {
    hide Quiet, CanPost, Unposted;
    var p :| Unposted(s.heap, p);
    UnpostedIsQueued(s, p);
    if p in s.private {
      FromPrivate(s, p);
    } else {
      FromQueue(s);
    }
  }

  lemma FromUnposted(s: State)
    requires Quiet(s) && HasUnposted(s)
    ensures CanPost(s)
  {
    hide Inv, CanPost, Stalled, IsFailed, Unposted;
    if s.rw.RwIdle? {
      FromIdle(s);
    } else if s.rw.RwFetched? {
      FromFetched(s);
    } else if s.rw.RwLoop? && s.rw.idx < s.rw.toSend {
      FromLoop(s);
    } else if s.rw.RwLoop? {
      StaysQuiet(s, FinishServe);
      hide Quiet;
      FromIdle(Apply(s, FinishServe));
      CanPostAfter(s, FinishServe);
    } else {
      FromRoom(s);
    }
  }

  lemma {:induction false} Fresh(a: set<nat>) returns (n: nat)
    ensures forall x :: x in a ==> x < n
  {
    if a == {} {
      return 0;
    }
    var x :| x in a;
    var m := Fresh(a - {x});
    n := if x < m then m else x + 1;
    assert a == (a - {x}) + {x};
  }

  /** Once drained, a tag that is not stuck is free. */
  lemma NotStuckIsFree(s: State, rq: Tag)
    requires Quiet(s) && !HasUnposted(s) && !Stuck(s, rq)
    ensures rq !in s.outstanding
  {
    if rq in s.outstanding {
      RepresentedBy(s, rq);
      var p :| p in s.heap && s.heap[p].rq == rq && p !in Deleting(s.aw);
      PendingIsAbandoned(s, p);
    }
  }

  lemma RepresentedBy(s: State, rq: Tag)
    requires Quiet(s) && rq in s.outstanding
    ensures exists p :: p in s.heap && s.heap[p].rq == rq && p !in Deleting(s.aw)
  {
    hide T, R, C, Tags, Ledger, Settled;
    assert Represented(s.heap, Deleting(s.aw), rq);
  }

  lemma PendingIsAbandoned(s: State, p: Ptr)
    requires Quiet(s) && !HasUnposted(s) && p in s.heap
    ensures Stuck(s, s.heap[p].rq)
  {
    hide T, L, C, Requests, SegmentsKept;
    var e := s.heap[p];
    assert EntryOk(e, false, s.completed) && e.numPending > 0;
    NoneStarted(e.ops);
    var i :| 0 <= i < |e.ops| && e.ops[i] == Started;
    assert !Unposted(s.heap, p);
    assert HoldsTag(s.heap, s.wrs, e.rq, p, i);
  }

  lemma FromFreeTag(s: State)
    requires Quiet(s) && !HasUnposted(s) && HasFreeTag(s)
    ensures CanPost(s)
  {
    hide Quiet, CanPost, Stuck, FreshOps;
    var rq: Tag :| rq < QUEUE_DEPTH && !Stuck(s, rq);
    NotStuckIsFree(s, rq);
    var p := Fresh(s.heap.Keys);
    StaysQuiet(s, Alloc(rq, p, 1));
    var s' := Apply(s, Alloc(rq, p, 1));
    assert Unposted(s'.heap, p);
    FromUnposted(s');
    CanPostAfter(s, Alloc(rq, p, 1));
  }

  // ----- the exact condition ------------------------------------------------------

  lemma FreeCanPost(s: State)
    requires Inv(s) && !Stalled(s) && Postable(s)
    ensures CanPost(s)
  {
    hide Inv, Drained, Stuck, HasUnposted, CanReach;
    var d := Drain(s);
    assert Quiet(d);
    hide Quiet;
    if HasUnposted(d) {
      FromUnposted(d);
    } else {
      var rq: Tag :| rq < QUEUE_DEPTH && !Stuck(s, rq);
      assert !Stuck(d, rq);
      FromFreeTag(d);
    }
    var s' :| CanReach(d, s') && s'.rw.RwPost?;
    ReachTwice(s, d, s');
  }

  lemma NeverIsNotCan(s: State)
    ensures NeverPosts(s) <==> !CanPost(s)
  {
    hide Runs;
    if CanPost(s) {
      var s' :| CanReach(s, s') && s'.rw.RwPost?;
      var steps :| Runs(s, steps, s');
      assert !NeverPosts(s);
    }
    if !NeverPosts(s) {
      var steps, s' :| Runs(s, steps, s') && s'.rw.RwPost?;
      assert CanReach(s, s');
    }
  }

  /** From a reachable state some run comes to post a segment if and only if fewer completions
    have failed than the queue holds, and a segment is left or not every tag is stuck. */
  lemma PostsAgainIff(s: State)
    requires Reachable(s)
    ensures CanPost(s) <==> |Failed(s.wrs)| < s.queueSize && Postable(s)
    ensures NeverPosts(s) <==> |Failed(s.wrs)| >= s.queueSize || !Postable(s)
  {
    hide Reachable, Inv, Failed, Postable, CanPost, NeverPosts;
    ReachableInv(s);
    NeverIsNotCan(s);
    if Stalled(s) || !Postable(s) {
      BlockedNeverPosts(s);
    } else {
      FreeCanPost(s);
    }
  }

  // ----- a run that stalls --------------------------------------------------------

  function FailedWrs(k: nat): map<WrId, Wr>
  {
    map id: WrId | 0 <= id < k :: Wr(100, id, 0, DoneFailed)
  }

  /** One request of 256 segments, the first k of which were posted and failed. */
  function AllFailed(queueSize: nat, k: nat): State
  {
    Start(queueSize).(outstanding := {7}, heap := map[100 := Entry(7, FreshOps(OPS_PER_RQ), OPS_PER_RQ, 0, OPS_PER_RQ, k)], table := [100],
                      wrs := FailedWrs(k), pendingRdma := k, rw := RwLoop(100, OPS_PER_RQ, k), submitted := [OPS_PER_RQ])
  }

  lemma FirstLoop(queueSize: nat)
    ensures Reachable(AllFailed(queueSize, 0))
  {
    hide Reachable, FreshOps;
    var s := Start(queueSize);
    StartReachable(queueSize);
    s := Next(s, Alloc(7, 100, OPS_PER_RQ));
    s := Next(s, Publish(100));
    s := Next(s, Fetch);
    s := Next(s, ReadPending);
    assert s == AllFailed(queueSize, 0);
  }

  lemma StartReachable(queueSize: nat)
    ensures Reachable(Start(queueSize))
  {
    assert Runs(Start(queueSize), [], Start(queueSize));
  }

  lemma OneMorePosted(queueSize: nat, k: nat) returns (s: State)
    requires k < queueSize && k < OPS_PER_RQ && Reachable(AllFailed(queueSize, k))
    ensures Reachable(s) && s == AllFailed(queueSize, k + 1).(wrs := FailedWrs(k)[k := Wr(100, k, 0, Posted)])
  {
    hide Reachable;
    s := Next(AllFailed(queueSize, k), CheckRoom);
    s := Next(s, LoadOp);
    s := Next(s, PostOk(k));
    s := Next(s, CountPost);
  }

  lemma {:induction false} FailAgain(queueSize: nat, k: nat)
    requires k <= queueSize && k <= OPS_PER_RQ
    ensures Reachable(AllFailed(queueSize, k))
  {
    hide Reachable, FreshOps;
    if k == 0 {
      FirstLoop(queueSize);
    } else {
      FailAgain(queueSize, k - 1);
      var s := OneMorePosted(queueSize, k - 1);
      s := Next(s, Complete(k - 1, false));
      assert s.wrs == FailedWrs(k);
    }
  }

  lemma {:induction false} CountFailed(k: nat)
    ensures |Failed(FailedWrs(k))| == k
  {
    if k == 0 {
      assert Failed(FailedWrs(k)) == {};
    } else {
      CountFailed(k - 1);
      assert Failed(FailedWrs(k)) == Failed(FailedWrs(k - 1)) + {k - 1};
    }
  }

  /** Whatever the queue size, below the 256 operations of a request, enough failed completions
    stop the driver for good with segments left to post. */
  lemma StallIsReachable(queueSize: nat)
    requires queueSize < OPS_PER_RQ
    ensures exists s :: Reachable(s) && s.queueSize == queueSize && HasUnposted(s) && NeverPosts(s)
  {
    hide Reachable, NeverPosts, FreshOps, Failed, FailedWrs;
    var s := AllFailed(queueSize, queueSize);
    FailAgain(queueSize, queueSize);
    CountFailed(queueSize);
    assert Unposted(s.heap, 100);
    PostsAgainIff(s);
  }
}
