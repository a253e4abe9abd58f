/** In which order the driver serves requests: what its state says, against a journal kept from
  the steps of a run alone. */
module BlockDriverOrder {
  import opened Basics
  import opened BlockDriver
  import opened BlockDriverSafety

  // ----- the journal --------------------------------------------------------------

  /** Which request an address was last allocated for, the segment counts of all requests, the
    requests in the order of their publication, how many were fetched, how many segments of the
    last one were tried, what each work request carries, and what was completed and refused. */
  datatype Journal = Journal(owner: map<Ptr, nat>, segs: seq<nat>, published: seq<nat>, fetches: nat, posts: nat,
                             carried: map<WrId, (nat, nat)>, completed: set<(nat, nat)>, refused: set<(nat, nat)>)

  const BLANK_PAGE := Journal(map[], [], [], 0, 0, map[], {}, {})

  /** The request fetched last. */
  function Current(j: Journal): nat
  {
    if 1 <= j.fetches <= |j.published| then j.published[j.fetches - 1] else 0
  }

  function Note(j: Journal, st: Step): Journal
  {
    match st
    case Alloc(rq, p, segs) => j.(owner := j.owner[p := |j.segs|], segs := j.segs + [segs])
    case Publish(p) => if p in j.owner then j.(published := j.published + [j.owner[p]]) else j
    case Fetch => j.(fetches := j.fetches + 1, posts := 0)
    case PostOk(id) => j.(carried := j.carried[id := (Current(j), j.posts)], posts := j.posts + 1)
    case PostFailed => j.(refused := j.refused + {(Current(j), j.posts)}, posts := j.posts + 1)
    case Complete(id, ok) => if ok && id in j.carried then j.(completed := j.completed + {j.carried[id]}) else j
    case _ => j
  }

  function JournalOf(steps: seq<Step>): Journal
  {
    if steps == [] then BLANK_PAGE else Note(JournalOf(steps[..|steps| - 1]), steps[|steps| - 1])
  }

  // ----- agreement ----------------------------------------------------------------

  predicate Owns(j: Journal, heap: map<Ptr, Entry>)
  {
    forall p :: p in heap ==> p in j.owner && j.owner[p] == heap[p].serial
  }

  /** The fifo holds the published requests that were not fetched, in order. */
  predicate Queues(j: Journal, heap: map<Ptr, Entry>, fifo: seq<Ptr>)
  {
    && j.fetches + |fifo| == |j.published|
    && forall k :: 0 <= k < |fifo| ==> fifo[k] in heap && heap[fifo[k]].serial == j.published[j.fetches + k]
  }

  predicate IsCurrent(j: Journal, heap: map<Ptr, Entry>, e: Ptr, i: nat)
  {
    1 <= j.fetches <= |j.published| && e in heap && heap[e].serial == Current(j) && j.posts == i
  }

  /** The worker serves the request fetched last, segment by segment. */
  predicate Serves(j: Journal, heap: map<Ptr, Entry>, rw: ReqWorker)
  {
    match rw
    case RwIdle => true
    case RwFetched(e) => IsCurrent(j, heap, e, 0)
    case RwLoop(e, n, i) => i < n ==> IsCurrent(j, heap, e, i)
    case RwRoom(e, n, i) => IsCurrent(j, heap, e, i)
    case RwPost(e, n, i) => IsCurrent(j, heap, e, i)
    case RwCount(e, n, i) => i + 1 < n ==> IsCurrent(j, heap, e, i + 1)
  }

  predicate Carries(j: Journal, wrs: map<WrId, Wr>)
  {
    forall id :: id in wrs ==> id in j.carried && j.carried[id] == (wrs[id].serial, wrs[id].op)
  }

  predicate Agrees(j: Journal, s: State)
  {
    && s.submitted == j.segs && s.completed == j.completed && s.refused == j.refused
    && Owns(j, s.heap) && Queues(j, s.heap, s.fifo) && Serves(j, s.heap, s.rw) && Carries(j, s.wrs)
  }

  // ----- every step keeps it ------------------------------------------------------

  /** Entries that stay keep their serial; only an allocation brings one. */
  predicate SameSerials(heap: map<Ptr, Entry>, heap': map<Ptr, Entry>)
  {
    forall p :: p in heap' ==> p in heap && heap'[p].serial == heap[p].serial
  }

  lemma SerialsStay(s: State, st: Step)
    requires T(s) && L(s) && R(s) && Enabled(s, st) && !st.Alloc?
    ensures SameSerials(s.heap, Apply(s, st).heap)
  {
    hide T, L, R, FirstMatch, Unlink, FreshOps;
    if st.Publish? {
      FifoHasRoom(s);
    }
  }

  lemma OwnsStep(j: Journal, s: State, st: Step)
    requires Inv(s) && Enabled(s, st) && Agrees(j, s)
    ensures Owns(Note(j, st), Apply(s, st).heap) && Apply(s, st).submitted == Note(j, st).segs
  {
    hide T, L, R, C, Queues, Serves, Carries, FreshOps;
    if st.Alloc? {
    } else {
      hide Apply;
      SerialsStay(s, st);
      SubmittedStays(s, st);
    }
  }

  lemma SubmittedStays(s: State, st: Step)
    requires Enabled(s, st) && !st.Alloc?
    ensures Apply(s, st).submitted == s.submitted
  {
    hide FirstMatch, Unlink, FreshOps, Passed;
  }

  /** What is in the fifo is live. */
  lemma FifoLives(s: State)
    requires T(s)
    ensures forall k :: 0 <= k < |s.fifo| ==> s.fifo[k] in s.heap
  {
    forall k | 0 <= k < |s.fifo| ensures s.fifo[k] in s.heap {
      var p := s.fifo[k];
      assert p in s.fifo && p in s.table;
    }
  }

  lemma FifoStep(s: State, st: Step)
    requires T(s) && L(s) && R(s) && Enabled(s, st)
    ensures Apply(s, st).fifo == if st.Publish? then s.fifo + [st.p] else if st.Fetch? then s.fifo[1..] else s.fifo
  {
    hide T, L, R, FirstMatch, Unlink, FreshOps, Passed;
    if st.Publish? {
      FifoHasRoom(s);
    }
  }

  lemma PrivateLives(s: State, p: Ptr)
    requires T(s) && p in s.private
    ensures p in s.heap
  {
  }

  lemma QueuesStep(j: Journal, s: State, st: Step)
    requires Inv(s) && Enabled(s, st) && Agrees(j, s)
    ensures Queues(Note(j, st), Apply(s, st).heap, Apply(s, st).fifo)
  {
    hide T, L, R, C;
    StepKeepsInv(s, st);
    FifoLives(Apply(s, st));
    FifoStep(s, st);
    if st.Alloc? {
    } else {
      SerialsStay(s, st);
      if st.Publish? {
        PrivateLives(s, st.p);
      }
      hide Apply;
    }
  }

  predicate IsWorkerStep(st: Step)
  {
    st.Fetch? || st.ReadPending? || st.CheckRoom? || st.LoadOp? || st.PostOk? || st.PostFailed? || st.CountPost? || st.FinishServe?
  }

  lemma OthersLeaveWorker(s: State, st: Step)
    requires Enabled(s, st) && !IsWorkerStep(st)
    ensures Apply(s, st).rw == s.rw
  {
    hide FirstMatch, Unlink, FreshOps;
  }

  /** The worker goes on with the entry it has. */
  lemma WorkerStep(s: State, st: Step)
    requires T(s) && R(s) && Enabled(s, st) && IsWorkerStep(st)
    ensures var rw, rw' := s.rw, Apply(s, st).rw;
            if st.Fetch? then rw' == RwFetched(s.fifo[0])
            else if st.ReadPending? then rw' == RwLoop(rw.e, s.heap[rw.e].numPending, 0)
            else if st.CheckRoom? then rw' == rw || rw' == RwRoom(rw.e, rw.toSend, rw.idx)
            else if st.LoadOp? then rw' == RwPost(rw.e, rw.toSend, rw.idx)
            else if st.PostOk? then rw' == RwCount(rw.e, rw.toSend, rw.idx)
            else if st.PostFailed? || st.CountPost? then rw' == RwLoop(rw.e, rw.toSend, rw.idx + 1)
            else rw' == RwIdle
  {
    hide T, R, Passed;
    if st.ReadPending? || st.LoadOp? || st.PostFailed? {
      WorkerTarget(s);
    }
    if st.LoadOp? {
      LoadedOp(s);
    }
  }

  lemma LoadedOp(s: State)
    requires T(s) && R(s) && s.rw.RwRoom?
    ensures s.rw.e in s.heap && s.rw.idx < |s.heap[s.rw.e].ops| && s.heap[s.rw.e].ops[s.rw.idx] != Idle
  {
    hide Linked, Waiting, EntriesServed, Entries, Requests, SegmentsKept, AckWorkerOk, Undrained;
    OpIsNotIdle(s.heap, Acking(s.aw), s.completed, s.rw.e, s.rw.idx);
  }

  lemma WorkerTarget(s: State)
    requires T(s) && (s.rw.RwFetched? || s.rw.RwRoom? || s.rw.RwPost?)
    ensures s.rw.e in s.heap && (!s.rw.RwFetched? ==> s.rw.idx < s.heap[s.rw.e].segs)
  {
  }

  /** What the worker still has to serve is live. */
  lemma WorkerLives(s: State)
    requires T(s)
    ensures match s.rw
            case RwIdle => true
            case RwFetched(e) => e in s.heap
            case RwLoop(e, n, i) => i < n ==> e in s.heap
            case RwRoom(e, n, i) => e in s.heap
            case RwPost(e, n, i) => e in s.heap
            case RwCount(e, n, i) => i + 1 < n ==> e in s.heap
  {
  }

  lemma ServesByWorker(j: Journal, s: State, st: Step)
    requires Inv(s) && Enabled(s, st) && IsWorkerStep(st) && Queues(j, s.heap, s.fifo) && Serves(j, s.heap, s.rw)
    ensures Serves(Note(j, st), Apply(s, st).heap, Apply(s, st).rw)
  {
    hide T, L, R, C, Apply;
    StepKeepsInv(s, st);
    WorkerLives(Apply(s, st));
    WorkerStep(s, st);
    SerialsStay(s, st);
  }

  lemma ServesByOthers(j: Journal, s: State, st: Step)
    requires Inv(s) && Enabled(s, st) && !IsWorkerStep(st) && Serves(j, s.heap, s.rw)
    ensures Serves(Note(j, st), Apply(s, st).heap, Apply(s, st).rw)
  {
    hide T, L, R, C, Apply;
    StepKeepsInv(s, st);
    WorkerLives(Apply(s, st));
    OthersLeaveWorker(s, st);
    if st.Alloc? {
      AllocKeeps(s, st);
    } else {
      SerialsStay(s, st);
    }
  }

  lemma AllocKeeps(s: State, st: Step)
    requires Enabled(s, st) && st.Alloc?
    ensures forall p :: p in s.heap ==> p in Apply(s, st).heap && Apply(s, st).heap[p] == s.heap[p]
  {
  }

  lemma ServesStep(j: Journal, s: State, st: Step)
    requires Inv(s) && Enabled(s, st) && Agrees(j, s)
    ensures Serves(Note(j, st), Apply(s, st).heap, Apply(s, st).rw)
  {
    hide Inv, Apply, Enabled, Note, Serves, Queues, IsWorkerStep;
    if IsWorkerStep(st) {
      ServesByWorker(j, s, st);
    } else {
      ServesByOthers(j, s, st);
    }
  }

  /** Posting and completing, which the journal notes. */
  predicate Noted(st: Step)
  {
    st.PostOk? || st.PostFailed? || st.Complete?
  }

  lemma CarriesNoted(j: Journal, s: State, st: Step)
    requires T(s) && Enabled(s, st) && Noted(st) && Serves(j, s.heap, s.rw) && Carries(j, s.wrs)
    requires s.completed == j.completed && s.refused == j.refused
    ensures Carries(Note(j, st), Apply(s, st).wrs)
    ensures Apply(s, st).completed == Note(j, st).completed && Apply(s, st).refused == Note(j, st).refused
  {
    hide T, Passed;
    if st.PostFailed? || st.PostOk? {
      WorkerTarget(s);
    }
  }

  predicate SameCargo(s: State, s': State)
  {
    && s'.completed == s.completed && s'.refused == s.refused
    && forall id :: id in s'.wrs ==> id in s.wrs && s'.wrs[id].serial == s.wrs[id].serial && s'.wrs[id].op == s.wrs[id].op
  }

  lemma PollsKeepCargo(s: State, st: Step)
    requires Enabled(s, st) && (st.PollOk? || st.PollFailed? || st.SetStatus?)
    ensures SameCargo(s, Apply(s, st))
  {
  }

  lemma OthersKeepCargo(s: State, st: Step)
    requires Enabled(s, st) && !Noted(st) && !st.PollOk? && !st.PollFailed? && !st.SetStatus?
    ensures Apply(s, st).wrs == s.wrs && Apply(s, st).completed == s.completed && Apply(s, st).refused == s.refused
  {
    hide FirstMatch, Unlink, FreshOps;
  }

  /** All other steps complete and refuse nothing and carry nothing else. */
  lemma CarriesOther(s: State, st: Step)
    requires Enabled(s, st) && !Noted(st)
    ensures SameCargo(s, Apply(s, st))
  {
    hide Enabled, Apply;
    if st.PollOk? || st.PollFailed? || st.SetStatus? {
      PollsKeepCargo(s, st);
    } else {
      OthersKeepCargo(s, st);
    }
  }

  lemma CarriesStep(j: Journal, s: State, st: Step)
    requires Inv(s) && Enabled(s, st) && Agrees(j, s)
    ensures Carries(Note(j, st), Apply(s, st).wrs)
    ensures Apply(s, st).completed == Note(j, st).completed && Apply(s, st).refused == Note(j, st).refused
  {
    hide T, L, R, C, Apply, Enabled, Owns, Queues, Serves;
    if Noted(st) {
      CarriesNoted(j, s, st);
    } else {
      CarriesOther(s, st);
    }
  }

  lemma StepAgrees(j: Journal, s: State, st: Step)
    requires Inv(s) && Enabled(s, st) && Agrees(j, s)
    ensures Agrees(Note(j, st), Apply(s, st))
  {
    hide Inv, Apply, Note, Owns, Queues, Serves, Carries;
    OwnsStep(j, s, st);
    QueuesStep(j, s, st);
    ServesStep(j, s, st);
    CarriesStep(j, s, st);
  }

  /** The journal of a run agrees with the state it leads to. */
  lemma {:induction false} JournalAgrees(s0: State, steps: seq<Step>, s: State)
    requires Init(s0) && Runs(s0, steps, s)
    ensures Agrees(JournalOf(steps), s)
    decreases |steps|
  {
    if steps != [] {
      hide Agrees, Inv, Apply, Enabled, Note;
      var n := |steps| - 1;
      var mid :| Runs(s0, steps[..n], mid) && Enabled(mid, steps[n]) && s == Apply(mid, steps[n]);
      JournalAgrees(s0, steps[..n], mid);
      RunKeepsInv(s0, steps[..n], mid);
      StepAgrees(JournalOf(steps[..n]), mid, steps[n]);
    }
  }

  // ----- what follows -------------------------------------------------------------

  /** Requests are fetched in the order they were published: what is left in the fifo is the rest
    of that order, and a request just fetched is the next one. */
  lemma ServedInOrder(s0: State, steps: seq<Step>, s: State)
    requires Init(s0) && Runs(s0, steps, s)
    ensures var j := JournalOf(steps);
            && j.fetches + |s.fifo| == |j.published|
            && (forall k :: 0 <= k < |s.fifo| ==> s.fifo[k] in s.heap && s.heap[s.fifo[k]].serial == j.published[j.fetches + k])
            && (s.rw.RwFetched? ==> 1 <= j.fetches && s.rw.e in s.heap && s.heap[s.rw.e].serial == j.published[j.fetches - 1])
  {
    hide Runs, JournalOf;
    JournalAgrees(s0, steps, s);
  }

  /** Its segments are posted one after the other: the next one is that many after the fetch. */
  lemma PostedInOrder(s0: State, steps: seq<Step>, s: State)
    requires Init(s0) && Runs(s0, steps, s) && s.rw.RwPost?
    ensures var j := JournalOf(steps);
            && 1 <= j.fetches <= |j.published| && s.rw.e in s.heap
            && s.heap[s.rw.e].serial == j.published[j.fetches - 1] && s.rw.idx == j.posts
  {
    hide Runs, JournalOf;
    JournalAgrees(s0, steps, s);
  }

  /** A request is ended only after every segment it was submitted with was carried by a work
    request that the RNIC completed without error. */
  lemma EndedWereCompleted(s0: State, steps: seq<Step>, s: State)
    requires Init(s0) && Runs(s0, steps, s)
    ensures var j := JournalOf(steps);
            s.submitted == j.segs && forall k :: k in s.ended ==> k < |j.segs| && forall i: nat :: i < j.segs[k] ==> (k, i) in j.completed
  {
    hide Runs, JournalOf, Owns, Queues, Serves, Carries;
    JournalAgrees(s0, steps, s);
    assert Reachable(s);
    EndedOnceAndComplete(s);
  }
}
