/** The remote-memory block driver as a transition system.

  Four kinds of actor interleave: submitters (`blk_ram_queue_rq`), one request
  worker (`req_worker_func`), one ack worker (`ack_worker_func`) and the RNIC,
  which completes posted work requests in any order.  Every `Step` is one atomic
  action of one actor: an atomic counter operation, one critical section, or one
  access to a shared entry.

  Addresses are plain numbers and an address may be handed out again after it is
  freed, so a stale address can denote a different, newer entry.  Whatever the C code
  would report as an error, and every access to freed memory, is recorded in
  `State.faults`. */
module BlockDriver {

  /** Tag-set depth: `2 * MIND_QUEUE_SIZE_MAX`. */
  const QUEUE_DEPTH: nat := 2 * 128
  /** Slots of the kfifo between submitters and the request worker. */
  const FIFO_SLOTS: nat := 1024
  /** `MIND_OP_PER_RQ`. */
  const OPS_PER_RQ: nat := 256

  /** A `struct request`; the block layer keeps one per tag. */
  type Tag = nat
  /** The address of a `struct request_map_entry`. */
  type Ptr = nat
  /** The address of a `struct mind_rdma_req`. */
  type WrId = nat

  datatype OpStatus = Idle | Started | Acked

  /** `serial`, `segs` and `posted` are history: the submission this entry serves, its
    number of segments, and how many of them the request worker has got past. */
  datatype Entry = Entry(rq: Tag, ops: seq<OpStatus>, numPending: int, serial: nat, segs: nat, posted: nat)

  /** Where a `mind_rdma_req` is: on the send queue, completed but not polled, polled by
    the ack worker, or abandoned after a failed completion was polled. */
  datatype Stage = Posted | DoneOk | DoneFailed | Held | Leaked

  /** A `mind_rdma_req` and the work request posted for it; `serial` is history. */
  datatype Wr = Wr(entry: Ptr, op: nat, serial: nat, stage: Stage)

  datatype ReqWorker =
    | RwIdle
    | RwFetched(e: Ptr)                           // kfifo_get returned e
    | RwLoop(e: Ptr, toSend: int, idx: nat)       // at the head of the posting loop
    | RwRoom(e: Ptr, toSend: int, idx: nat)       // read a counter below the limit
    | RwPost(e: Ptr, toSend: int, idx: nat)       // loaded operation idx, about to post
    | RwCount(e: Ptr, toSend: int, idx: nat)      // posted, counter not yet incremented

  datatype AckWorker =
    | AwIdle
    | AwPolled(id: WrId)                          // polled, counter not yet decremented
    | AwLookup(id: WrId)                          // counter decremented
    | AwMatched(id: WrId, e: Ptr)                 // table lookup agreed
    | AwAcked(e: Ptr)                             // status set, num_pending not yet decremented
    | AwEnd(e: Ptr)                               // num_pending reached zero
    | AwDel(e: Ptr)                               // request ended, entry still in the table

  datatype Fault = UseAfterFree | Mismatch | AlreadyAcked | FifoFull | EndedTwice | CountMismatch

  datatype State = State(
    queueSize: nat,                // actual_queue_size
    outstanding: set<Tag>,         // requests the block layer has started and not seen ended
    heap: map<Ptr, Entry>,         // live entries
    private: set<Ptr>,             // entries a submitter has not published yet
    table: seq<Ptr>,               // mind_request_map, newest first
    fifo: seq<Ptr>,                // mind_io_request_queue
    wrs: map<WrId, Wr>,            // live mind_rdma_reqs
    pendingRdma: int,              // num_pending_rdma
    rw: ReqWorker,
    aw: AckWorker,
    faults: set<Fault>,
    // history
    submitted: seq<nat>,           // segment count of each submission; the index is its serial
    completed: set<(nat, nat)>,    // (serial, segment) the RNIC completed successfully
    refused: set<(nat, nat)>,      // (serial, segment) whose post failed
    ended: seq<nat>                // serials in the order their requests were ended
  )

  datatype Step =
    | Alloc(rq: Tag, p: Ptr, segs: nat)
    | Publish(p: Ptr)
    | Fetch
    | ReadPending
    | CheckRoom
    | LoadOp
    | PostOk(id: WrId)
    | PostFailed
    | CountPost
    | FinishServe
    | Complete(id: WrId, ok: bool)
    | PollOk(id: WrId)
    | PollFailed(id: WrId)
    | CountPoll
    | Lookup
    | SetStatus
    | DropPending
    | EndRequest
    | Delete

  datatype Found = Found(e: Ptr) | NotFound | Dangling

  predicate Init(s: State)
  {
    && s.outstanding == {} && s.heap == map[] && s.private == {} && s.table == [] && s.fifo == []
    && s.wrs == map[] && s.pendingRdma == 0 && s.rw == RwIdle && s.aw == AwIdle && s.faults == {}
    && s.submitted == [] && s.completed == {} && s.refused == {} && s.ended == []
  }

  /** The operations array after `segs` segments were filled in. */
  function FreshOps(segs: nat): (ops: seq<OpStatus>)
  {
    seq(OPS_PER_RQ, i requires 0 <= i => if i < segs then Started else Idle)
  }

  /** `get_request_entry`: walk the chain, reading each entry, up to the first match. */
  function FirstMatch(heap: map<Ptr, Entry>, table: seq<Ptr>, rq: Tag): (r: Found)
  {
    if table == [] then NotFound
    else if table[0] !in heap then Dangling
    else if heap[table[0]].rq == rq then Found(table[0])
    else FirstMatch(heap, table[1..], rq)
  }

  /** `hash_del`. */
  function Unlink(table: seq<Ptr>, p: Ptr): (r: seq<Ptr>)
  {
    if table == [] then []
    else if table[0] == p then table[1..]
    else [table[0]] + Unlink(table[1..], p)
  }

  function Raise(s: State, f: Fault): State
  {
    s.(faults := s.faults + {f})
  }

  /** `blk_mq_end_request`. */
  function End(s: State, rq: Tag, serial: nat): State
  {
    if rq in s.outstanding
    then s.(outstanding := s.outstanding - {rq}, ended := s.ended + [serial])
    else Raise(s, EndedTwice).(ended := s.ended + [serial])
  }

  /** Which step an actor, or the environment, may take next. */
  predicate Enabled(s: State, st: Step)
  {
    match st
    // a tag is reused only after its request ended; kzalloc returns memory that is not live
    case Alloc(rq, p, segs) => rq < QUEUE_DEPTH && rq !in s.outstanding && p !in s.heap && 1 <= segs <= OPS_PER_RQ
    case Publish(p) => p in s.private
    case Fetch => s.rw.RwIdle? && s.fifo != []
    case ReadPending => s.rw.RwFetched?
    case CheckRoom => s.rw.RwLoop? && s.rw.idx < s.rw.toSend
    case LoadOp => s.rw.RwRoom?
    case PostOk(id) => s.rw.RwPost? && id !in s.wrs
    case PostFailed => s.rw.RwPost?
    case CountPost => s.rw.RwCount?
    case FinishServe => s.rw.RwLoop? && s.rw.idx >= s.rw.toSend
    case Complete(id, ok) => id in s.wrs && s.wrs[id].stage == Posted
    case PollOk(id) => s.aw.AwIdle? && id in s.wrs && s.wrs[id].stage == DoneOk
    case PollFailed(id) => s.aw.AwIdle? && id in s.wrs && s.wrs[id].stage == DoneFailed
    case CountPoll => s.aw.AwPolled?
    case Lookup => s.aw.AwLookup? && s.aw.id in s.wrs
    case SetStatus => s.aw.AwMatched? && s.aw.id in s.wrs
    case DropPending => s.aw.AwAcked?
    case EndRequest => s.aw.AwEnd?
    case Delete => s.aw.AwDel?
  }

  function Apply(s: State, st: Step): (s': State)
    requires Enabled(s, st)
  {
    match st
    case Alloc(rq, p, segs) => DoAlloc(s, rq, p, segs)
    case Publish(p) => DoPublish(s, p)
    case Fetch => s.(rw := RwFetched(s.fifo[0]), fifo := s.fifo[1..])
    case ReadPending => DoReadPending(s)
    case CheckRoom =>
      if s.pendingRdma >= s.queueSize then s else s.(rw := RwRoom(s.rw.e, s.rw.toSend, s.rw.idx))
    case LoadOp => DoLoadOp(s)
    case PostOk(id) => DoPostOk(s, id)
    case PostFailed => DoPostFailed(s)
    case CountPost => s.(pendingRdma := s.pendingRdma + 1, rw := RwLoop(s.rw.e, s.rw.toSend, s.rw.idx + 1))
    case FinishServe => s.(rw := RwIdle)
    case Complete(id, ok) => DoComplete(s, id, ok)
    case PollOk(id) => s.(wrs := s.wrs[id := s.wrs[id].(stage := Held)], aw := AwPolled(id))
    case PollFailed(id) => s.(wrs := s.wrs[id := s.wrs[id].(stage := Leaked)])
    case CountPoll => s.(pendingRdma := s.pendingRdma - 1, aw := AwLookup(s.aw.id))
    case Lookup => DoLookup(s)
    case SetStatus => DoSetStatus(s)
    case DropPending => DoDropPending(s)
    case EndRequest => DoEndRequest(s)
    case Delete => DoDelete(s)
  }

  function DoAlloc(s: State, rq: Tag, p: Ptr, segs: nat): State
  {
    s.(outstanding := s.outstanding + {rq},
       heap := s.heap[p := Entry(rq, FreshOps(segs), segs, |s.submitted|, segs, 0)],
       private := s.private + {p},
       submitted := s.submitted + [segs])
  }

  /** One critical section: hash_add, then kfifo_put.  When the fifo is full the entry is
    freed and its request ended with an error, but it is left linked in the table. */
  function DoPublish(s: State, p: Ptr): State
  {
    var s1 := s.(private := s.private - {p}, table := [p] + s.table);
    if |s.fifo| < FIFO_SLOTS then s1.(fifo := s.fifo + [p])
    else if p in s.heap then End(Raise(s1, FifoFull).(heap := s.heap - {p}), s.heap[p].rq, s.heap[p].serial)
    else Raise(s1, UseAfterFree)
  }

  function DoReadPending(s: State): State
    requires s.rw.RwFetched?
  {
    if s.rw.e in s.heap then s.(rw := RwLoop(s.rw.e, s.heap[s.rw.e].numPending, 0))
    else Raise(s, UseAfterFree).(rw := RwIdle)
  }

  /** An Idle operation ends the list early; the loop then reports a count mismatch. */
  function DoLoadOp(s: State): State
    requires s.rw.RwRoom?
  {
    if s.rw.e !in s.heap then Raise(s, UseAfterFree).(rw := RwIdle)
    else if s.rw.idx < |s.heap[s.rw.e].ops| && s.heap[s.rw.e].ops[s.rw.idx] != Idle
      then s.(rw := RwPost(s.rw.e, s.rw.toSend, s.rw.idx))
    else Raise(s, CountMismatch).(rw := RwIdle)
  }

  /** Records that the worker has got past segment idx (history only). */
  function Passed(heap: map<Ptr, Entry>, p: Ptr): map<Ptr, Entry>
  {
    if p in heap then heap[p := heap[p].(posted := heap[p].posted + 1)] else heap
  }

  function SerialOf(heap: map<Ptr, Entry>, p: Ptr): nat
  {
    if p in heap then heap[p].serial else 0
  }

  function DoPostOk(s: State, id: WrId): State
    requires s.rw.RwPost?
  {
    s.(wrs := s.wrs[id := Wr(s.rw.e, s.rw.idx, SerialOf(s.heap, s.rw.e), Posted)],
       heap := Passed(s.heap, s.rw.e),
       rw := RwCount(s.rw.e, s.rw.toSend, s.rw.idx))
  }

  /** A failed post is logged with the operation's position, so the entry is read again. */
  function DoPostFailed(s: State): State
    requires s.rw.RwPost?
  {
    if s.rw.e !in s.heap then Raise(s, UseAfterFree).(rw := RwIdle) else
    s.(refused := s.refused + {(SerialOf(s.heap, s.rw.e), s.rw.idx)},
       heap := Passed(s.heap, s.rw.e),
       rw := RwLoop(s.rw.e, s.rw.toSend, s.rw.idx + 1))
  }

  function DoComplete(s: State, id: WrId, ok: bool): State
    requires id in s.wrs
  {
    s.(wrs := s.wrs[id := s.wrs[id].(stage := if ok then DoneOk else DoneFailed)],
       completed := if ok then s.completed + {(s.wrs[id].serial, s.wrs[id].op)} else s.completed)
  }

  /** Reads `mind_req->entry->rq`, looks it up, and compares the result with the entry the
    completion carries. */
  function DoLookup(s: State): State
    requires s.aw.AwLookup? && s.aw.id in s.wrs
  {
    var e := s.wrs[s.aw.id].entry;
    if e !in s.heap then Raise(s, UseAfterFree).(aw := AwIdle)
    else match FirstMatch(s.heap, s.table, s.heap[e].rq)
      case Dangling => Raise(s, UseAfterFree).(aw := AwIdle)
      case NotFound => Raise(s, Mismatch).(aw := AwIdle)
      case Found(e') => if e' == e then s.(aw := AwMatched(s.aw.id, e)) else Raise(s, Mismatch).(aw := AwIdle)
  }

  /** The first half of `finish_mind_req`: free the mind_rdma_req, mark the operation. */
  function DoSetStatus(s: State): State
    requires s.aw.AwMatched? && s.aw.id in s.wrs
  {
    var e, op := s.aw.e, s.wrs[s.aw.id].op;
    var s1 := s.(wrs := s.wrs - {s.aw.id});
    if e !in s.heap then Raise(s1, UseAfterFree).(aw := AwIdle)
    else if op < |s.heap[e].ops| && s.heap[e].ops[op] != Acked then
      s1.(heap := s.heap[e := s.heap[e].(ops := s.heap[e].ops[op := Acked])], aw := AwAcked(e))
    else Raise(s1, AlreadyAcked).(aw := AwIdle)
  }

  function DoDropPending(s: State): State
    requires s.aw.AwAcked?
  {
    var e := s.aw.e;
    if e !in s.heap then Raise(s, UseAfterFree).(aw := AwIdle)
    else
      var left := s.heap[e].numPending - 1;
      s.(heap := s.heap[e := s.heap[e].(numPending := left)], aw := if left != 0 then AwIdle else AwEnd(e))
  }

  function DoEndRequest(s: State): State
    requires s.aw.AwEnd?
  {
    if s.aw.e !in s.heap then Raise(s, UseAfterFree).(aw := AwIdle)
    else End(s, s.heap[s.aw.e].rq, s.heap[s.aw.e].serial).(aw := AwDel(s.aw.e))
  }

  /** One critical section: hash_del and kfree. */
  function DoDelete(s: State): State
    requires s.aw.AwDel?
  {
    if s.aw.e !in s.heap then Raise(s, UseAfterFree).(aw := AwIdle)
    else s.(table := Unlink(s.table, s.aw.e), heap := s.heap - {s.aw.e}, aw := AwIdle)
  }

  /** `s` is reached from `s0` by taking `steps` in order, each enabled in its turn. */
  ghost predicate Runs(s0: State, steps: seq<Step>, s: State)
    decreases |steps|
  {
    if steps == [] then s == s0
    else
      var n := |steps| - 1;
      exists mid :: Runs(s0, steps[..n], mid) && Enabled(mid, steps[n]) && s == Apply(mid, steps[n])
  }

  /** `s` occurs in some interleaving of the actors. */
  ghost predicate Reachable(s: State)
  {
    exists s0, steps :: Init(s0) && Runs(s0, steps, s)
  }
}
