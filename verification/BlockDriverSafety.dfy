/** What every interleaving of the driver keeps, and what follows from it. */
module BlockDriverSafety {
  import opened Basics
  import opened BlockDriver

  // ----- the inductive invariant --------------------------------------------------

  function StartedCount(ops: seq<OpStatus>): (n: nat)
  {
    if ops == [] then 0 else (if ops[0] == Started then 1 else 0) + StartedCount(ops[1..])
  }

  /** The entry, if any, whose request has ended but which is not deleted yet. */
  function Deleting(aw: AckWorker): (r: set<Ptr>)
  {
    if aw.AwDel? then {aw.e} else {}
  }

  /** The entry, if any, whose operation is marked but whose counter is not yet lowered. */
  function Acking(aw: AckWorker): (r: set<Ptr>)
  {
    if aw.AwAcked? then {aw.e} else {}
  }

  /** The request the ack worker has polled and not freed. */
  function Holding(aw: AckWorker): (r: set<WrId>)
  {
    if aw.AwPolled? || aw.AwLookup? || aw.AwMatched? then {aw.id} else {}
  }

  /** Live entries are exactly the private ones and those linked in the table. */
  predicate Linked(heap: map<Ptr, Entry>, private: set<Ptr>, table: seq<Ptr>, fifo: seq<Ptr>)
  {
    && Distinct(table) && Distinct(fifo)
    && (forall p :: p in private ==> p in heap && p !in table)
    && (forall p :: p in table ==> p in heap)
    && (forall p :: p in heap ==> p in private || p in table)
    && (forall p :: p in fifo ==> p in table)
  }

  /** Only the entry whose request just ended may have lost its tag to a newer entry. */
  predicate Tags(heap: map<Ptr, Entry>, outstanding: set<Tag>, gone: set<Ptr>)
  {
    && (forall rq :: rq in outstanding ==> rq < QUEUE_DEPTH)
    && (forall p :: p in heap && p !in gone ==> heap[p].rq in outstanding)
    && (forall p, q :: p in heap && q in heap && p != q && heap[p].rq == heap[q].rq ==> p in gone || q in gone)
  }

  predicate EntryOk(e: Entry, acking: bool, completed: set<(nat, nat)>)
  {
    && |e.ops| == OPS_PER_RQ && 1 <= e.segs <= OPS_PER_RQ && e.posted <= e.segs
    && (forall i :: 0 <= i < |e.ops| ==> (e.ops[i] == Idle <==> i >= e.segs))
    && (forall i :: 0 <= i < |e.ops| && e.ops[i] == Acked ==> i < e.posted && (e.serial, i) in completed)
    && e.numPending == StartedCount(e.ops) + (if acking then 1 else 0)
  }

  predicate Entries(heap: map<Ptr, Entry>, acking: set<Ptr>, completed: set<(nat, nat)>)
  {
    forall p :: p in heap ==> EntryOk(heap[p], p in acking, completed)
  }

  /** No segment is posted before the request worker has fetched the entry. */
  predicate Waiting(heap: map<Ptr, Entry>, private: set<Ptr>, fifo: seq<Ptr>)
  {
    && (forall p :: p in private && p in heap ==> heap[p].posted == 0)
    && (forall p :: p in fifo && p in heap ==> heap[p].posted == 0)
  }

  /** Serial numbers name submissions; a live entry's request has not been ended, except
    for the entry that is about to be deleted. */
  predicate Ledger(heap: map<Ptr, Entry>, submitted: seq<nat>, ended: seq<nat>, gone: set<Ptr>)
  {
    && (forall p :: p in heap ==> heap[p].serial < |submitted| && submitted[heap[p].serial] == heap[p].segs)
    && (forall p, q :: p in heap && q in heap && p != q ==> heap[p].serial != heap[q].serial)
    && (forall p :: p in heap ==> (heap[p].serial in ended <==> p in gone))
    && (forall k :: k in ended ==> k < |submitted|)
    && (forall p :: p in gone ==> p in heap)
    && Distinct(ended)
  }

  predicate Serving(heap: map<Ptr, Entry>, private: set<Ptr>, fifo: seq<Ptr>, p: Ptr, toSend: int, idx: nat)
  {
    && p in heap && p !in private && p !in fifo
    && heap[p].segs == toSend && heap[p].posted == idx && idx < toSend
  }

  /** Past its last segment the worker claims nothing about the entry: it may be gone. */
  predicate ReqWorkerOk(rw: ReqWorker, heap: map<Ptr, Entry>, private: set<Ptr>, fifo: seq<Ptr>)
  {
    match rw
    case RwIdle => true
    case RwFetched(p) => p in heap && p !in private && p !in fifo && heap[p].posted == 0
    case RwLoop(p, n, i) => i < n ==> Serving(heap, private, fifo, p, n, i)
    case RwRoom(p, n, i) => Serving(heap, private, fifo, p, n, i)
    case RwPost(p, n, i) => Serving(heap, private, fifo, p, n, i)
    case RwCount(p, n, i) => i < n && (i + 1 < n ==> Serving(heap, private, fifo, p, n, i + 1))
  }

  predicate AckWorkerOk(aw: AckWorker, heap: map<Ptr, Entry>, wrs: map<WrId, Wr>)
  {
    match aw
    case AwIdle => true
    case AwPolled(id) => id in wrs
    case AwLookup(id) => id in wrs
    case AwMatched(id, e) => id in wrs && wrs[id].entry == e
    case AwAcked(e) => e in heap && heap[e].posted > 0
    case AwEnd(e) => e in heap && heap[e].posted > 0 && heap[e].numPending == 0
    case AwDel(e) => e in heap && heap[e].posted > 0 && heap[e].numPending == 0
  }

  predicate WrOk(w: Wr, heap: map<Ptr, Entry>, held: bool, completed: set<(nat, nat)>)
  {
    && w.entry in heap && heap[w.entry].serial == w.serial
    && w.op < heap[w.entry].posted && w.op < |heap[w.entry].ops| && heap[w.entry].ops[w.op] == Started
    && (w.stage == Held <==> held)
    && (w.stage == Held || w.stage == DoneOk ==> (w.serial, w.op) in completed)
  }

  /** Every live work request names a live entry and an operation that is still pending,
    and no two name the same one. */
  predicate Requests(wrs: map<WrId, Wr>, heap: map<Ptr, Entry>, held: set<WrId>, completed: set<(nat, nat)>)
  {
    && (forall id :: id in wrs ==> WrOk(wrs[id], heap, id in held, completed))
    && (forall id, id' :: id in wrs && id' in wrs && id != id' ==>
          wrs[id].entry != wrs[id'].entry || wrs[id].op != wrs[id'].op)
  }

  /** One, while the ack worker holds a request it has already taken off the counter. */
  function Discounted(aw: AckWorker): int
  {
    if aw.AwLookup? || aw.AwMatched? then 1 else 0
  }

  predicate Counter(pendingRdma: int, live: nat, limit: nat, rw: ReqWorker, aw: AckWorker)
  {
    && pendingRdma == live - Discounted(aw) - (if rw.RwCount? then 1 else 0)
    && live - Discounted(aw) <= limit
    && (rw.RwRoom? || rw.RwPost? ==> live - Discounted(aw) < limit)
  }

  predicate Carried(wrs: map<WrId, Wr>, p: Ptr, i: nat)
  {
    exists id :: id in wrs && wrs[id].entry == p && wrs[id].op == i
  }

  /** A segment the worker has got past is acknowledged, carried by a live work request, or
    was refused. */
  predicate SegmentsKept(heap: map<Ptr, Entry>, wrs: map<WrId, Wr>, refused: set<(nat, nat)>)
  {
    forall p, i: nat :: p in heap && i < heap[p].posted && i < |heap[p].ops| && heap[p].ops[i] == Started ==>
      (heap[p].serial, i) in refused || Carried(wrs, p, i)
  }

  /** The request worker has segments of p left to post. */
  predicate Busy(rw: ReqWorker, p: Ptr)
  {
    match rw
    case RwIdle => false
    case RwFetched(q) => q == p
    case RwLoop(q, n, i) => q == p && i < n
    case RwRoom(q, n, i) => q == p
    case RwPost(q, n, i) => q == p
    case RwCount(q, n, i) => q == p && i + 1 < n
  }

  predicate Unserved(rw: ReqWorker, private: set<Ptr>, fifo: seq<Ptr>, p: Ptr)
  {
    p in private || p in fifo || Busy(rw, p)
  }

  /** An entry that no submitter, fifo slot or worker refers to was served completely. */
  predicate EntriesServed(heap: map<Ptr, Entry>, rw: ReqWorker, private: set<Ptr>, fifo: seq<Ptr>)
  {
    forall p :: p in heap && !Unserved(rw, private, fifo, p) ==> heap[p].posted == heap[p].segs
  }

  predicate Live(heap: map<Ptr, Entry>, serial: nat)
  {
    exists p :: p in heap && heap[p].serial == serial
  }

  predicate Represented(heap: map<Ptr, Entry>, gone: set<Ptr>, rq: Tag)
  {
    exists p :: p in heap && heap[p].rq == rq && p !in gone
  }

  /** A submission is live or ended, and a started request has an entry. */
  predicate RequestsKept(heap: map<Ptr, Entry>, submitted: seq<nat>, ended: seq<nat>, outstanding: set<Tag>, gone: set<Ptr>)
  {
    && (forall k: nat :: k < |submitted| ==> k in ended || Live(heap, k))
    && (forall rq :: rq in outstanding ==> Represented(heap, gone, rq))
  }

  /** A request is ended only after the RNIC completed each of its segments. */
  predicate Settled(ended: seq<nat>, submitted: seq<nat>, completed: set<(nat, nat)>)
  {
    forall k, i: nat :: k in ended && k < |submitted| && i < submitted[k] ==> (k, i) in completed
  }

  function Finishing(aw: AckWorker): (r: set<Ptr>)
  {
    if aw.AwEnd? || aw.AwDel? then {aw.e} else {}
  }

  /** An entry whose counter is zero is in the ack worker's hands. */
  predicate Undrained(heap: map<Ptr, Entry>, finishing: set<Ptr>)
  {
    forall p :: p in heap ==> heap[p].numPending > 0 || p in finishing
  }

  predicate TablesInv(heap: map<Ptr, Entry>, private: set<Ptr>, table: seq<Ptr>, fifo: seq<Ptr>, rw: ReqWorker)
  {
    && Linked(heap, private, table, fifo) && Waiting(heap, private, fifo)
    && ReqWorkerOk(rw, heap, private, fifo) && EntriesServed(heap, rw, private, fifo)
  }

  predicate LedgerInv(heap: map<Ptr, Entry>, outstanding: set<Tag>, submitted: seq<nat>, ended: seq<nat>,
                      completed: set<(nat, nat)>, gone: set<Ptr>)
  {
    && Tags(heap, outstanding, gone) && Ledger(heap, submitted, ended, gone)
    && RequestsKept(heap, submitted, ended, outstanding, gone) && Settled(ended, submitted, completed)
  }

  predicate RequestsInv(heap: map<Ptr, Entry>, wrs: map<WrId, Wr>, aw: AckWorker, completed: set<(nat, nat)>,
                        refused: set<(nat, nat)>)
  {
    && Entries(heap, Acking(aw), completed) && AckWorkerOk(aw, heap, wrs)
    && Requests(wrs, heap, Holding(aw), completed) && SegmentsKept(heap, wrs, refused)
    && Undrained(heap, Finishing(aw))
  }

  predicate T(s: State)
  {
    TablesInv(s.heap, s.private, s.table, s.fifo, s.rw)
  }

  predicate L(s: State)
  {
    LedgerInv(s.heap, s.outstanding, s.submitted, s.ended, s.completed, Deleting(s.aw))
  }

  predicate R(s: State)
  {
    RequestsInv(s.heap, s.wrs, s.aw, s.completed, s.refused)
  }

  predicate C(s: State)
  {
    Counter(s.pendingRdma, |s.wrs|, s.queueSize, s.rw, s.aw)
  }

  predicate Inv(s: State)
  {
    s.faults == {} && T(s) && L(s) && R(s) && C(s)
  }

  // ----- sequences ----------------------------------------------------------------

  lemma {:induction false} StartedAfterAck(ops: seq<OpStatus>, i: nat)
    requires i < |ops| && ops[i] == Started
    ensures StartedCount(ops[i := Acked]) == StartedCount(ops) - 1
  {
    if i == 0 {
      assert ops[i := Acked][1..] == ops[1..];
    } else {
      StartedAfterAck(ops[1..], i - 1);
      assert ops[i := Acked][1..] == ops[1..][i - 1 := Acked];
    }
  }

  lemma {:induction false} NoneStarted(ops: seq<OpStatus>)
    ensures StartedCount(ops) == 0 <==> forall i :: 0 <= i < |ops| ==> ops[i] != Started
  {
    if ops != [] {
      NoneStarted(ops[1..]);
      if forall i :: 0 <= i < |ops[1..]| ==> ops[1..][i] != Started {
        assert forall i :: 1 <= i < |ops| ==> ops[i] == ops[1..][i - 1];
      }
    }
  }

  lemma {:induction false} StartedPrefix(ops: seq<OpStatus>, n: nat)
    requires n <= |ops|
    requires forall i :: 0 <= i < |ops| ==> ops[i] == (if i < n then Started else Idle)
    ensures StartedCount(ops) == n
  {
    if ops != [] {
      StartedPrefix(ops[1..], if n == 0 then 0 else n - 1);
    }
  }

  lemma {:induction false} UnlinkSpec(table: seq<Ptr>, p: Ptr)
    requires Distinct(table)
    ensures Distinct(Unlink(table, p))
    ensures forall q :: q in Unlink(table, p) <==> q in table && q != p
  {
    if table != [] {
      assert table == [table[0]] + table[1..];
      assert table[0] !in table[1..];
      if table[0] != p {
        UnlinkSpec(table[1..], p);
      }
    }
  }

  lemma {:induction false} RangeCardinality(a: set<nat>, n: nat)
    requires forall x :: x in a ==> x < n
    ensures |a| <= n
  {
    if n > 0 {
      RangeCardinality(a - {n - 1}, n - 1);
    } else {
      assert a == {};
    }
  }

  function Elements(q: seq<nat>): (r: set<nat>)
  {
    set x | x in q
  }

  lemma {:induction false} DistinctCardinality(q: seq<nat>)
    requires Distinct(q)
    ensures |Elements(q)| == |q|
  {
    if q != [] {
      var n := |q| - 1;
      DistinctCardinality(q[..n]);
      assert q == q[..n] + [q[n]];
      assert Elements(q) == Elements(q[..n]) + {q[n]};
    }
  }

  /** With the entry's tag unique in the table, the lookup returns that entry. */
  lemma {:induction false} LookupFinds(heap: map<Ptr, Entry>, table: seq<Ptr>, e: Ptr)
    requires e in table
    requires forall q :: q in table ==> q in heap
    requires forall q :: q in table && q != e ==> heap[q].rq != heap[e].rq
    ensures FirstMatch(heap, table, heap[e].rq) == Found(e)
  {
    assert table == [table[0]] + table[1..];
    if table[0] != e {
      LookupFinds(heap, table[1..], e);
    }
  }

  // ----- effects on the tables ----------------------------------------------------

  lemma TablesAlloc(heap: map<Ptr, Entry>, private: set<Ptr>, table: seq<Ptr>, fifo: seq<Ptr>, rw: ReqWorker, p: Ptr, e: Entry)
    requires TablesInv(heap, private, table, fifo, rw) && p !in heap && e.posted == 0
    ensures TablesInv(heap[p := e], private + {p}, table, fifo, rw)
  {
  }

  lemma TablesPublish(heap: map<Ptr, Entry>, private: set<Ptr>, table: seq<Ptr>, fifo: seq<Ptr>, rw: ReqWorker, p: Ptr)
    requires TablesInv(heap, private, table, fifo, rw) && p in private
    ensures TablesInv(heap, private - {p}, [p] + table, fifo + [p], rw)
  {
  }

  lemma TablesFetch(heap: map<Ptr, Entry>, private: set<Ptr>, table: seq<Ptr>, fifo: seq<Ptr>)
    requires TablesInv(heap, private, table, fifo, RwIdle) && fifo != []
    ensures TablesInv(heap, private, table, fifo[1..], RwFetched(fifo[0]))
  {
  }

  lemma TablesPost(heap: map<Ptr, Entry>, private: set<Ptr>, table: seq<Ptr>, fifo: seq<Ptr>, p: Ptr, n: int, i: nat)
    requires TablesInv(heap, private, table, fifo, RwPost(p, n, i))
    ensures TablesInv(Passed(heap, p), private, table, fifo, RwCount(p, n, i))
    ensures TablesInv(Passed(heap, p), private, table, fifo, RwLoop(p, n, i + 1))
  {
  }

  lemma TablesServe(heap: map<Ptr, Entry>, private: set<Ptr>, table: seq<Ptr>, fifo: seq<Ptr>, p: Ptr, n: int, i: nat)
    ensures TablesInv(heap, private, table, fifo, RwFetched(p)) ==> p in heap
    ensures TablesInv(heap, private, table, fifo, RwFetched(p)) && n == heap[p].segs > 0 && i == 0 ==>
              TablesInv(heap, private, table, fifo, RwLoop(p, n, i))
    ensures TablesInv(heap, private, table, fifo, RwLoop(p, n, i)) && i < n ==> TablesInv(heap, private, table, fifo, RwRoom(p, n, i))
    ensures TablesInv(heap, private, table, fifo, RwLoop(p, n, i)) && i >= n ==> TablesInv(heap, private, table, fifo, RwIdle)
    ensures TablesInv(heap, private, table, fifo, RwRoom(p, n, i)) ==>
              p in heap && i < n == heap[p].segs && TablesInv(heap, private, table, fifo, RwPost(p, n, i))
    ensures TablesInv(heap, private, table, fifo, RwCount(p, n, i)) ==> TablesInv(heap, private, table, fifo, RwLoop(p, n, i + 1))
  {
  }

  /** Only `rq`, `serial` and `segs` matter to the ledger, only `segs` and `posted` here. */
  lemma TablesUpdate(heap: map<Ptr, Entry>, private: set<Ptr>, table: seq<Ptr>, fifo: seq<Ptr>, rw: ReqWorker, p: Ptr, e: Entry)
    requires TablesInv(heap, private, table, fifo, rw)
    requires p in heap && e.segs == heap[p].segs && e.posted == heap[p].posted
    ensures TablesInv(heap[p := e], private, table, fifo, rw)
  {
  }

  lemma TablesDelete(heap: map<Ptr, Entry>, private: set<Ptr>, table: seq<Ptr>, fifo: seq<Ptr>, rw: ReqWorker, p: Ptr)
    requires TablesInv(heap, private, table, fifo, rw)
    requires p in heap && 0 < heap[p].posted == heap[p].segs
    ensures TablesInv(heap - {p}, private, Unlink(table, p), fifo, rw)
  {
    UnlinkSpec(table, p);
  }

  // ----- effects on the ledger ----------------------------------------------------

  lemma TagsAlloc(heap: map<Ptr, Entry>, outstanding: set<Tag>, gone: set<Ptr>, p: Ptr, e: Entry)
    requires Tags(heap, outstanding, gone) && p !in heap && e.rq !in outstanding && e.rq < QUEUE_DEPTH
    ensures Tags(heap[p := e], outstanding + {e.rq}, gone)
  {
  }

  lemma SerialsAlloc(heap: map<Ptr, Entry>, submitted: seq<nat>, ended: seq<nat>, gone: set<Ptr>, p: Ptr, e: Entry)
    requires Ledger(heap, submitted, ended, gone) && p !in heap && e.serial == |submitted|
    ensures Ledger(heap[p := e], submitted + [e.segs], ended, gone)
  {
  }

  lemma KeptAlloc(heap: map<Ptr, Entry>, submitted: seq<nat>, ended: seq<nat>, outstanding: set<Tag>, gone: set<Ptr>, p: Ptr, e: Entry)
    requires RequestsKept(heap, submitted, ended, outstanding, gone)
    requires p !in heap && p !in gone && e.serial == |submitted|
    ensures RequestsKept(heap[p := e], submitted + [e.segs], ended, outstanding + {e.rq}, gone)
  {
    var heap' := heap[p := e];
    forall k: nat | k < |submitted| + 1 ensures k in ended || Live(heap', k) {
      if k < |submitted| && k !in ended {
        var q :| q in heap && heap[q].serial == k;
        assert q in heap' && heap'[q].serial == k;
      } else if k == |submitted| {
        assert p in heap' && heap'[p].serial == k;
      }
    }
    forall rq | rq in outstanding + {e.rq} ensures Represented(heap', gone, rq) {
      if rq in outstanding {
        assert Represented(heap, gone, rq);
        var q :| q in heap && heap[q].rq == rq && q !in gone;
        assert q in heap' && heap'[q].rq == rq && q !in gone;
      } else {
        assert p in heap' && heap'[p].rq == rq && p !in gone;
      }
    }
  }

  lemma LedgerAlloc(heap: map<Ptr, Entry>, outstanding: set<Tag>, submitted: seq<nat>, ended: seq<nat>,
                    completed: set<(nat, nat)>, gone: set<Ptr>, p: Ptr, e: Entry)
    requires LedgerInv(heap, outstanding, submitted, ended, completed, gone)
    requires p !in heap && e.rq !in outstanding && e.rq < QUEUE_DEPTH && e.serial == |submitted|
    ensures LedgerInv(heap[p := e], outstanding + {e.rq}, submitted + [e.segs], ended, completed, gone)
  {
    TagsAlloc(heap, outstanding, gone, p, e);
    SerialsAlloc(heap, submitted, ended, gone, p, e);
    KeptAlloc(heap, submitted, ended, outstanding, gone, p, e);
  }

  lemma TagsUpdate(heap: map<Ptr, Entry>, outstanding: set<Tag>, gone: set<Ptr>, p: Ptr, e: Entry)
    requires Tags(heap, outstanding, gone) && p in heap && e.rq == heap[p].rq
    ensures Tags(heap[p := e], outstanding, gone)
  {
  }

  lemma SerialsUpdate(heap: map<Ptr, Entry>, submitted: seq<nat>, ended: seq<nat>, gone: set<Ptr>, p: Ptr, e: Entry)
    requires Ledger(heap, submitted, ended, gone) && p in heap && e.serial == heap[p].serial && e.segs == heap[p].segs
    ensures Ledger(heap[p := e], submitted, ended, gone)
  {
  }

  lemma KeptUpdate(heap: map<Ptr, Entry>, submitted: seq<nat>, ended: seq<nat>, outstanding: set<Tag>, gone: set<Ptr>, p: Ptr, e: Entry)
    requires RequestsKept(heap, submitted, ended, outstanding, gone)
    requires p in heap && e.rq == heap[p].rq && e.serial == heap[p].serial
    ensures RequestsKept(heap[p := e], submitted, ended, outstanding, gone)
  {
    var heap' := heap[p := e];
    forall k: nat | Live(heap, k) ensures Live(heap', k) {
      var q :| q in heap && heap[q].serial == k;
      assert q in heap' && heap'[q].serial == k;
    }
    forall rq | Represented(heap, gone, rq) ensures Represented(heap', gone, rq) {
      var q :| q in heap && heap[q].rq == rq && q !in gone;
      assert q in heap' && heap'[q].rq == rq && q !in gone;
    }
  }

  lemma LedgerUpdate(heap: map<Ptr, Entry>, outstanding: set<Tag>, submitted: seq<nat>, ended: seq<nat>,
                     completed: set<(nat, nat)>, gone: set<Ptr>, p: Ptr, e: Entry)
    requires LedgerInv(heap, outstanding, submitted, ended, completed, gone)
    requires p in heap && e.rq == heap[p].rq && e.serial == heap[p].serial && e.segs == heap[p].segs
    ensures LedgerInv(heap[p := e], outstanding, submitted, ended, completed, gone)
  {
    TagsUpdate(heap, outstanding, gone, p, e);
    SerialsUpdate(heap, submitted, ended, gone, p, e);
    KeptUpdate(heap, submitted, ended, outstanding, gone, p, e);
  }

  lemma LedgerEnd(heap: map<Ptr, Entry>, outstanding: set<Tag>, submitted: seq<nat>, ended: seq<nat>,
                  completed: set<(nat, nat)>, e: Ptr)
    requires LedgerInv(heap, outstanding, submitted, ended, completed, {})
    requires e in heap && forall i: nat :: i < heap[e].segs ==> (heap[e].serial, i) in completed
    ensures heap[e].rq in outstanding
    ensures LedgerInv(heap, outstanding - {heap[e].rq}, submitted, ended + [heap[e].serial], completed, {e})
  {
    forall rq | rq in outstanding - {heap[e].rq} ensures Represented(heap, {e}, rq) {
      assert Represented(heap, {}, rq);
      var q :| q in heap && heap[q].rq == rq && q !in {};
      assert q in heap && heap[q].rq == rq && q !in {e};
    }
  }

  lemma LedgerDelete(heap: map<Ptr, Entry>, outstanding: set<Tag>, submitted: seq<nat>, ended: seq<nat>,
                     completed: set<(nat, nat)>, e: Ptr)
    requires LedgerInv(heap, outstanding, submitted, ended, completed, {e})
    requires e in heap
    ensures LedgerInv(heap - {e}, outstanding, submitted, ended, completed, {})
  {
  }

  lemma LedgerComplete(heap: map<Ptr, Entry>, outstanding: set<Tag>, submitted: seq<nat>, ended: seq<nat>,
                       completed: set<(nat, nat)>, completed': set<(nat, nat)>, gone: set<Ptr>)
    requires LedgerInv(heap, outstanding, submitted, ended, completed, gone) && completed <= completed'
    ensures LedgerInv(heap, outstanding, submitted, ended, completed', gone)
  {
  }

  // ----- effects on the work requests ---------------------------------------------

  lemma EntriesInsert(heap: map<Ptr, Entry>, acking: set<Ptr>, completed: set<(nat, nat)>, p: Ptr, e: Entry)
    requires Entries(heap, acking, completed) && p !in heap && EntryOk(e, p in acking, completed)
    ensures Entries(heap[p := e], acking, completed)
  {
    hide EntryOk;
  }

  lemma AckWorkerInsert(aw: AckWorker, heap: map<Ptr, Entry>, wrs: map<WrId, Wr>, p: Ptr, e: Entry)
    requires AckWorkerOk(aw, heap, wrs) && p !in heap
    ensures AckWorkerOk(aw, heap[p := e], wrs) && p !in Acking(aw)
  {
  }

  lemma RequestsInsert(heap: map<Ptr, Entry>, wrs: map<WrId, Wr>, held: set<WrId>, completed: set<(nat, nat)>, p: Ptr, e: Entry)
    requires Requests(wrs, heap, held, completed) && p !in heap
    ensures Requests(wrs, heap[p := e], held, completed)
  {
  }

  lemma SegmentsInsert(heap: map<Ptr, Entry>, wrs: map<WrId, Wr>, refused: set<(nat, nat)>, p: Ptr, e: Entry)
    requires SegmentsKept(heap, wrs, refused) && p !in heap && e.posted == 0
    ensures SegmentsKept(heap[p := e], wrs, refused)
  {
    hide Carried;
  }

  lemma RequestsAlloc(heap: map<Ptr, Entry>, wrs: map<WrId, Wr>, aw: AckWorker, completed: set<(nat, nat)>,
                      refused: set<(nat, nat)>, p: Ptr, e: Entry)
    requires RequestsInv(heap, wrs, aw, completed, refused)
    requires p !in heap && EntryOk(e, false, completed) && e.posted == 0 && e.numPending > 0
    ensures RequestsInv(heap[p := e], wrs, aw, completed, refused)
  {
    hide Entries, EntryOk, AckWorkerOk, Requests, WrOk, SegmentsKept;
    AckWorkerInsert(aw, heap, wrs, p, e);
    EntriesInsert(heap, Acking(aw), completed, p, e);
    RequestsInsert(heap, wrs, Holding(aw), completed, p, e);
    SegmentsInsert(heap, wrs, refused, p, e);
  }

  /** The operation about to be posted is pending and no live request names it. */
  lemma NextIsStarted(heap: map<Ptr, Entry>, wrs: map<WrId, Wr>, aw: AckWorker, completed: set<(nat, nat)>, p: Ptr)
    requires Entries(heap, Acking(aw), completed) && Requests(wrs, heap, Holding(aw), completed)
    requires p in heap && heap[p].posted < heap[p].segs
    ensures heap[p].posted < |heap[p].ops| && heap[p].ops[heap[p].posted] == Started
    ensures forall k :: k in wrs ==> wrs[k].entry != p || wrs[k].op != heap[p].posted
  {
  }

  lemma EntriesPassed(heap: map<Ptr, Entry>, acking: set<Ptr>, completed: set<(nat, nat)>, p: Ptr)
    requires Entries(heap, acking, completed) && p in heap && heap[p].posted < heap[p].segs
    ensures Entries(Passed(heap, p), acking, completed)
  {
  }

  lemma RequestsPassed(heap: map<Ptr, Entry>, wrs: map<WrId, Wr>, held: set<WrId>, completed: set<(nat, nat)>, p: Ptr)
    requires Requests(wrs, heap, held, completed) && p in heap
    ensures Requests(wrs, Passed(heap, p), held, completed)
  {
  }

  lemma AckWorkerPassed(aw: AckWorker, heap: map<Ptr, Entry>, wrs: map<WrId, Wr>, p: Ptr)
    requires AckWorkerOk(aw, heap, wrs)
    ensures AckWorkerOk(aw, Passed(heap, p), wrs)
  {
  }

  lemma RequestsAdd(heap: map<Ptr, Entry>, wrs: map<WrId, Wr>, held: set<WrId>, completed: set<(nat, nat)>, id: WrId, w: Wr)
    requires Requests(wrs, heap, held, completed) && id !in wrs && WrOk(w, heap, id in held, completed)
    requires forall k :: k in wrs ==> wrs[k].entry != w.entry || wrs[k].op != w.op
    ensures Requests(wrs[id := w], heap, held, completed)
  {
  }

  lemma SegmentsPosted(heap: map<Ptr, Entry>, wrs: map<WrId, Wr>, refused: set<(nat, nat)>, p: Ptr, id: WrId, w: Wr)
    requires SegmentsKept(heap, wrs, refused) && p in heap && id !in wrs && w.entry == p && w.op == heap[p].posted
    ensures SegmentsKept(Passed(heap, p), wrs[id := w], refused)
  {
    var wrs', heap' := wrs[id := w], Passed(heap, p);
    forall q, i: nat | q in heap' && i < heap'[q].posted && i < |heap'[q].ops| && heap'[q].ops[i] == Started
      ensures (heap'[q].serial, i) in refused || Carried(wrs', q, i)
    {
      if q == p && i == heap[p].posted {
        assert id in wrs' && wrs'[id].entry == q && wrs'[id].op == i;
      } else if (heap[q].serial, i) !in refused {
        assert Carried(wrs, q, i);
        var k :| k in wrs && wrs[k].entry == q && wrs[k].op == i;
        assert k in wrs' && wrs'[k].entry == q && wrs'[k].op == i;
      }
    }
  }

  lemma AckWorkerAdd(aw: AckWorker, heap: map<Ptr, Entry>, wrs: map<WrId, Wr>, id: WrId, w: Wr)
    requires AckWorkerOk(aw, heap, wrs) && id !in wrs
    ensures AckWorkerOk(aw, heap, wrs[id := w])
  {
  }

  lemma NotHeld(aw: AckWorker, heap: map<Ptr, Entry>, wrs: map<WrId, Wr>, id: WrId)
    requires AckWorkerOk(aw, heap, wrs) && id !in wrs
    ensures id !in Holding(aw)
  {
  }

  lemma RequestsPost(heap: map<Ptr, Entry>, wrs: map<WrId, Wr>, aw: AckWorker, completed: set<(nat, nat)>,
                     refused: set<(nat, nat)>, p: Ptr, id: WrId)
    requires RequestsInv(heap, wrs, aw, completed, refused)
    requires p in heap && heap[p].posted < heap[p].segs && id !in wrs
    ensures RequestsInv(Passed(heap, p), wrs[id := Wr(p, heap[p].posted, heap[p].serial, Posted)], aw, completed, refused)
  {
    hide Entries, AckWorkerOk, Requests, SegmentsKept;
    var w := Wr(p, heap[p].posted, heap[p].serial, Posted);
    NextIsStarted(heap, wrs, aw, completed, p);
    EntriesPassed(heap, Acking(aw), completed, p);
    RequestsPassed(heap, wrs, Holding(aw), completed, p);
    AckWorkerPassed(aw, heap, wrs, p);
    AckWorkerAdd(aw, Passed(heap, p), wrs, id, w);
    NotHeld(aw, heap, wrs, id);
    RequestsAdd(Passed(heap, p), wrs, Holding(aw), completed, id, w);
    SegmentsPosted(heap, wrs, refused, p, id, w);
  }

  lemma SegmentsRefused(heap: map<Ptr, Entry>, wrs: map<WrId, Wr>, refused: set<(nat, nat)>, p: Ptr)
    requires SegmentsKept(heap, wrs, refused) && p in heap
    ensures SegmentsKept(Passed(heap, p), wrs, refused + {(heap[p].serial, heap[p].posted)})
  {
  }

  lemma RequestsRefused(heap: map<Ptr, Entry>, wrs: map<WrId, Wr>, aw: AckWorker, completed: set<(nat, nat)>,
                        refused: set<(nat, nat)>, p: Ptr)
    requires RequestsInv(heap, wrs, aw, completed, refused)
    requires p in heap && heap[p].posted < heap[p].segs
    ensures RequestsInv(Passed(heap, p), wrs, aw, completed, refused + {(heap[p].serial, heap[p].posted)})
  {
    EntriesPassed(heap, Acking(aw), completed, p);
    RequestsPassed(heap, wrs, Holding(aw), completed, p);
    AckWorkerPassed(aw, heap, wrs, p);
    SegmentsRefused(heap, wrs, refused, p);
  }

  lemma EntriesComplete(heap: map<Ptr, Entry>, acking: set<Ptr>, completed: set<(nat, nat)>, completed': set<(nat, nat)>)
    requires Entries(heap, acking, completed) && completed <= completed'
    ensures Entries(heap, acking, completed')
  {
    forall p | p in heap ensures EntryOk(heap[p], p in acking, completed') {
      assert EntryOk(heap[p], p in acking, completed);
    }
  }

  lemma SegmentsStage(heap: map<Ptr, Entry>, wrs: map<WrId, Wr>, refused: set<(nat, nat)>, id: WrId, stage: Stage)
    requires SegmentsKept(heap, wrs, refused) && id in wrs
    ensures SegmentsKept(heap, wrs[id := wrs[id].(stage := stage)], refused)
  {
    var wrs' := wrs[id := wrs[id].(stage := stage)];
    forall p, i: nat | Carried(wrs, p, i) ensures Carried(wrs', p, i) {
      var k :| k in wrs && wrs[k].entry == p && wrs[k].op == i;
      assert k in wrs' && wrs'[k].entry == p && wrs'[k].op == i;
    }
    hide Carried;
  }

  lemma WrsStage(heap: map<Ptr, Entry>, wrs: map<WrId, Wr>, held: set<WrId>, completed: set<(nat, nat)>, id: WrId, stage: Stage, held': set<WrId>, completed': set<(nat, nat)>)
    requires Requests(wrs, heap, held, completed) && id in wrs && completed <= completed'
    requires stage == DoneOk || stage == Held ==> (wrs[id].serial, wrs[id].op) in completed'
    requires if stage == Held then held == {} && held' == {id} else wrs[id].stage != Held && held' == held
    ensures Requests(wrs[id := wrs[id].(stage := stage)], heap, held', completed')
  {
    var wrs' := wrs[id := wrs[id].(stage := stage)];
    forall k | k in wrs' ensures WrOk(wrs'[k], heap, k in held', completed') {
      assert WrOk(wrs[k], heap, k in held, completed);
    }
  }

  lemma AckWorkerStage(aw: AckWorker, heap: map<Ptr, Entry>, wrs: map<WrId, Wr>, id: WrId, stage: Stage)
    requires AckWorkerOk(aw, heap, wrs) && id in wrs
    ensures AckWorkerOk(aw, heap, wrs[id := wrs[id].(stage := stage)])
    ensures AckWorkerOk(AwPolled(id), heap, wrs[id := wrs[id].(stage := stage)])
  {
  }

  /** Moving one request to another stage, and the ack worker with it. */
  lemma RequestsStage(heap: map<Ptr, Entry>, wrs: map<WrId, Wr>, aw: AckWorker, completed: set<(nat, nat)>,
                      refused: set<(nat, nat)>, id: WrId, stage: Stage, aw': AckWorker, completed': set<(nat, nat)>)
    requires RequestsInv(heap, wrs, aw, completed, refused)
    requires id in wrs && completed <= completed'
    requires stage == DoneOk || stage == Held ==> (wrs[id].serial, wrs[id].op) in completed'
    requires (stage == Held && aw.AwIdle? && aw' == AwPolled(id)) || (stage != Held && wrs[id].stage != Held && aw' == aw)
    ensures RequestsInv(heap, wrs[id := wrs[id].(stage := stage)], aw', completed', refused)
  {
    hide Entries, AckWorkerOk, Requests, SegmentsKept, Undrained;
    EntriesComplete(heap, Acking(aw), completed, completed');
    AckWorkerStage(aw, heap, wrs, id, stage);
    WrsStage(heap, wrs, Holding(aw), completed, id, stage, Holding(aw'), completed');
    SegmentsStage(heap, wrs, refused, id, stage);
  }

  lemma RequestsHold(heap: map<Ptr, Entry>, wrs: map<WrId, Wr>, id: WrId, completed: set<(nat, nat)>, refused: set<(nat, nat)>)
    ensures RequestsInv(heap, wrs, AwPolled(id), completed, refused) ==> RequestsInv(heap, wrs, AwLookup(id), completed, refused)
    ensures RequestsInv(heap, wrs, AwLookup(id), completed, refused) ==>
              id in wrs && wrs[id].entry in heap && heap[wrs[id].entry].posted > 0
    ensures RequestsInv(heap, wrs, AwLookup(id), completed, refused) ==>
              RequestsInv(heap, wrs, AwMatched(id, wrs[id].entry), completed, refused)
  {
    if RequestsInv(heap, wrs, AwLookup(id), completed, refused) {
      assert WrOk(wrs[id], heap, true, completed);
    }
  }

  lemma RequestsEnd(heap: map<Ptr, Entry>, wrs: map<WrId, Wr>, e: Ptr, completed: set<(nat, nat)>, refused: set<(nat, nat)>)
    requires RequestsInv(heap, wrs, AwEnd(e), completed, refused)
    ensures RequestsInv(heap, wrs, AwDel(e), completed, refused)
  {
  }

  lemma HeldIsPending(heap: map<Ptr, Entry>, wrs: map<WrId, Wr>, id: WrId, e: Ptr, completed: set<(nat, nat)>, refused: set<(nat, nat)>)
    requires RequestsInv(heap, wrs, AwMatched(id, e), completed, refused)
    ensures id in wrs && WrOk(wrs[id], heap, true, completed) && (wrs[id].serial, wrs[id].op) in completed
    ensures wrs[id].entry == e && e in heap && wrs[id].op < |heap[e].ops| && heap[e].ops[wrs[id].op] == Started
    ensures heap[e].posted > 0
  {
  }

  function Ack(heap: map<Ptr, Entry>, e: Ptr, op: nat): map<Ptr, Entry>
    requires e in heap && op < |heap[e].ops|
  {
    heap[e := heap[e].(ops := heap[e].ops[op := Acked])]
  }

  lemma EntriesAck(heap: map<Ptr, Entry>, completed: set<(nat, nat)>, e: Ptr, op: nat)
    requires Entries(heap, {}, completed) && e in heap && op < |heap[e].ops| && heap[e].ops[op] == Started
    requires op < heap[e].posted && (heap[e].serial, op) in completed
    ensures Entries(Ack(heap, e, op), {e}, completed)
  {
    StartedAfterAck(heap[e].ops, op);
    assert EntryOk(heap[e], false, completed);
    assert EntryOk(Ack(heap, e, op)[e], true, completed);
  }

  lemma OthersAck(heap: map<Ptr, Entry>, wrs: map<WrId, Wr>, id: WrId, e: Ptr, op: nat, completed: set<(nat, nat)>)
    requires Requests(wrs, heap, {id}, completed) && id in wrs && wrs[id].entry == e && wrs[id].op == op
    requires e in heap && op < |heap[e].ops|
    ensures Requests(wrs - {id}, Ack(heap, e, op), {}, completed)
  {
  }

  lemma SegmentsAck(heap: map<Ptr, Entry>, wrs: map<WrId, Wr>, refused: set<(nat, nat)>, id: WrId, e: Ptr, op: nat)
    requires SegmentsKept(heap, wrs, refused) && id in wrs && wrs[id].entry == e && wrs[id].op == op
    requires e in heap && op < |heap[e].ops|
    ensures SegmentsKept(Ack(heap, e, op), wrs - {id}, refused)
  {
    var wrs', heap' := wrs - {id}, Ack(heap, e, op);
    forall q, i: nat | q in heap' && i < heap'[q].posted && i < |heap'[q].ops| && heap'[q].ops[i] == Started
      ensures (heap'[q].serial, i) in refused || Carried(wrs', q, i)
    {
      if (heap[q].serial, i) !in refused {
        assert Carried(wrs, q, i);
        var k :| k in wrs && wrs[k].entry == q && wrs[k].op == i;
        assert k in wrs' && wrs'[k].entry == q && wrs'[k].op == i;
      }
    }
  }

  lemma RequestsAck(heap: map<Ptr, Entry>, wrs: map<WrId, Wr>, id: WrId, e: Ptr, completed: set<(nat, nat)>,
                    refused: set<(nat, nat)>)
    requires RequestsInv(heap, wrs, AwMatched(id, e), completed, refused)
    ensures id in wrs && e in heap && wrs[id].op < |heap[e].ops| && heap[e].ops[wrs[id].op] == Started
    ensures RequestsInv(Ack(heap, e, wrs[id].op), wrs - {id}, AwAcked(e), completed, refused)
  {
    hide Entries, EntryOk, Requests, SegmentsKept;
    HeldIsPending(heap, wrs, id, e, completed, refused);
    var op := wrs[id].op;
    EntriesAck(heap, completed, e, op);
    OthersAck(heap, wrs, id, e, op, completed);
    SegmentsAck(heap, wrs, refused, id, e, op);
  }

  function Dropped(heap: map<Ptr, Entry>, e: Ptr): map<Ptr, Entry>
    requires e in heap
  {
    heap[e := heap[e].(numPending := heap[e].numPending - 1)]
  }

  lemma EntriesDrop(heap: map<Ptr, Entry>, completed: set<(nat, nat)>, e: Ptr)
    requires Entries(heap, {e}, completed) && e in heap
    ensures Entries(Dropped(heap, e), {}, completed) && heap[e].numPending > 0
  {
    assert EntryOk(heap[e], true, completed);
    assert EntryOk(Dropped(heap, e)[e], false, completed);
    hide EntryOk;
    forall p | p in heap && p != e ensures EntryOk(heap[p], false, completed) {
      assert EntryOk(heap[p], p in {e}, completed);
    }
  }

  lemma RequestsDropped(heap: map<Ptr, Entry>, wrs: map<WrId, Wr>, completed: set<(nat, nat)>, refused: set<(nat, nat)>, e: Ptr)
    requires Requests(wrs, heap, {}, completed) && SegmentsKept(heap, wrs, refused) && e in heap
    ensures Requests(wrs, Dropped(heap, e), {}, completed) && SegmentsKept(Dropped(heap, e), wrs, refused)
  {
    hide Carried;
  }

  lemma RequestsDrop(heap: map<Ptr, Entry>, wrs: map<WrId, Wr>, e: Ptr, completed: set<(nat, nat)>, refused: set<(nat, nat)>)
    requires RequestsInv(heap, wrs, AwAcked(e), completed, refused)
    ensures e in heap
    ensures var left := heap[e].numPending - 1;
            RequestsInv(heap[e := heap[e].(numPending := left)], wrs, if left != 0 then AwIdle else AwEnd(e), completed, refused)
  {
    hide Entries, EntryOk, Requests, SegmentsKept;
    EntriesDrop(heap, completed, e);
    RequestsDropped(heap, wrs, completed, refused, e);
    assert Dropped(heap, e) == heap[e := heap[e].(numPending := heap[e].numPending - 1)];
  }

  /** When the last pending operation is acknowledged, every segment was posted and completed. */
  lemma AllAcked(heap: map<Ptr, Entry>, wrs: map<WrId, Wr>, aw: AckWorker, completed: set<(nat, nat)>, refused: set<(nat, nat)>, e: Ptr)
    requires RequestsInv(heap, wrs, aw, completed, refused)
    requires e in heap && heap[e].numPending == 0 && !aw.AwAcked?
    ensures heap[e].posted == heap[e].segs
    ensures forall i: nat :: i < heap[e].segs ==> heap[e].ops[i] == Acked && (heap[e].serial, i) in completed
    ensures forall id :: id in wrs ==> wrs[id].entry != e
  {
    NoneStarted(heap[e].ops);
    assert heap[e].ops[heap[e].segs - 1] == Acked;
  }

  lemma RequestsDelete(heap: map<Ptr, Entry>, wrs: map<WrId, Wr>, e: Ptr, completed: set<(nat, nat)>, refused: set<(nat, nat)>)
    requires RequestsInv(heap, wrs, AwDel(e), completed, refused)
    ensures RequestsInv(heap - {e}, wrs, AwIdle, completed, refused)
  {
    AllAcked(heap, wrs, AwDel(e), completed, refused, e);
  }

  // ----- steps --------------------------------------------------------------------

  /** Outside the window between ending a request and deleting its entry, the tag of a
    published entry is its own. */
  lemma UniqueTag(heap: map<Ptr, Entry>, private: set<Ptr>, table: seq<Ptr>, fifo: seq<Ptr>, outstanding: set<Tag>, e: Ptr)
    requires Linked(heap, private, table, fifo) && Waiting(heap, private, fifo) && Tags(heap, outstanding, {})
    requires e in heap && heap[e].posted > 0
    ensures e in table && forall q :: q in table ==> q in heap && (q != e ==> heap[q].rq != heap[e].rq)
  {
  }

  /** Distinct tags bound the fifo. */
  lemma FifoRoom(heap: map<Ptr, Entry>, outstanding: set<Tag>, fifo: seq<Ptr>, gone: set<Ptr>)
    requires Tags(heap, outstanding, gone) && Distinct(fifo)
    requires forall p :: p in fifo ==> p in heap && p !in gone
    ensures |fifo| <= QUEUE_DEPTH
  {
    var tags := seq(|fifo|, i requires 0 <= i < |fifo| => heap[fifo[i]].rq);
    forall i, j | 0 <= i < j < |tags| ensures tags[i] != tags[j] {
      assert fifo[i] in fifo && fifo[j] in fifo;
    }
    forall x | x in tags ensures x < QUEUE_DEPTH {
      var i :| 0 <= i < |tags| && tags[i] == x;
      assert fifo[i] in fifo;
    }
    DistinctCardinality(tags);
    RangeCardinality(Elements(tags), QUEUE_DEPTH);
  }

  lemma WaitingNotGone(heap: map<Ptr, Entry>, private: set<Ptr>, table: seq<Ptr>, fifo: seq<Ptr>, wrs: map<WrId, Wr>, aw: AckWorker)
    requires Linked(heap, private, table, fifo) && Waiting(heap, private, fifo) && AckWorkerOk(aw, heap, wrs)
    ensures forall p :: p in fifo ==> p in heap && p !in Deleting(aw)
  {
  }

  /** At most QUEUE_DEPTH entries wait in the fifo, so it always has room. */
  lemma FifoHasRoom(s: State)
    requires T(s) && L(s) && R(s)
    ensures |s.fifo| <= QUEUE_DEPTH
  {
    WaitingNotGone(s.heap, s.private, s.table, s.fifo, s.wrs, s.aw);
    FifoRoom(s.heap, s.outstanding, s.fifo, Deleting(s.aw));
  }

  lemma OpIsNotIdle(heap: map<Ptr, Entry>, acking: set<Ptr>, completed: set<(nat, nat)>, p: Ptr, i: nat)
    requires Entries(heap, acking, completed) && p in heap && i < heap[p].segs
    ensures i < |heap[p].ops| && heap[p].ops[i] != Idle
  {
  }

  /** Every table lookup by the ack worker returns the entry its completion carries. */
  lemma LookupAgrees(s: State)
    requires T(s) && L(s) && R(s) && s.aw.AwLookup? && s.aw.id in s.wrs
    ensures s.wrs[s.aw.id].entry in s.heap
    ensures FirstMatch(s.heap, s.table, s.heap[s.wrs[s.aw.id].entry].rq) == Found(s.wrs[s.aw.id].entry)
  {
    var e := s.wrs[s.aw.id].entry;
    RequestsHold(s.heap, s.wrs, s.aw.id, s.completed, s.refused);
    UniqueTag(s.heap, s.private, s.table, s.fifo, s.outstanding, e);
    LookupFinds(s.heap, s.table, e);
  }

  lemma ServeIsSafe(s: State, st: Step)
    requires T(s) && R(s) && Enabled(s, st) && (st.LoadOp? || st.PostFailed? || st.ReadPending?)
    ensures Apply(s, st).faults == s.faults
  {
    TablesServe(s.heap, s.private, s.table, s.fifo, s.rw.e, if st.ReadPending? then 0 else s.rw.toSend, if st.ReadPending? then 0 else s.rw.idx);
    if st.LoadOp? {
      OpIsNotIdle(s.heap, Acking(s.aw), s.completed, s.rw.e, s.rw.idx);
    }
  }

  lemma AckedEntry(heap: map<Ptr, Entry>, wrs: map<WrId, Wr>, aw: AckWorker, completed: set<(nat, nat)>, refused: set<(nat, nat)>)
    requires RequestsInv(heap, wrs, aw, completed, refused) && (aw.AwAcked? || aw.AwDel?)
    ensures aw.e in heap && (aw.AwAcked? ==> heap[aw.e].numPending > 0)
  {
  }

  lemma AckIsSafe(s: State, st: Step)
    requires R(s) && Enabled(s, st) && (st.SetStatus? || st.DropPending? || st.Delete?)
    ensures Apply(s, st).faults == s.faults
  {
    hide RequestsInv;
    if st.SetStatus? {
      RequestsAck(s.heap, s.wrs, s.aw.id, s.aw.e, s.completed, s.refused);
    } else {
      AckedEntry(s.heap, s.wrs, s.aw, s.completed, s.refused);
    }
  }

  lemma EndIsSafe(s: State)
    requires L(s) && R(s) && Enabled(s, EndRequest)
    ensures Apply(s, EndRequest).faults == s.faults
  {
    assert AckWorkerOk(s.aw, s.heap, s.wrs) && Tags(s.heap, s.outstanding, {});
  }

  lemma OtherIsSafe(s: State, st: Step)
    requires Enabled(s, st)
    requires !(st.Publish? || st.LoadOp? || st.PostFailed? || st.ReadPending? || st.Lookup? || st.SetStatus?
               || st.DropPending? || st.Delete? || st.EndRequest?)
    ensures Apply(s, st).faults == s.faults
  {
  }

  lemma PublishIsSafe(s: State, p: Ptr)
    requires T(s) && L(s) && R(s) && Enabled(s, Publish(p))
    ensures Apply(s, Publish(p)).faults == s.faults
  {
    FifoHasRoom(s);
  }

  lemma LookupIsSafe(s: State)
    requires T(s) && L(s) && R(s) && Enabled(s, Lookup)
    ensures Apply(s, Lookup).faults == s.faults
  {
    LookupAgrees(s);
  }

  /** No step of any actor raises a fault. */
  lemma StepIsSafe(s: State, st: Step)
    requires T(s) && L(s) && R(s) && Enabled(s, st)
    ensures Apply(s, st).faults == s.faults
  {
    hide T, L, R;
    if st.Publish? {
      PublishIsSafe(s, st.p);
    } else if st.LoadOp? || st.PostFailed? || st.ReadPending? {
      ServeIsSafe(s, st);
    } else if st.Lookup? {
      LookupIsSafe(s);
    } else if st.SetStatus? || st.DropPending? || st.Delete? {
      AckIsSafe(s, st);
    } else if st.EndRequest? {
      EndIsSafe(s);
    } else {
      OtherIsSafe(s, st);
    }
  }

  predicate Safe(s: State, st: Step)
  {
    s.faults == {} && Enabled(s, st) && Apply(s, st).faults == {}
  }

  lemma Cardinalities(wrs: map<WrId, Wr>, id: WrId, w: Wr)
    ensures id in wrs ==> |wrs[id := w]| == |wrs| && |wrs - {id}| == |wrs| - 1
    ensures id !in wrs ==> |wrs[id := w]| == |wrs| + 1
  {
  }

  /** What submissions and the request worker's own steps leave alone. */
  lemma ServeFrame(s: State, st: Step)
    requires Safe(s, st)
    requires st.Alloc? || st.Publish? || st.Fetch? || st.ReadPending? || st.CheckRoom? || st.LoadOp? || st.PostFailed? || st.FinishServe?
    ensures var s' := Apply(s, st);
            && s'.pendingRdma == s.pendingRdma && s'.wrs == s.wrs && s'.queueSize == s.queueSize && s'.aw == s.aw
            && (s'.rw == s.rw || (!s.rw.RwCount? && !s'.rw.RwCount? && (s'.rw.RwPost? ==> s.rw.RwRoom?)
                                  && (s'.rw.RwRoom? ==> s.pendingRdma < s.queueSize)))
  {
  }

  lemma CounterRw(pending: int, live: nat, limit: nat, rw: ReqWorker, rw': ReqWorker, aw: AckWorker)
    requires Counter(pending, live, limit, rw, aw) && !rw.RwCount? && !rw'.RwCount? && (rw'.RwPost? ==> rw.RwRoom?)
    requires rw'.RwRoom? ==> pending < limit
    ensures Counter(pending, live, limit, rw', aw)
  {
  }

  lemma CounterServe(s: State, st: Step)
    requires C(s) && Safe(s, st)
    requires st.Alloc? || st.Publish? || st.Fetch? || st.ReadPending? || st.CheckRoom? || st.LoadOp? || st.PostFailed? || st.FinishServe?
    ensures C(Apply(s, st))
  {
    ServeFrame(s, st);
    if Apply(s, st).rw != s.rw {
      CounterRw(s.pendingRdma, |s.wrs|, s.queueSize, s.rw, Apply(s, st).rw, s.aw);
    }
  }

  lemma CounterCount(s: State)
    requires C(s) && Safe(s, CountPost)
    ensures C(Apply(s, CountPost))
  {
  }

  lemma CounterPost(s: State, id: WrId)
    requires C(s) && Safe(s, PostOk(id))
    ensures C(Apply(s, PostOk(id)))
  {
  }

  lemma CounterRnic(s: State, st: Step)
    requires C(s) && Safe(s, st) && (st.Complete? || st.PollOk? || st.PollFailed? || st.CountPoll?)
    ensures C(Apply(s, st))
  {
  }

  lemma AckFrame(s: State, st: Step)
    requires Safe(s, st) && (st.SetStatus? || st.DropPending? || st.EndRequest? || st.Delete?)
    ensures var s' := Apply(s, st);
            && s'.pendingRdma == s.pendingRdma && s'.queueSize == s.queueSize && s'.rw == s.rw && Discounted(s'.aw) == 0
            && (if st.SetStatus? then s.aw.AwMatched? && s.aw.id in s.wrs && s'.wrs == s.wrs - {s.aw.id}
                else s'.wrs == s.wrs && Discounted(s.aw) == 0)
  {
  }

  lemma CounterAck(s: State, st: Step)
    requires C(s) && Safe(s, st) && (st.SetStatus? || st.DropPending? || st.EndRequest? || st.Delete?)
    ensures C(Apply(s, st))
  {
    AckFrame(s, st);
    if st.SetStatus? {
      Cardinalities(s.wrs, s.aw.id, s.wrs[s.aw.id]);
    }
  }

  lemma CounterLookup(s: State)
    requires C(s) && Safe(s, Lookup)
    ensures C(Apply(s, Lookup))
  {
  }

  lemma CounterStep(s: State, st: Step)
    requires C(s) && Safe(s, st)
    ensures C(Apply(s, st))
  {
    if st.PostOk? {
      CounterPost(s, st.id);
    } else if st.Complete? || st.PollOk? || st.PollFailed? || st.CountPoll? {
      CounterRnic(s, st);
    } else if st.SetStatus? || st.DropPending? || st.EndRequest? || st.Delete? {
      CounterAck(s, st);
    } else if st.Lookup? {
      CounterLookup(s);
    } else if st.CountPost? {
      CounterCount(s);
    } else {
      CounterServe(s, st);
    }
  }

  lemma PendingIsSegs(s: State, p: Ptr)
    requires R(s) && p in s.heap && s.heap[p].posted == 0
    ensures s.heap[p].numPending == s.heap[p].segs > 0
  {
    assert EntryOk(s.heap[p], p in Acking(s.aw), s.completed);
    StartedPrefix(s.heap[p].ops, s.heap[p].segs);
  }

  lemma TablesReadPending(s: State)
    requires T(s) && R(s) && Safe(s, ReadPending)
    ensures T(Apply(s, ReadPending))
  {
    PendingIsSegs(s, s.rw.e);
    TablesServe(s.heap, s.private, s.table, s.fifo, s.rw.e, s.heap[s.rw.e].segs, 0);
  }

  lemma TablesDeleteStep(s: State)
    requires T(s) && R(s) && Safe(s, Delete)
    ensures T(Apply(s, Delete))
  {
    hide TablesInv, Entries, EntryOk, Requests, SegmentsKept;
    AllAcked(s.heap, s.wrs, s.aw, s.completed, s.refused, s.aw.e);
    TablesDelete(s.heap, s.private, s.table, s.fifo, s.rw, s.aw.e);
  }

  lemma TablesSubmit(s: State, st: Step)
    requires T(s) && Safe(s, st) && (st.Alloc? || st.Publish? || st.Fetch?)
    ensures T(Apply(s, st))
  {
    if st.Alloc? {
      TablesAlloc(s.heap, s.private, s.table, s.fifo, s.rw, st.p, DoAlloc(s, st.rq, st.p, st.segs).heap[st.p]);
    } else if st.Publish? {
      TablesPublish(s.heap, s.private, s.table, s.fifo, s.rw, st.p);
    } else {
      TablesFetch(s.heap, s.private, s.table, s.fifo);
    }
  }

  lemma TablesPostStep(s: State, st: Step)
    requires T(s) && Safe(s, st) && (st.PostOk? || st.PostFailed?)
    ensures T(Apply(s, st))
  {
    TablesPost(s.heap, s.private, s.table, s.fifo, s.rw.e, s.rw.toSend, s.rw.idx);
  }

  lemma TablesLoop(s: State, st: Step)
    requires T(s) && Safe(s, st) && (st.CheckRoom? || st.LoadOp? || st.CountPost? || st.FinishServe?)
    ensures T(Apply(s, st))
  {
    TablesServe(s.heap, s.private, s.table, s.fifo, s.rw.e, s.rw.toSend, s.rw.idx);
  }

  lemma TablesAckStep(s: State, st: Step)
    requires T(s) && Safe(s, st) && (st.SetStatus? || st.DropPending?)
    ensures T(Apply(s, st))
  {
    TablesUpdate(s.heap, s.private, s.table, s.fifo, s.rw, s.aw.e, Apply(s, st).heap[s.aw.e]);
  }

  lemma TablesFrame(s: State, st: Step)
    requires Safe(s, st)
    requires st.Complete? || st.PollOk? || st.PollFailed? || st.CountPoll? || st.Lookup? || st.EndRequest?
    ensures var s' := Apply(s, st);
            s'.heap == s.heap && s'.private == s.private && s'.table == s.table && s'.fifo == s.fifo && s'.rw == s.rw
  {
  }

  lemma TablesStep(s: State, st: Step)
    requires T(s) && R(s) && Safe(s, st)
    ensures T(Apply(s, st))
  {
    hide TablesInv, R;
    if st.Alloc? || st.Publish? || st.Fetch? {
      TablesSubmit(s, st);
    } else if st.ReadPending? {
      TablesReadPending(s);
    } else if st.PostOk? || st.PostFailed? {
      TablesPostStep(s, st);
    } else if st.CheckRoom? || st.LoadOp? || st.CountPost? || st.FinishServe? {
      TablesLoop(s, st);
    } else if st.SetStatus? || st.DropPending? {
      TablesAckStep(s, st);
    } else if st.Delete? {
      TablesDeleteStep(s);
    } else {
      TablesFrame(s, st);
    }
  }

  lemma EndingIsComplete(s: State)
    requires R(s) && s.aw.AwEnd?
    ensures s.aw.e in s.heap && forall i: nat :: i < s.heap[s.aw.e].segs ==> (s.heap[s.aw.e].serial, i) in s.completed
  {
    AllAcked(s.heap, s.wrs, s.aw, s.completed, s.refused, s.aw.e);
  }

  lemma LedgerEndStep(s: State)
    requires L(s) && Safe(s, EndRequest)
    requires s.aw.e in s.heap && forall i: nat :: i < s.heap[s.aw.e].segs ==> (s.heap[s.aw.e].serial, i) in s.completed
    ensures L(Apply(s, EndRequest))
  {
    hide LedgerInv;
    LedgerEnd(s.heap, s.outstanding, s.submitted, s.ended, s.completed, s.aw.e);
  }

  /** Entry p changed, but not the submission it stands for; nothing else changed. */
  predicate SameSubmission(heap: map<Ptr, Entry>, heap': map<Ptr, Entry>, p: Ptr)
    requires p in heap
  {
    && p in heap' && heap' == heap[p := heap'[p]]
    && heap'[p].rq == heap[p].rq && heap'[p].serial == heap[p].serial && heap'[p].segs == heap[p].segs
  }

  lemma LedgerFrame(s: State, st: Step)
    requires Safe(s, st) && !st.EndRequest? && !st.Alloc? && !st.Delete? && !st.Complete?
    requires st.Publish? ==> |s.fifo| < FIFO_SLOTS
    ensures var s' := Apply(s, st);
            s'.outstanding == s.outstanding && s'.submitted == s.submitted && s'.ended == s.ended
            && s'.completed == s.completed && Deleting(s'.aw) == Deleting(s.aw)
    ensures var s' := Apply(s, st);
            s'.heap == s.heap || exists p :: p in s.heap && SameSubmission(s.heap, s'.heap, p)
  {
    var s' := Apply(s, st);
    if st.PostOk? || st.PostFailed? {
      assert s.rw.e in s.heap ==> SameSubmission(s.heap, s'.heap, s.rw.e);
    } else if st.SetStatus? || st.DropPending? {
      assert SameSubmission(s.heap, s'.heap, s.aw.e);
    }
  }

  lemma LedgerStep(s: State, st: Step)
    requires L(s) && Safe(s, st) && !st.EndRequest?
    requires st.Publish? ==> |s.fifo| < FIFO_SLOTS
    ensures L(Apply(s, st))
  {
    hide LedgerInv;
    var s', gone := Apply(s, st), Deleting(s.aw);
    if st.Alloc? {
      LedgerAlloc(s.heap, s.outstanding, s.submitted, s.ended, s.completed, gone, st.p, s'.heap[st.p]);
    } else if st.Complete? {
      LedgerComplete(s.heap, s.outstanding, s.submitted, s.ended, s.completed, s'.completed, gone);
    } else if st.Delete? {
      LedgerDelete(s.heap, s.outstanding, s.submitted, s.ended, s.completed, s.aw.e);
    } else {
      LedgerFrame(s, st);
      if s'.heap != s.heap {
        var p :| p in s.heap && SameSubmission(s.heap, s'.heap, p);
        LedgerUpdate(s.heap, s.outstanding, s.submitted, s.ended, s.completed, gone, p, s'.heap[p]);
      }
    }
  }

  lemma PostTarget(s: State)
    requires T(s) && s.rw.RwPost?
    ensures s.rw.e in s.heap && s.heap[s.rw.e].posted == s.rw.idx < s.heap[s.rw.e].segs
  {
  }

  lemma RequestsPostStep(s: State, st: Step)
    requires R(s) && T(s) && Safe(s, st) && (st.PostOk? || st.PostFailed?)
    ensures R(Apply(s, st))
  {
    hide RequestsInv, TablesInv;
    PostTarget(s);
    if st.PostOk? {
      RequestsPost(s.heap, s.wrs, s.aw, s.completed, s.refused, s.rw.e, st.id);
    } else {
      RequestsRefused(s.heap, s.wrs, s.aw, s.completed, s.refused, s.rw.e);
    }
  }

  lemma RequestsFrame(s: State, st: Step)
    requires Safe(s, st)
    requires st.Publish? || st.Fetch? || st.ReadPending? || st.CheckRoom? || st.LoadOp? || st.CountPost? || st.FinishServe?
    requires st.Publish? ==> |s.fifo| < FIFO_SLOTS
    ensures var s' := Apply(s, st);
            s'.heap == s.heap && s'.wrs == s.wrs && s'.aw == s.aw && s'.completed == s.completed && s'.refused == s.refused
  {
  }

  lemma DoneIsCompleted(heap: map<Ptr, Entry>, wrs: map<WrId, Wr>, aw: AckWorker, completed: set<(nat, nat)>, refused: set<(nat, nat)>, id: WrId)
    requires RequestsInv(heap, wrs, aw, completed, refused) && id in wrs && wrs[id].stage == DoneOk
    ensures (wrs[id].serial, wrs[id].op) in completed
  {
  }

  lemma RequestsStageStep(s: State, st: Step)
    requires R(s) && Safe(s, st) && (st.Complete? || st.PollOk? || st.PollFailed?)
    ensures R(Apply(s, st))
  {
    hide RequestsInv;
    var s' := Apply(s, st);
    if st.PollOk? {
      DoneIsCompleted(s.heap, s.wrs, s.aw, s.completed, s.refused, st.id);
    }
    RequestsStage(s.heap, s.wrs, s.aw, s.completed, s.refused, st.id, s'.wrs[st.id].stage, s'.aw, s'.completed);
  }

  lemma RequestsHoldStep(s: State, st: Step)
    requires R(s) && Safe(s, st) && (st.CountPoll? || st.Lookup?)
    ensures R(Apply(s, st))
  {
    hide RequestsInv;
    var id := s.aw.id;
    RequestsHold(s.heap, s.wrs, id, s.completed, s.refused);
    HoldFrame(s, st);
  }

  lemma HoldFrame(s: State, st: Step)
    requires Safe(s, st) && (st.CountPoll? || st.Lookup?)
    ensures var s' := Apply(s, st);
            s'.heap == s.heap && s'.wrs == s.wrs && s'.completed == s.completed && s'.refused == s.refused
    ensures s.aw.id in s.wrs || st.CountPoll?
    ensures Apply(s, st).aw == if st.CountPoll? then AwLookup(s.aw.id) else AwMatched(s.aw.id, s.wrs[s.aw.id].entry)
  {
  }

  lemma SetStatusEffect(s: State)
    requires Safe(s, SetStatus)
    ensures s.aw.e in s.heap && s.wrs[s.aw.id].op < |s.heap[s.aw.e].ops|
    ensures var s' := Apply(s, SetStatus);
            && s'.heap == Ack(s.heap, s.aw.e, s.wrs[s.aw.id].op) && s'.wrs == s.wrs - {s.aw.id} && s'.aw == AwAcked(s.aw.e)
            && s'.completed == s.completed && s'.refused == s.refused
  {
  }

  lemma RequestsSetStatus(s: State)
    requires R(s) && Safe(s, SetStatus)
    ensures R(Apply(s, SetStatus))
  {
    hide RequestsInv;
    SetStatusEffect(s);
    RequestsAck(s.heap, s.wrs, s.aw.id, s.aw.e, s.completed, s.refused);
  }

  lemma DropPendingEffect(s: State)
    requires Safe(s, DropPending)
    ensures s.aw.e in s.heap
    ensures var s', left := Apply(s, DropPending), s.heap[s.aw.e].numPending - 1;
            && s'.heap == s.heap[s.aw.e := s.heap[s.aw.e].(numPending := left)] && s'.wrs == s.wrs
            && s'.aw == (if left != 0 then AwIdle else AwEnd(s.aw.e))
            && s'.completed == s.completed && s'.refused == s.refused
  {
  }

  lemma RequestsDropPending(s: State)
    requires R(s) && Safe(s, DropPending)
    ensures R(Apply(s, DropPending))
  {
    hide RequestsInv;
    DropPendingEffect(s);
    RequestsDrop(s.heap, s.wrs, s.aw.e, s.completed, s.refused);
  }

  lemma RequestsFinish(s: State, st: Step)
    requires R(s) && Safe(s, st) && (st.EndRequest? || st.Delete?)
    ensures R(Apply(s, st))
  {
    hide RequestsInv;
    if st.EndRequest? {
      RequestsEnd(s.heap, s.wrs, s.aw.e, s.completed, s.refused);
    } else {
      RequestsDelete(s.heap, s.wrs, s.aw.e, s.completed, s.refused);
    }
  }

  lemma RequestsAllocStep(s: State, rq: Tag, p: Ptr, segs: nat)
    requires R(s) && Safe(s, Alloc(rq, p, segs))
    ensures R(Apply(s, Alloc(rq, p, segs)))
  {
    hide RequestsInv;
    StartedPrefix(FreshOps(segs), segs);
    RequestsAlloc(s.heap, s.wrs, s.aw, s.completed, s.refused, p, DoAlloc(s, rq, p, segs).heap[p]);
  }

  lemma RequestsStep(s: State, st: Step)
    requires R(s) && T(s) && Safe(s, st)
    requires st.Publish? ==> |s.fifo| < FIFO_SLOTS
    ensures R(Apply(s, st))
  {
    hide RequestsInv, T;
    if st.Alloc? {
      RequestsAllocStep(s, st.rq, st.p, st.segs);
    } else if st.PostOk? || st.PostFailed? {
      RequestsPostStep(s, st);
    } else if st.Complete? || st.PollOk? || st.PollFailed? {
      RequestsStageStep(s, st);
    } else if st.CountPoll? || st.Lookup? {
      RequestsHoldStep(s, st);
    } else if st.SetStatus? {
      RequestsSetStatus(s);
    } else if st.DropPending? {
      RequestsDropPending(s);
    } else if st.EndRequest? || st.Delete? {
      RequestsFinish(s, st);
    } else {
      RequestsFrame(s, st);
    }
  }

  /** Every step of every actor keeps the invariant. */
  lemma StepKeepsInv(s: State, st: Step)
    requires Inv(s) && Enabled(s, st)
    ensures Inv(Apply(s, st))
  {
    hide T, L, R, C, Apply;
    StepIsSafe(s, st);
    FifoHasRoom(s);
    CounterStep(s, st);
    TablesStep(s, st);
    if st.EndRequest? {
      EndingIsComplete(s);
      LedgerEndStep(s);
    } else {
      LedgerStep(s, st);
    }
    RequestsStep(s, st);
  }

  lemma {:induction false} RunKeepsInv(s0: State, steps: seq<Step>, s: State)
    requires Init(s0) && Runs(s0, steps, s)
    ensures Inv(s)
    decreases |steps|
  {
    if steps != [] {
      var n := |steps| - 1;
      var mid :| Runs(s0, steps[..n], mid) && Enabled(mid, steps[n]) && s == Apply(mid, steps[n]);
      RunKeepsInv(s0, steps[..n], mid);
      StepKeepsInv(mid, steps[n]);
    }
  }

  lemma ReachableInv(s: State)
    requires Reachable(s)
    ensures Inv(s)
  {
    var s0, steps :| Init(s0) && Runs(s0, steps, s);
    RunKeepsInv(s0, steps, s);
  }

  // ----- what holds in every interleaving -----------------------------------------

  /** In every reachable state no fault has been raised: no entry is touched after it is
    freed, no lookup disagrees with its completion, no operation is acknowledged twice,
    the fifo never overflows and no request is ended twice. */
  lemma NoFaultIsReachable(s: State)
    requires Reachable(s)
    ensures s.faults == {}
  {
    ReachableInv(s);
  }

  /** Each submission is ended at most once, and only after each of its segments was
    completed by the RNIC. */
  lemma EndedOnceAndComplete(s: State)
    requires Reachable(s)
    ensures forall i, j :: 0 <= i < j < |s.ended| ==> s.ended[i] != s.ended[j]
    ensures forall k :: k in s.ended ==> k < |s.submitted| && forall i: nat :: i < s.submitted[k] ==> (k, i) in s.completed
  {
    hide T, R, C, Tags, RequestsKept, Reachable;
    ReachableInv(s);
  }

  /** Every lookup finds the entry its completion carries, although the table may hold an
    ended entry and a newer one for the same request. */
  lemma LookupsAgree(s: State)
    requires Reachable(s) && s.aw.AwLookup?
    ensures s.aw.id in s.wrs && s.wrs[s.aw.id].entry in s.heap
    ensures FirstMatch(s.heap, s.table, s.heap[s.wrs[s.aw.id].entry].rq) == Found(s.wrs[s.aw.id].entry)
  {
    ReachableInv(s);
    assert AckWorkerOk(s.aw, s.heap, s.wrs);
    LookupAgrees(s);
  }

  function InFlight(wrs: map<WrId, Wr>): (r: set<WrId>)
  {
    set id | id in wrs && (wrs[id].stage == Posted || wrs[id].stage == DoneOk || wrs[id].stage == DoneFailed)
  }

  /** Posted and not yet polled work requests never exceed the queue size; the counter that
    guards posting stays between -1 and the queue size and is -1 only between a post and its
    being counted, so never where the posting loop reads it; the fifo stays below its capacity. */
  lemma InFlightBounded(s: State)
    requires Reachable(s)
    ensures |InFlight(s.wrs)| <= s.queueSize
    ensures -1 <= s.pendingRdma <= s.queueSize && (!s.rw.RwCount? ==> 0 <= s.pendingRdma)
    ensures |s.fifo| <= QUEUE_DEPTH < FIFO_SLOTS
  {
    ReachableInv(s);
    FifoHasRoom(s);
    HeldNotInFlight(s.wrs, s.heap, s.aw, s.completed);
    if s.aw.AwLookup? || s.aw.AwMatched? {
      assert AckWorkerOk(s.aw, s.heap, s.wrs);
      assert s.aw.id in s.wrs;
    }
  }

  lemma HeldNotInFlight(wrs: map<WrId, Wr>, heap: map<Ptr, Entry>, aw: AckWorker, completed: set<(nat, nat)>)
    requires Requests(wrs, heap, Holding(aw), completed) && AckWorkerOk(aw, heap, wrs)
    ensures |InFlight(wrs)| <= |wrs| - Discounted(aw)
  {
    SubsetCardinality(InFlight(wrs), wrs.Keys - Holding(aw));
  }

  lemma {:induction false} SubsetCardinality<X>(a: set<X>, b: set<X>)
    requires a <= b
    ensures |a| <= |b|
  {
    if a != {} {
      var x :| x in a;
      SubsetCardinality(a - {x}, b - {x});
    }
  }

  /** No request is lost: once nothing is queued, in service or in flight, and unless a post
    was refused, every submitted request has been ended and every entry freed. */
  lemma QuiescentMeansDone(s: State)
    requires Reachable(s)
    requires s.private == {} && s.fifo == [] && s.rw.RwIdle? && s.aw.AwIdle? && s.wrs == map[] && s.refused == {}
    ensures s.heap == map[] && s.outstanding == {} && s.pendingRdma == 0
    ensures forall k: nat :: k < |s.submitted| ==> k in s.ended
  {
    ReachableInv(s);
    if s.heap != map[] {
      var p :| p in s.heap;
      Unfinished(s, p);
    }
    assert forall rq :: rq in s.outstanding ==> Represented(s.heap, {}, rq);
    forall k: nat | k < |s.submitted| ensures k in s.ended {
      assert k in s.ended || Live(s.heap, k);
    }
  }

  /** With both workers idle a live entry still has a pending segment: acknowledging the last
    one and deleting the entry are done by the same worker without going idle. */
  lemma Unfinished(s: State, p: Ptr)
    requires T(s) && R(s) && p in s.heap && s.aw.AwIdle? && s.rw.RwIdle? && s.private == {} && s.fifo == [] && s.refused == {}
    ensures s.wrs != map[]
  {
    var e := s.heap[p];
    assert EntryOk(e, false, s.completed) && e.numPending > 0;
    NoneStarted(e.ops);
    var i :| 0 <= i < |e.ops| && e.ops[i] == Started;
    assert Carried(s.wrs, p, i);
  }
}
