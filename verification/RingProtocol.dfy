/** One producer and one consumer on the two rings, interleaved at every shared access: the
  producer copies data, publishes it, writes a task and publishes that; the consumer takes a
  task, releases its slot, copies the data and releases it. */
module RingProtocol {
  import opened Basics
  import opened Rings

  /** A task with the bytes that belong to it and their place in the stream of all bytes. */
  datatype Message = Message(task: FaultTask, payload: seq<Byte>, start: nat)

  datatype Producer =
    | Idle
    | Copied(task: FaultTask, payload: seq<Byte>)
    | Ready(task: FaultTask)
    | Written(task: FaultTask)

  datatype Consumer =
    | Waiting
    | Taken(task: FaultTask)
    | Holding(task: FaultTask)
    | Fetched(task: FaultTask, bytes: seq<Byte>)

  /** The reported errors, and a copy outside the buffer. */
  datatype Fault = AlreadyProcessed | Misplaced | OutOfRange

  /** Memory shared by both sides, their program counters, and the history: messages in the
    order they were produced, how many were pushed, popped and finished, the stream of all
    published bytes, how many were released, and what the consumer got. */
  datatype State = State(
    slots: seq<FaultTask>, qHead: nat, qTail: nat,
    data: seq<Byte>, bHead: nat, bTail: nat, working: bool,
    producer: Producer, consumer: Consumer, faults: set<Fault>,
    log: seq<Message>, pushed: nat, popped: nat, finished: nat,
    stream: seq<Byte>, freed: nat, received: seq<(FaultTask, seq<Byte>)>)

  datatype Step =
    | CopyIn(task: FaultTask, payload: seq<Byte>)
    | PublishBytes
    | StartRead(task: FaultTask)
    | WriteSlot
    | PublishTask
    | Abandon
    | Stop
    | TakeTask
    | ReleaseSlot
    | Fetch
    | ReleaseBytes

  predicate Shaped(s: State)
  {
    |s.slots| == QUEUE_SIZE && |s.data| == BUFFER_SIZE && s.qTail < QUEUE_SIZE && s.qHead < QUEUE_SIZE && s.bHead < BUFFER_SIZE
  }

  predicate Init(s: State)
  {
    && Shaped(s) && s.qHead == s.qTail == 0 && s.bHead == s.bTail == 0 && s.working
    && s.producer == Idle && s.consumer == Waiting && s.faults == {}
    && s.log == [] && s.pushed == s.popped == s.finished == 0 && s.stream == [] && s.freed == 0 && s.received == []
  }

  predicate Enabled(s: State, step: Step)
  {
    Shaped(s) &&
    match step
    case CopyIn(task, payload) =>
      && s.producer.Idle? && s.working && task.kind.EVICTION_NEEDED? && task.size == |payload|
      && !IsBufferFull(s.bHead, s.bTail, |payload|) && |payload| <= BUFFER_SIZE
    case PublishBytes => s.producer.Copied?
    case StartRead(task) => s.producer.Idle? && s.working && task.kind.FAULT_ONLY?
    case WriteSlot => s.producer.Ready? && !IsQueueFull(s.qHead, s.qTail)
    case PublishTask => s.producer.Written?
    case Abandon => s.producer.Ready? && !s.working
    case Stop => true
    case TakeTask => s.consumer.Waiting? && s.qHead != s.qTail
    case ReleaseSlot => s.consumer.Taken?
    case Fetch => s.consumer.Holding?
    case ReleaseBytes => s.consumer.Fetched?
  }

  function Apply(s: State, step: Step): State
    requires Enabled(s, step)
  {
    match step
    case CopyIn(task, payload) =>
      s.(data := Store(s.data, s.bHead, payload), producer := Copied(task.(processed := 0, offset := s.bHead), payload))
    case PublishBytes =>
      s.(bHead := Slot(s.bHead + |s.producer.payload|, BUFFER_SIZE), producer := Ready(s.producer.task),
         log := s.log + [Message(s.producer.task, s.producer.payload, |s.stream|)], stream := s.stream + s.producer.payload)
    case StartRead(task) =>
      var t := task.(processed := 0, offset := 0);
      s.(producer := Ready(t), log := s.log + [Message(t, [], |s.stream|)])
    case WriteSlot =>
      s.(slots := s.slots[s.qTail := s.producer.task.(processed := 0)], producer := Written(s.producer.task))
    case PublishTask =>
      s.(qTail := Slot(s.qTail + 1, QUEUE_SIZE), producer := Idle, pushed := s.pushed + 1)
    case Abandon => s.(producer := Idle)
    case Stop => s.(working := false)
    case TakeTask =>
      var t := s.slots[s.qHead];
      if t.processed != 0 then s.(faults := s.faults + {AlreadyProcessed}) else s.(consumer := Taken(t))
    case ReleaseSlot =>
      s.(qHead := Slot(s.qHead + 1, QUEUE_SIZE), consumer := Holding(s.consumer.task), popped := s.popped + 1)
    case Fetch =>
      var t := s.consumer.task;
      if t.kind.FAULT_ONLY? then
        s.(consumer := Waiting, finished := s.finished + 1, received := s.received + [(t, [])])
      else if t.offset >= BUFFER_SIZE || t.size > BUFFER_SIZE then
        s.(faults := s.faults + {OutOfRange})
      else
        s.(consumer := Fetched(t, Load(s.data, t.offset, t.size)),
           faults := if t.offset != s.bTail then s.faults + {Misplaced} else s.faults)
    case ReleaseBytes =>
      var t := s.consumer.task;
      s.(bTail := Slot(s.bTail + t.size, BUFFER_SIZE), consumer := Waiting, finished := s.finished + 1,
         freed := s.freed + t.size, received := s.received + [(t, s.consumer.bytes)])
  }

  // ----- invariant ----------------------------------------------------------------

  /** The ring holds messages popped .. pushed - 1. */
  predicate QueueOk(slots: seq<FaultTask>, qHead: nat, qTail: nat, log: seq<Message>, popped: nat, pushed: nat)
  {
    && |slots| == QUEUE_SIZE && popped <= pushed <= |log| && pushed - popped <= QUEUE_SIZE - 1
    && qHead == Slot(popped, QUEUE_SIZE) && qTail == Slot(pushed, QUEUE_SIZE)
    && (forall k :: popped <= k < pushed ==> slots[Slot(k, QUEUE_SIZE)] == log[k].task)
  }

  /** Where message k starts in the stream. */
  function Start(log: seq<Message>, stream: seq<Byte>, k: nat): nat
  {
    if k < |log| then log[k].start else |stream|
  }

  predicate MessageOk(log: seq<Message>, stream: seq<Byte>, k: nat)
    requires k < |log|
  {
    var m := log[k];
    && m.start + |m.payload| <= |stream| && stream[m.start..m.start + |m.payload|] == m.payload
    && Start(log, stream, k + 1) == m.start + |m.payload|
    && m.task.processed == 0
    && (if m.task.kind.FAULT_ONLY? then m.payload == [] else m.task.size == |m.payload| && m.task.offset == Slot(m.start, BUFFER_SIZE))
  }

  predicate LogOk(log: seq<Message>, stream: seq<Byte>)
  {
    forall k :: 0 <= k < |log| ==> MessageOk(log, stream, k)
  }

  /** The buffer holds the bytes freed .. |stream| - 1 of the stream. */
  predicate BytesOk(data: seq<Byte>, bHead: nat, bTail: nat, stream: seq<Byte>, freed: nat)
  {
    && |data| == BUFFER_SIZE && freed <= |stream| && |stream| - freed < BUFFER_SIZE - 1
    && bHead == Slot(|stream|, BUFFER_SIZE) && bTail == Slot(freed, BUFFER_SIZE)
    && (forall p :: freed <= p < |stream| ==> data[Slot(p, BUFFER_SIZE)] == stream[p])
  }

  predicate ProducerOk(p: Producer, working: bool, log: seq<Message>, pushed: nat, slots: seq<FaultTask>, popped: nat, data: seq<Byte>, stream: seq<Byte>, freed: nat)
    requires |slots| == QUEUE_SIZE && |data| == BUFFER_SIZE && popped <= pushed <= |log| && freed <= |stream|
  {
    match p
    case Idle => |log| == pushed || (!working && |log| == pushed + 1)
    case Copied(t, payload) =>
      && |log| == pushed && t.kind.EVICTION_NEEDED? && t.size == |payload| && t.processed == 0
      && t.offset == Slot(|stream|, BUFFER_SIZE) && |stream| - freed + |payload| < BUFFER_SIZE - 1
      && (forall i :: 0 <= i < |payload| ==> data[Slot(|stream| + i, BUFFER_SIZE)] == payload[i])
    case Ready(t) => |log| == pushed + 1 && log[pushed].task == t
    case Written(t) =>
      && |log| == pushed + 1 && log[pushed].task == t
      && pushed - popped < QUEUE_SIZE - 1 && slots[Slot(pushed, QUEUE_SIZE)] == t
  }

  predicate ConsumerOk(c: Consumer, log: seq<Message>, pushed: nat, popped: nat, finished: nat)
    requires popped <= pushed <= |log|
  {
    match c
    case Waiting => finished == popped
    case Taken(t) => finished == popped < pushed && log[popped].task == t
    case Holding(t) => finished + 1 == popped && log[finished].task == t
    case Fetched(t, bytes) => finished + 1 == popped && log[finished].task == t && t.kind.EVICTION_NEEDED? && bytes == log[finished].payload
  }

  predicate ReceivedOk(received: seq<(FaultTask, seq<Byte>)>, log: seq<Message>, finished: nat)
  {
    && |received| == finished <= |log|
    && forall k :: 0 <= k < finished ==> received[k] == (log[k].task, log[k].payload)
  }

  predicate Inv(s: State)
  {
    && QueueOk(s.slots, s.qHead, s.qTail, s.log, s.popped, s.pushed)
    && LogOk(s.log, s.stream)
    && BytesOk(s.data, s.bHead, s.bTail, s.stream, s.freed)
    && s.freed == Start(s.log, s.stream, s.finished)
    && ProducerOk(s.producer, s.working, s.log, s.pushed, s.slots, s.popped, s.data, s.stream, s.freed)
    && ConsumerOk(s.consumer, s.log, s.pushed, s.popped, s.finished)
    && ReceivedOk(s.received, s.log, s.finished)
    && s.faults == {}
  }

  lemma InitInv(s: State)
    requires Init(s)
    ensures Inv(s)
  {
  }

  // ----- positions ----------------------------------------------------------------

  lemma NextSlot(p: nat, n: nat)
    requires n > 1
    ensures Slot(Slot(p, n) + 1, n) == Slot(p + 1, n)
  {
    SlotShift(p, 1, n);
  }

  lemma QueueFullIff(popped: nat, pushed: nat)
    requires popped <= pushed && pushed - popped <= QUEUE_SIZE - 1
    ensures IsQueueFull(Slot(popped, QUEUE_SIZE), Slot(pushed, QUEUE_SIZE)) <==> pushed - popped == QUEUE_SIZE - 1
    ensures Slot(popped, QUEUE_SIZE) == Slot(pushed, QUEUE_SIZE) <==> popped == pushed
  {
  }

  lemma WholeTurn(p: nat, n: nat)
    requires n > 0
    ensures Slot(p + n, n) == Slot(p, n)
  {
    var k, r := p / n, p % n;
    assert (k + 1) * n == k * n + n;
    SlotUnique(p + n, n, k + 1, r);
  }

  lemma UsedIs(freed: nat, produced: nat)
    requires freed <= produced < freed + BUFFER_SIZE
    ensures Used(Slot(produced, BUFFER_SIZE), Slot(freed, BUFFER_SIZE)) == produced - freed
  {
  }

  // ----- producer steps -----------------------------------------------------------

  /** Copying in leaves the published bytes alone and puts the payload behind them. */
  lemma StoreBehind(data: seq<Byte>, stream: seq<Byte>, freed: nat, payload: seq<Byte>)
    requires |data| == BUFFER_SIZE && freed <= |stream| && |stream| - freed + |payload| < BUFFER_SIZE
    ensures var after := Store(data, Slot(|stream|, BUFFER_SIZE), payload);
            && (forall p :: freed <= p < |stream| ==> after[Slot(p, BUFFER_SIZE)] == data[Slot(p, BUFFER_SIZE)])
            && (forall i :: 0 <= i < |payload| ==> after[Slot(|stream| + i, BUFFER_SIZE)] == payload[i])
  {
    hide Store, Slot;
    var n, h := |stream|, Slot(|stream|, BUFFER_SIZE);
    var after := Store(data, h, payload);
    forall p | freed <= p < n ensures after[Slot(p, BUFFER_SIZE)] == data[Slot(p, BUFFER_SIZE)] {
      StoreAt(data, h, payload, p + BUFFER_SIZE - n);
      SlotShift(n, p + BUFFER_SIZE - n, BUFFER_SIZE);
      WholeTurn(p, BUFFER_SIZE);
    }
    forall i | 0 <= i < |payload| ensures after[Slot(n + i, BUFFER_SIZE)] == payload[i] {
      StoreAt(data, h, payload, i);
      SlotShift(n, i, BUFFER_SIZE);
    }
  }

  lemma CopyInKeepsInv(s: State, task: FaultTask, payload: seq<Byte>)
    requires Inv(s) && Enabled(s, CopyIn(task, payload))
    ensures Inv(Apply(s, CopyIn(task, payload)))
  {
    hide Slot, Store, QueueOk, LogOk, ConsumerOk, ReceivedOk, IsBufferFull, Used;
    UsedIs(s.freed, |s.stream|);
    FullIff(s.bHead, s.bTail, |payload|);
    StoreBehind(s.data, s.stream, s.freed, payload);
  }

  lemma LogAppend(log: seq<Message>, stream: seq<Byte>, m: Message)
    requires LogOk(log, stream) && m.start == |stream| && m.task.processed == 0
    requires if m.task.kind.FAULT_ONLY? then m.payload == []
             else m.task.size == |m.payload| && m.task.offset == Slot(m.start, BUFFER_SIZE)
    ensures LogOk(log + [m], stream + m.payload)
    ensures forall k :: 0 <= k <= |log| ==> Start(log + [m], stream + m.payload, k) == Start(log, stream, k)
  {
    hide Slot;
    forall k | 0 <= k < |log| ensures MessageOk(log + [m], stream + m.payload, k) {
      assert MessageOk(log, stream, k);
      var w := log[k];
      assert (stream + m.payload)[w.start..w.start + |w.payload|] == stream[w.start..w.start + |w.payload|];
    }
    assert (stream + m.payload)[m.start..m.start + |m.payload|] == m.payload;
  }

  /** What refers to messages already produced does not see a new one. */
  lemma AppendFrame(s: State, m: Message)
    requires QueueOk(s.slots, s.qHead, s.qTail, s.log, s.popped, s.pushed)
    requires ConsumerOk(s.consumer, s.log, s.pushed, s.popped, s.finished) && ReceivedOk(s.received, s.log, s.finished)
    ensures QueueOk(s.slots, s.qHead, s.qTail, s.log + [m], s.popped, s.pushed)
    ensures ConsumerOk(s.consumer, s.log + [m], s.pushed, s.popped, s.finished) && ReceivedOk(s.received, s.log + [m], s.finished)
  {
  }

  lemma BytesAppend(data: seq<Byte>, bHead: nat, bTail: nat, stream: seq<Byte>, freed: nat, payload: seq<Byte>)
    requires BytesOk(data, bHead, bTail, stream, freed) && |stream| - freed + |payload| < BUFFER_SIZE - 1
    requires forall i :: 0 <= i < |payload| ==> data[Slot(|stream| + i, BUFFER_SIZE)] == payload[i]
    ensures BytesOk(data, Slot(bHead + |payload|, BUFFER_SIZE), bTail, stream + payload, freed)
  {
    hide Slot;
    SlotShift(|stream|, |payload|, BUFFER_SIZE);
    forall p | |stream| <= p < |stream + payload| ensures data[Slot(p, BUFFER_SIZE)] == (stream + payload)[p] {
      var i := p - |stream|;
      assert data[Slot(|stream| + i, BUFFER_SIZE)] == payload[i];
    }
  }

  lemma PublishBytesKeepsInv(s: State)
    requires Inv(s) && Enabled(s, PublishBytes)
    ensures Inv(Apply(s, PublishBytes))
  {
    hide Slot, LogOk, Start, QueueOk, ConsumerOk, ReceivedOk, BytesOk;
    var m := Message(s.producer.task, s.producer.payload, |s.stream|);
    QueueShape(s);
    BytesAppend(s.data, s.bHead, s.bTail, s.stream, s.freed, m.payload);
    LogAppend(s.log, s.stream, m);
    AppendFrame(s, m);
  }

  lemma QueueShape(s: State)
    requires Inv(s)
    ensures s.popped <= s.pushed <= |s.log| && s.finished <= |s.log| && s.freed <= |s.stream|
    ensures |s.slots| == QUEUE_SIZE && |s.data| == BUFFER_SIZE
  {
  }

  lemma StartReadKeepsInv(s: State, task: FaultTask)
    requires Inv(s) && Enabled(s, StartRead(task))
    ensures Inv(Apply(s, StartRead(task)))
  {
    hide Slot, LogOk, BytesOk, Start;
    LogAppend(s.log, s.stream, Message(task.(processed := 0, offset := 0), [], |s.stream|));
    assert s.stream + [] == s.stream;
  }

  lemma WriteSlotKeepsInv(s: State)
    requires Inv(s) && Enabled(s, WriteSlot)
    ensures Inv(Apply(s, WriteSlot))
  {
    hide Slot, BytesOk, ConsumerOk, ReceivedOk, IsQueueFull;
    QueueFullIff(s.popped, s.pushed);
    assert MessageOk(s.log, s.stream, s.pushed);
    forall k | s.popped <= k < s.pushed ensures Slot(k, QUEUE_SIZE) != s.qTail {
      SlotDistinct(k, s.pushed, QUEUE_SIZE);
    }
  }

  lemma PublishTaskKeepsInv(s: State)
    requires Inv(s) && Enabled(s, PublishTask)
    ensures Inv(Apply(s, PublishTask))
  {
    hide Slot, BytesOk, LogOk, ReceivedOk;
    NextSlot(s.pushed, QUEUE_SIZE);
  }

  lemma ProducerStopsKeepsInv(s: State, step: Step)
    requires Inv(s) && Enabled(s, step) && (step.Abandon? || step.Stop?)
    ensures Inv(Apply(s, step))
  {
  }

  // ----- consumer steps -----------------------------------------------------------

  lemma TakeTaskKeepsInv(s: State)
    requires Inv(s) && Enabled(s, TakeTask)
    ensures Inv(Apply(s, TakeTask))
  {
    hide Slot, BytesOk, ReceivedOk, ProducerOk;
    QueueFullIff(s.popped, s.pushed);
    assert MessageOk(s.log, s.stream, s.popped);
  }

  lemma ReleaseSlotKeepsInv(s: State)
    requires Inv(s) && Enabled(s, ReleaseSlot)
    ensures Inv(Apply(s, ReleaseSlot))
  {
    hide Slot, BytesOk, LogOk, ReceivedOk;
    NextSlot(s.popped, QUEUE_SIZE);
  }

  /** The oldest unfinished message is read where it was stored. */
  lemma FetchGetsPayload(data: seq<Byte>, bHead: nat, bTail: nat, stream: seq<Byte>, freed: nat, n: nat)
    requires BytesOk(data, bHead, bTail, stream, freed) && freed + n <= |stream|
    ensures Load(data, Slot(freed, BUFFER_SIZE), n) == stream[freed..freed + n]
  {
    hide Slot, Load;
    var bytes := Load(data, Slot(freed, BUFFER_SIZE), n);
    forall i | 0 <= i < n ensures bytes[i] == stream[freed..freed + n][i] {
      LoadAt(data, Slot(freed, BUFFER_SIZE), n, i);
      SlotShift(freed, i, BUFFER_SIZE);
      var p := freed + i;
      assert data[Slot(p, BUFFER_SIZE)] == stream[p];
    }
  }

  lemma FetchKeepsInv(s: State)
    requires Inv(s) && Enabled(s, Fetch)
    ensures Inv(Apply(s, Fetch))
  {
    hide Slot, Load, BytesOk, QueueOk, ProducerOk, LogOk;
    CurrentMessage(s);
    var m := s.log[s.finished];
    if m.task.kind.EVICTION_NEEDED? {
      FetchGetsPayload(s.data, s.bHead, s.bTail, s.stream, s.freed, |m.payload|);
    }
  }

  /** What the consumer holds is the oldest unfinished message, and it lies at the tail. */
  lemma CurrentMessage(s: State)
    requires Inv(s) && (s.consumer.Holding? || s.consumer.Fetched?)
    ensures s.finished < s.popped <= s.pushed <= |s.log| && MessageOk(s.log, s.stream, s.finished)
    ensures s.log[s.finished].task == s.consumer.task && s.log[s.finished].start == s.freed
    ensures |s.stream| - s.freed < BUFFER_SIZE && |s.data| == BUFFER_SIZE && s.bTail == Slot(s.freed, BUFFER_SIZE)
  {
  }

  lemma BytesReleased(data: seq<Byte>, bHead: nat, bTail: nat, stream: seq<Byte>, freed: nat, n: nat)
    requires BytesOk(data, bHead, bTail, stream, freed) && freed + n <= |stream|
    ensures BytesOk(data, bHead, Slot(bTail + n, BUFFER_SIZE), stream, freed + n)
  {
    hide Slot;
    SlotShift(freed, n, BUFFER_SIZE);
  }

  lemma ProducerKeeps(s: State, n: nat)
    requires |s.slots| == QUEUE_SIZE && |s.data| == BUFFER_SIZE && s.popped <= s.pushed <= |s.log| && s.freed + n <= |s.stream|
    requires ProducerOk(s.producer, s.working, s.log, s.pushed, s.slots, s.popped, s.data, s.stream, s.freed)
    ensures ProducerOk(s.producer, s.working, s.log, s.pushed, s.slots, s.popped, s.data, s.stream, s.freed + n)
  {
    hide Slot;
  }

  lemma ReleaseBytesKeepsInv(s: State)
    requires Inv(s) && Enabled(s, ReleaseBytes)
    ensures Inv(Apply(s, ReleaseBytes))
  {
    hide Slot, QueueOk, LogOk, BytesOk, ProducerOk;
    QueueShape(s);
    CurrentMessage(s);
    var n := s.consumer.task.size;
    assert s.freed + n == Start(s.log, s.stream, s.finished + 1) <= |s.stream|;
    hide MessageOk;
    BytesReleased(s.data, s.bHead, s.bTail, s.stream, s.freed, n);
    ProducerKeeps(s, n);
  }

  // ----- runs ---------------------------------------------------------------------

  lemma StepKeepsInv(s: State, step: Step)
    requires Inv(s) && Enabled(s, step)
    ensures Inv(Apply(s, step))
  {
    hide Inv, Enabled, Apply;
    match step
    case CopyIn(task, payload) => CopyInKeepsInv(s, task, payload);
    case PublishBytes => PublishBytesKeepsInv(s);
    case StartRead(task) => StartReadKeepsInv(s, task);
    case WriteSlot => WriteSlotKeepsInv(s);
    case PublishTask => PublishTaskKeepsInv(s);
    case Abandon => ProducerStopsKeepsInv(s, step);
    case Stop => ProducerStopsKeepsInv(s, step);
    case TakeTask => TakeTaskKeepsInv(s);
    case ReleaseSlot => ReleaseSlotKeepsInv(s);
    case Fetch => FetchKeepsInv(s);
    case ReleaseBytes => ReleaseBytesKeepsInv(s);
  }

  /** s' follows from s by these steps. */
  predicate Runs(s: State, steps: seq<Step>, s': State)
    decreases |steps|
  {
    if steps == [] then s == s' else Enabled(s, steps[0]) && Runs(Apply(s, steps[0]), steps[1..], s')
  }

  lemma {:induction false} RunKeepsInv(s: State, steps: seq<Step>, s': State)
    requires Inv(s) && Runs(s, steps, s')
    ensures Inv(s')
    decreases |steps|
  {
    hide Inv, Enabled, Apply;
    if steps != [] {
      StepKeepsInv(s, steps[0]);
      RunKeepsInv(Apply(s, steps[0]), steps[1..], s');
    }
  }

  // ----- what the producer was given ----------------------------------------------

  /** The task and payload a step hands to the producer, if it is such a step. */
  function GivenBy(step: Step): seq<(FaultTask, seq<Byte>)>
  {
    match step
    case CopyIn(task, payload) => [(task, payload)]
    case StartRead(task) => [(task, [])]
    case _ => []
  }

  /** Everything the producer was given in a run, in order: read off the steps alone. */
  function Given(steps: seq<Step>): seq<(FaultTask, seq<Byte>)>
  {
    if steps == [] then [] else GivenBy(steps[0]) + Given(steps[1..])
  }

  /** The same task, apart from the two fields the driver fills in. */
  predicate SameTask(a: FaultTask, b: FaultTask)
  {
    b == a.(processed := b.processed, offset := b.offset)
  }

  /** The log is what was given; a copy that is not published yet is still in the producer. */
  ghost predicate LogsGiven(s: State, given: seq<(FaultTask, seq<Byte>)>)
  {
    && |given| == |s.log| + (if s.producer.Copied? then 1 else 0)
    && (forall k :: 0 <= k < |s.log| ==> SameTask(given[k].0, s.log[k].task) && s.log[k].payload == given[k].1)
    && (s.producer.Copied? ==> SameTask(given[|s.log|].0, s.producer.task) && s.producer.payload == given[|s.log|].1)
  }

  lemma StepLogsGiven(s: State, step: Step, given: seq<(FaultTask, seq<Byte>)>)
    requires LogsGiven(s, given) && Enabled(s, step)
    ensures LogsGiven(Apply(s, step), given + GivenBy(step))
  {
    hide Slot, Store, Load, IsBufferFull, IsQueueFull;
  }

  lemma {:induction false} RunLogsGiven(s: State, steps: seq<Step>, s': State, given: seq<(FaultTask, seq<Byte>)>)
    requires LogsGiven(s, given) && Runs(s, steps, s')
    ensures LogsGiven(s', given + Given(steps))
    decreases |steps|
  {
    hide LogsGiven, Enabled, Apply, GivenBy;
    if steps == [] {
      assert given + Given(steps) == given;
    } else {
      StepLogsGiven(s, steps[0], given);
      RunLogsGiven(Apply(s, steps[0]), steps[1..], s', given + GivenBy(steps[0]));
      assert given + GivenBy(steps[0]) + Given(steps[1..]) == given + Given(steps);
    }
  }

  lemma FromInit(s: State, steps: seq<Step>, s': State)
    requires Init(s) && Runs(s, steps, s')
    ensures Inv(s') && LogsGiven(s', Given(steps))
  {
    hide Runs;
    InitInv(s);
    RunKeepsInv(s, steps, s');
    RunLogsGiven(s, steps, s', []);
    assert [] + Given(steps) == Given(steps);
  }

  // ----- what every interleaving delivers -----------------------------------------

  /** The consumer got an initial part of what was given, each task with its own bytes. */
  ghost predicate Delivers(received: seq<(FaultTask, seq<Byte>)>, given: seq<(FaultTask, seq<Byte>)>)
  {
    |received| <= |given| && forall k :: 0 <= k < |received| ==> SameTask(given[k].0, received[k].0) && received[k].1 == given[k].1
  }

  lemma ReceivedWasGiven(s: State, given: seq<(FaultTask, seq<Byte>)>)
    requires Inv(s) && LogsGiven(s, given)
    ensures Delivers(s.received, given) && |s.received| <= |s.log|
  {
    hide QueueOk, LogOk, BytesOk, ProducerOk, ConsumerOk;
  }

  /** The two rings stay paired in every interleaving: no error is ever reported, and what the
    consumer got is an initial part of what the steps gave the producer, each task with its own
    bytes. */
  lemma RingsStayPaired(s: State, steps: seq<Step>, s': State)
    requires Init(s) && Runs(s, steps, s')
    ensures s'.faults == {}
    ensures Delivers(s'.received, Given(steps))
  {
    hide Runs, QueueOk, LogOk, BytesOk, ProducerOk, ConsumerOk, ReceivedOk, LogsGiven;
    FromInit(s, steps, s');
    ReceivedWasGiven(s', Given(steps));
  }

  /** A data-carrying task the consumer is about to copy points at the ring's tail, and there lie
    the bytes that were given with it. */
  lemma OffsetIsTail(s: State, steps: seq<Step>, s': State)
    requires Init(s) && Runs(s, steps, s') && s'.consumer.Holding? && s'.consumer.task.kind.EVICTION_NEEDED?
    ensures s'.consumer.task.offset == s'.bTail
    ensures s'.consumer.task.size <= BUFFER_SIZE && s'.bTail < BUFFER_SIZE
    ensures |s'.received| < |Given(steps)| && |s'.data| == BUFFER_SIZE
    ensures SameTask(Given(steps)[|s'.received|].0, s'.consumer.task)
    ensures Load(s'.data, s'.bTail, s'.consumer.task.size) == Given(steps)[|s'.received|].1
  {
    hide Runs, Given;
    FromInit(s, steps, s');
    CurrentMessage(s');
    FetchGetsPayload(s'.data, s'.bHead, s'.bTail, s'.stream, s'.freed, |s'.log[s'.finished].payload|);
  }

  /** With the producer idle and the driver working, everything given was pushed; with the queue
    empty and the consumer waiting, everything pushed was received and no byte is left. */
  lemma DrainedMeansDelivered(s: State, steps: seq<Step>, s': State)
    requires Init(s) && Runs(s, steps, s')
    requires s'.producer == Idle && s'.working && s'.consumer == Waiting && s'.qHead == s'.qTail
    ensures |s'.received| == |Given(steps)| && Delivers(s'.received, Given(steps))
    ensures s'.bHead == s'.bTail && s'.freed == |s'.stream|
  {
    hide Runs, Given;
    FromInit(s, steps, s');
    ReceivedWasGiven(s', Given(steps));
    QueueFullIff(s'.popped, s'.pushed);
  }
}
