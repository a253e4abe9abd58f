/** The shared task ring and byte ring between the kernel and user space. */
module Rings {
  import opened Basics

  const QUEUE_SIZE := 896
  const BUFFER_SIZE := 3584 * 1024
  const TWO_32 := 0x1_0000_0000

  datatype FaultType = FAULT_ONLY | EVICTION_NEEDED

  datatype FaultTask = FaultTask(req: nat, faultVa: nat, processed: nat, kind: FaultType, offset: nat, pfn: nat, size: nat, opIndex: nat)

  // ----- modular positions --------------------------------------------------------

  /** The slot of a position that counts on without wrapping. */
  function Slot(p: nat, n: nat): (s: nat)
    requires n > 0
    ensures s < n
  {
    p % n
  }

  lemma SmallMultiple(d: int, n: nat)
    requires -(n as int) < d * n < n
    ensures d == 0
  {
  }

  lemma SlotUnique(x: nat, n: nat, k: nat, r: nat)
    requires n > 0 && x == k * n + r && r < n
    ensures Slot(x, n) == r
  {
    var d := x / n - k;
    assert d * n == r - x % n;
    SmallMultiple(d, n);
  }

  /** Stepping on by less than a turn wraps at most once. */
  lemma SlotAdd(p: nat, i: nat, n: nat)
    requires n > 0 && i < n
    ensures Slot(p + i, n) == if Slot(p, n) + i < n then Slot(p, n) + i else Slot(p, n) + i - n
  {
    var k, r := p / n, p % n;
    if r + i < n {
      SlotUnique(p + i, n, k, r + i);
    } else {
      assert (k + 1) * n == k * n + n;
      SlotUnique(p + i, n, k + 1, r + i - n);
    }
  }

  lemma SlotSmall(p: nat, n: nat)
    requires p < n
    ensures Slot(p, n) == p
  {
  }

  /** From a slot as from the position it stands for. */
  lemma SlotShift(p: nat, i: nat, n: nat)
    requires n > 0
    ensures Slot(Slot(p, n) + i, n) == Slot(p + i, n)
  {
    var k, r := p / n, p % n;
    var d, e := (r + i) / n, (r + i) % n;
    assert (k + d) * n == k * n + d * n;
    SlotUnique(p + i, n, k + d, e);
  }

  /** Different positions less than a whole turn apart use different slots. */
  lemma SlotDistinct(p: nat, q: nat, n: nat)
    requires n > 0 && p < q < p + n
    ensures Slot(p, n) != Slot(q, n)
  {
    SlotAdd(p, q - p, n);
  }

  // ----- task ring ----------------------------------------------------------------

  predicate IsQueueFull(head: nat, tail: nat)
  {
    Slot(tail + 1, QUEUE_SIZE) == head
  }

  /** Number of tasks between head and tail. */
  function Count(head: nat, tail: nat): nat
    requires head < QUEUE_SIZE && tail < QUEUE_SIZE
  {
    if tail >= head then tail - head else tail + QUEUE_SIZE - head
  }

  lemma CountSpec(head: nat, tail: nat)
    requires head < QUEUE_SIZE && tail < QUEUE_SIZE
    ensures Count(head, tail) <= QUEUE_SIZE - 1
    ensures IsQueueFull(head, tail) <==> Count(head, tail) == QUEUE_SIZE - 1
    ensures head == tail <==> Count(head, tail) == 0
    ensures !IsQueueFull(head, tail) ==> Count(head, Slot(tail + 1, QUEUE_SIZE)) == Count(head, tail) + 1
    ensures head != tail ==> Count(Slot(head + 1, QUEUE_SIZE), tail) == Count(head, tail) - 1
    ensures Slot(head + Count(head, tail), QUEUE_SIZE) == tail
  {
  }

  /** The tasks in the ring, oldest first. */
  function Tasks(buffer: seq<FaultTask>, head: nat, count: nat): (r: seq<FaultTask>)
    requires |buffer| == QUEUE_SIZE
    ensures |r| == count
  {
    seq(count, i requires 0 <= i < count => buffer[Slot(head + i, QUEUE_SIZE)])
  }

  lemma TasksPush(buffer: seq<FaultTask>, head: nat, tail: nat, task: FaultTask)
    requires |buffer| == QUEUE_SIZE && head < QUEUE_SIZE && tail < QUEUE_SIZE && !IsQueueFull(head, tail)
    ensures Tasks(buffer[tail := task], head, Count(head, tail) + 1) == Tasks(buffer, head, Count(head, tail)) + [task]
  {
    hide Slot;
    CountSpec(head, tail);
    var n := Count(head, tail);
    var after := buffer[tail := task];
    forall i | 0 <= i < n + 1 ensures Tasks(after, head, n + 1)[i] == (Tasks(buffer, head, n) + [task])[i] {
      if i < n {
        SlotDistinct(head + i, head + n, QUEUE_SIZE);
      }
    }
  }

  lemma TasksPop(buffer: seq<FaultTask>, head: nat, count: nat)
    requires |buffer| == QUEUE_SIZE && head < QUEUE_SIZE && count >= 1
    ensures Tasks(buffer, head, count)[0] == buffer[head]
    ensures Tasks(buffer, Slot(head + 1, QUEUE_SIZE), count - 1) == Tasks(buffer, head, count)[1..]
  {
    hide Slot;
    SlotSmall(head, QUEUE_SIZE);
    var h := Slot(head + 1, QUEUE_SIZE);
    forall i | 0 <= i < count - 1 ensures Tasks(buffer, h, count - 1)[i] == Tasks(buffer, head, count)[1..][i] {
      SlotShift(head + 1, i, QUEUE_SIZE);
      assert head + 1 + i == head + (i + 1);
    }
  }

  class FaultQueue {
    const buffer: array<FaultTask>
    var head: nat
    var tail: nat

    ghost predicate Valid()
      reads this, buffer
    {
      && buffer.Length == QUEUE_SIZE && head < QUEUE_SIZE && tail < QUEUE_SIZE
      && forall i :: 0 <= i < |Contents()| ==> Contents()[i].processed == 0
    }

    ghost function Contents(): seq<FaultTask>
      reads this, buffer
      requires buffer.Length == QUEUE_SIZE && head < QUEUE_SIZE && tail < QUEUE_SIZE
    {
      Tasks(buffer[..], head, Count(head, tail))
    }

    constructor (empty: FaultTask)
      ensures Valid() && Contents() == [] && fresh(buffer)
    {
      buffer := new FaultTask[QUEUE_SIZE](i => empty);
      head, tail := 0, 0;
    }

    /** `push_task`: refused exactly when QUEUE_SIZE - 1 tasks are queued. */
    method Push(task: FaultTask) returns (ok: bool)
      requires Valid()
      modifies this, buffer
      ensures Valid() && head == old(head)
      ensures ok <==> |old(Contents())| < QUEUE_SIZE - 1
      ensures Contents() == if ok then old(Contents()) + [task.(processed := 0)] else old(Contents())
    {
      hide Slot, Tasks, Count, IsQueueFull;
      CountSpec(head, tail);
      if IsQueueFull(head, tail) {
        return false;
      }
      TasksPush(buffer[..], head, tail, task.(processed := 0));
      ghost var before := buffer[..];
      buffer[tail] := task.(processed := 0);
      assert buffer[..] == before[tail := task.(processed := 0)];
      tail := Slot(tail + 1, QUEUE_SIZE);
      assert Contents() == old(Contents()) + [task.(processed := 0)];
      return true;
    }

    /** `pop_task`: the oldest task; the branch for an already processed one is never taken. */
    method Pop() returns (r: Option<FaultTask>)
      requires Valid()
      modifies this
      ensures Valid() && tail == old(tail)
      ensures r.None? <==> old(Contents()) == []
      ensures r.None? ==> Contents() == old(Contents())
      ensures r.Some? ==> r.value == old(Contents())[0] && Contents() == old(Contents())[1..]
    {
      hide Slot, Tasks, Count;
      CountSpec(head, tail);
      if head == tail {
        return None;
      }
      TasksPop(buffer[..], head, Count(head, tail));
      assert Contents()[0].processed == 0;
      var task := buffer[head];
      if task.processed != 0 {
        assert false;
        return None;
      }
      head := Slot(head + 1, QUEUE_SIZE);
      return Some(task);
    }
  }

  // ----- byte ring ----------------------------------------------------------------

  type Byte = bv8

  /** 32-bit unsigned arithmetic. */
  function U32(x: int): nat
  {
    x % TWO_32
  }

  /** `is_buffer_full`, with its subtractions on unsigned words. */
  predicate IsBufferFull(head: nat, tail: nat, size: nat)
  {
    var available :=
      if head == tail then BUFFER_SIZE - 1
      else if head > tail then U32(U32(BUFFER_SIZE - head) + U32(tail - 1))
      else U32(U32(tail - head) - 1);
    size >= available
  }

  /** Bytes between tail and head. */
  function Used(head: nat, tail: nat): nat
    requires head < BUFFER_SIZE && tail < BUFFER_SIZE
  {
    if head >= tail then head - tail else head + BUFFER_SIZE - tail
  }

  /** A write is refused exactly when it would leave fewer than two free bytes, also where the
    unsigned subtraction wraps at tail zero. */
  lemma FullIff(head: nat, tail: nat, size: nat)
    requires head < BUFFER_SIZE && tail < BUFFER_SIZE
    ensures IsBufferFull(head, tail, size) <==> Used(head, tail) + size >= BUFFER_SIZE - 1
    ensures Used(head, tail) == 0 <==> head == tail
  {
    hide U32;
    U32Value(BUFFER_SIZE - head);
    U32Value(tail - 1);
    U32Value(tail - head);
    U32Value(U32(tail - head) - 1);
    U32Value(U32(BUFFER_SIZE - head) + U32(tail - 1));
  }

  lemma U32Value(x: int)
    ensures 0 <= x < TWO_32 ==> U32(x) == x
    ensures TWO_32 <= x < 2 * TWO_32 ==> U32(x) == x - TWO_32
    ensures -TWO_32 <= x < 0 ==> U32(x) == x + TWO_32
  {
  }

  /** What the one or two copies of `copy_data_to_buffer` leave in the buffer. */
  function Store(data: seq<Byte>, offset: nat, bytes: seq<Byte>): (r: seq<Byte>)
    requires |data| == BUFFER_SIZE && offset < BUFFER_SIZE && |bytes| <= BUFFER_SIZE
    ensures |r| == BUFFER_SIZE
  {
    var first := if |bytes| <= BUFFER_SIZE - offset then |bytes| else BUFFER_SIZE - offset;
    var once := data[..offset] + bytes[..first] + data[offset + first..];
    if |bytes| > first then bytes[first..] + once[|bytes| - first..] else once
  }

  /** What the one or two copies of `copy_data_from_buffer` fetch. */
  function Load(data: seq<Byte>, offset: nat, size: nat): (r: seq<Byte>)
    requires |data| == BUFFER_SIZE && offset < BUFFER_SIZE && size <= BUFFER_SIZE
    ensures |r| == size
  {
    if size < BUFFER_SIZE - offset then data[offset..offset + size]
    else data[offset..] + data[..size - (BUFFER_SIZE - offset)]
  }

  lemma LoadAt(data: seq<Byte>, offset: nat, size: nat, i: nat)
    requires |data| == BUFFER_SIZE && offset < BUFFER_SIZE && i < size <= BUFFER_SIZE
    ensures Load(data, offset, size)[i] == data[Slot(offset + i, BUFFER_SIZE)]
  {
    SlotSmall(offset, BUFFER_SIZE);
    SlotAdd(offset, i, BUFFER_SIZE);
    hide Slot;
  }

  lemma StoreAt(data: seq<Byte>, offset: nat, bytes: seq<Byte>, i: nat)
    requires |data| == BUFFER_SIZE && offset < BUFFER_SIZE && |bytes| <= BUFFER_SIZE && i < BUFFER_SIZE
    ensures Store(data, offset, bytes)[Slot(offset + i, BUFFER_SIZE)] == if i < |bytes| then bytes[i] else data[Slot(offset + i, BUFFER_SIZE)]
  {
    SlotSmall(offset, BUFFER_SIZE);
    SlotAdd(offset, i, BUFFER_SIZE);
    hide Slot;
  }

  /** Fetching what was just stored returns it, however it wrapped. */
  lemma LoadOfStore(data: seq<Byte>, offset: nat, bytes: seq<Byte>)
    requires |data| == BUFFER_SIZE && offset < BUFFER_SIZE && |bytes| <= BUFFER_SIZE
    ensures Load(Store(data, offset, bytes), offset, |bytes|) == bytes
  {
    forall i | 0 <= i < |bytes| ensures Load(Store(data, offset, bytes), offset, |bytes|)[i] == bytes[i] {
      LoadAt(Store(data, offset, bytes), offset, |bytes|, i);
      StoreAt(data, offset, bytes, i);
    }
  }

  lemma StoreAppends(data: seq<Byte>, head: nat, tail: nat, bytes: seq<Byte>)
    requires |data| == BUFFER_SIZE && head < BUFFER_SIZE && tail < BUFFER_SIZE && Used(head, tail) + |bytes| < BUFFER_SIZE
    ensures var n := Used(head, tail);
            && Used(Slot(head + |bytes|, BUFFER_SIZE), tail) == n + |bytes|
            && Load(Store(data, head, bytes), tail, n + |bytes|) == Load(data, tail, n) + bytes
  {
    hide Store, Load, Slot;
    var n, after := Used(head, tail), Store(data, head, bytes);
    HeadIsTailPlusUsed(head, tail);
    HeadMoves(head, tail, |bytes|);
    forall i | 0 <= i < n + |bytes| ensures Load(after, tail, n + |bytes|)[i] == (Load(data, tail, n) + bytes)[i] {
      LoadAt(after, tail, n + |bytes|, i);
      if i < n {
        LoadAt(data, tail, n, i);
        KeptByte(data, head, tail, bytes, i);
      } else {
        StoreAt(data, head, bytes, i - n);
        SlotShift(tail + n, i - n, BUFFER_SIZE);
      }
    }
  }

  lemma HeadIsTailPlusUsed(head: nat, tail: nat)
    requires head < BUFFER_SIZE && tail < BUFFER_SIZE
    ensures Slot(tail + Used(head, tail), BUFFER_SIZE) == head
  {
  }

  lemma HeadMoves(head: nat, tail: nat, size: nat)
    requires head < BUFFER_SIZE && tail < BUFFER_SIZE && Used(head, tail) + size < BUFFER_SIZE
    ensures Used(Slot(head + size, BUFFER_SIZE), tail) == Used(head, tail) + size
  {
  }

  lemma TailMoves(head: nat, tail: nat, size: nat)
    requires head < BUFFER_SIZE && tail < BUFFER_SIZE && size <= Used(head, tail)
    ensures Used(head, Slot(tail + size, BUFFER_SIZE)) == Used(head, tail) - size
  {
  }

  /** A byte still in use is not overwritten. */
  lemma KeptByte(data: seq<Byte>, head: nat, tail: nat, bytes: seq<Byte>, i: nat)
    requires |data| == BUFFER_SIZE && head < BUFFER_SIZE && tail < BUFFER_SIZE && Used(head, tail) + |bytes| < BUFFER_SIZE
    requires i < Used(head, tail)
    ensures Store(data, head, bytes)[Slot(tail + i, BUFFER_SIZE)] == data[Slot(tail + i, BUFFER_SIZE)]
  {
    hide Slot, Store;
    var k := BUFFER_SIZE - (Used(head, tail) - i);
    SlotSmall(tail, BUFFER_SIZE);
    SlotSmall(head, BUFFER_SIZE);
    SlotAdd(tail, i, BUFFER_SIZE);
    SlotAdd(head, k, BUFFER_SIZE);
    StoreAt(data, head, bytes, k);
  }

  lemma LoadSplits(data: seq<Byte>, head: nat, tail: nat, size: nat)
    requires |data| == BUFFER_SIZE && head < BUFFER_SIZE && tail < BUFFER_SIZE && size <= Used(head, tail)
    ensures var n, tail' := Used(head, tail), Slot(tail + size, BUFFER_SIZE);
            && Used(head, tail') == n - size
            && Load(data, tail, n) == Load(data, tail, size) + Load(data, tail', n - size)
  {
    hide Load, Slot;
    var n, tail' := Used(head, tail), Slot(tail + size, BUFFER_SIZE);
    TailMoves(head, tail, size);
    forall i | 0 <= i < n ensures Load(data, tail, n)[i] == (Load(data, tail, size) + Load(data, tail', n - size))[i] {
      LoadAt(data, tail, n, i);
      if i < size {
        LoadAt(data, tail, size, i);
      } else {
        LoadAt(data, tail', n - size, i - size);
        SlotShift(tail + size, i - size, BUFFER_SIZE);
      }
    }
  }

  lemma TakePrefix(data: seq<Byte>, head: nat, tail: nat, size: nat)
    requires |data| == BUFFER_SIZE && head < BUFFER_SIZE && tail < BUFFER_SIZE && size <= Used(head, tail)
    ensures var all, tail' := Load(data, tail, Used(head, tail)), Slot(tail + size, BUFFER_SIZE);
            Load(data, tail, size) == all[..size] && Load(data, tail', Used(head, tail')) == all[size..]
  {
    hide Load, Slot;
    LoadSplits(data, head, tail, size);
  }

  class FaultBuffer {
    const dataBuf: array<Byte>
    var head: nat
    var tail: nat

    ghost predicate Valid()
      reads this
    {
      dataBuf.Length == BUFFER_SIZE && head < BUFFER_SIZE && tail < BUFFER_SIZE
    }

    ghost function Contents(): seq<Byte>
      reads this, dataBuf
      requires Valid()
    {
      Load(dataBuf[..], tail, Used(head, tail))
    }

    constructor ()
      ensures Valid() && Contents() == [] && fresh(dataBuf)
    {
      dataBuf := new Byte[BUFFER_SIZE];
      head, tail := 0, 0;
    }

    /** `copy_data_to_buffer`: the offset of the copied bytes, none when the ring is too full. */
    method CopyTo(bytes: seq<Byte>) returns (offset: Option<nat>)
      requires Valid()
      modifies this, dataBuf
      ensures Valid() && tail == old(tail)
      ensures offset.Some? <==> |old(Contents())| + |bytes| < BUFFER_SIZE - 1
      ensures offset.Some? ==> offset.value == old(head) && Contents() == old(Contents()) + bytes
      ensures offset.None? ==> Contents() == old(Contents())
    {
      hide Slot, Store, Load, IsBufferFull;
      var start := head;
      FullIff(head, tail, |bytes|);
      if IsBufferFull(head, tail, |bytes|) {
        return None;
      }
      StoreAppends(dataBuf[..], head, tail, bytes);
      Write(start, bytes);
      head := Slot(head + |bytes|, BUFFER_SIZE);
      return Some(start);
    }

    /** The copies themselves: up to the end of the buffer, the rest from its beginning. */
    method Write(start: nat, bytes: seq<Byte>)
      requires dataBuf.Length == BUFFER_SIZE && start < BUFFER_SIZE && |bytes| <= BUFFER_SIZE
      modifies dataBuf
      ensures dataBuf[..] == Store(old(dataBuf[..]), start, bytes)
    {
      var first := if |bytes| <= BUFFER_SIZE - start then |bytes| else BUFFER_SIZE - start;
      ghost var before := dataBuf[..];
      forall i | 0 <= i < first {
        dataBuf[start + i] := bytes[i];
      }
      ghost var once := dataBuf[..];
      assert once == before[..start] + bytes[..first] + before[start + first..];
      if |bytes| > first {
        forall i | 0 <= i < |bytes| - first {
          dataBuf[i] := bytes[first + i];
        }
        assert dataBuf[..] == bytes[first..] + once[|bytes| - first..];
      }
    }

    /** `copy_data_from_buffer`: it reads at the offset it is given, and says so when that is not
      the tail.  Given the tail, it takes the oldest bytes. */
    method CopyFrom(offset: nat, size: nat) returns (bytes: seq<Byte>, misplaced: bool)
      requires Valid() && offset < BUFFER_SIZE && size <= BUFFER_SIZE
      modifies this`tail
      ensures Valid() && tail == Slot(old(tail) + size, BUFFER_SIZE)
      ensures bytes == Load(dataBuf[..], offset, size) && (misplaced <==> offset != old(tail))
      ensures !misplaced && size <= |old(Contents())| ==>
                bytes == old(Contents())[..size] && Contents() == old(Contents())[size..]
    {
      ghost var before := dataBuf[..];
      if offset == tail && size <= Used(head, tail) {
        TakePrefix(before, head, tail, size);
      }
      if size < BUFFER_SIZE - offset {
        bytes := dataBuf[offset..offset + size];
      } else {
        bytes := dataBuf[offset..] + dataBuf[..size - (BUFFER_SIZE - offset)];
      }
      assert bytes == Load(before, offset, size);
      misplaced := offset != tail;
      tail := Slot(tail + size, BUFFER_SIZE);
    }
  }
}
