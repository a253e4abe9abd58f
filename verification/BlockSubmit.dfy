/** Filling a request's operations array (`blk_ram_queue_rq`). */
module BlockSubmit {
  import opened BlockDriver

  /** One `bio_vec`: the page address and length of a segment. */
  datatype Segment = Segment(buf: nat, len: nat)

  /** `struct mind_io_request`. */
  datatype IoRequest = IoRequest(status: OpStatus, buf: nat, pos: nat, len: nat)

  /** kzalloc'ed memory. */
  const BLANK := IoRequest(Idle, 0, 0, 0)

  datatype BlkStatus = BlkOk | BlkIoErr

  function TotalLen(segs: seq<Segment>): (n: nat)
  {
    if segs == [] then 0 else TotalLen(segs[..|segs| - 1]) + segs[|segs| - 1].len
  }

  /** What the block layer asks for fits the array and the device. */
  predicate Fits(segs: seq<Segment>, pos: nat, dataLen: nat)
  {
    |segs| <= OPS_PER_RQ && (segs != [] ==> pos + TotalLen(segs) <= dataLen)
  }

  /** Operation i of a filled request. */
  function Operation(segs: seq<Segment>, pos: nat, i: nat): (r: IoRequest)
  {
    if i < |segs| then IoRequest(Started, segs[i].buf, pos + TotalLen(segs[..i]), segs[i].len) else BLANK
  }

  lemma {:induction false} TotalLenMonotone(segs: seq<Segment>, i: nat, j: nat)
    requires i <= j <= |segs|
    ensures TotalLen(segs[..i]) <= TotalLen(segs[..j])
  {
    if i < j {
      assert segs[..j][..j - 1] == segs[..j - 1];
      TotalLenMonotone(segs, i, j - 1);
    }
  }

  /** The filled operations name the segments' buffers and tile the requested byte range: they are
    contiguous, in order and end where the request ends. */
  lemma OperationsTile(segs: seq<Segment>, pos: nat, i: nat)
    requires i < |segs|
    ensures var op := Operation(segs, pos, i); op.status == Started && op.buf == segs[i].buf && op.len == segs[i].len
    ensures Operation(segs, pos, 0).pos == pos
    ensures i + 1 < |segs| ==> Operation(segs, pos, i + 1).pos == Operation(segs, pos, i).pos + segs[i].len
    ensures i + 1 == |segs| ==> Operation(segs, pos, i).pos + segs[i].len == pos + TotalLen(segs)
  {
    assert segs[..i + 1][..i] == segs[..i];
    assert i + 1 == |segs| ==> segs[..i + 1] == segs;
  }

  /** Operation i transfers segment i, to or from where segment i - 1 ended. */
  predicate Transfers(segs: seq<Segment>, pos: nat, ops: seq<IoRequest>)
    requires |segs| <= |ops|
  {
    forall i :: 0 <= i < |segs| ==>
      && ops[i].status == Started && ops[i].buf == segs[i].buf && ops[i].len == segs[i].len
      && ops[i].pos == if i == 0 then pos else ops[i - 1].pos + segs[i - 1].len
  }

  /** All bytes of the request lie on the device. */
  predicate EndsWithin(segs: seq<Segment>, ops: seq<IoRequest>, dataLen: nat)
    requires |segs| <= |ops|
  {
    forall i :: 0 <= i < |segs| ==> ops[i].pos + segs[i].len <= dataLen
  }

  lemma OperationsTransfer(segs: seq<Segment>, pos: nat, dataLen: nat, ops: seq<IoRequest>)
    requires |segs| <= |ops| && Fits(segs, pos, dataLen) && forall i :: 0 <= i < |segs| ==> ops[i] == Operation(segs, pos, i)
    ensures Transfers(segs, pos, ops) && EndsWithin(segs, ops, dataLen)
  {
    forall i | 0 <= i < |segs|
      ensures ops[i].status == Started && ops[i].buf == segs[i].buf && ops[i].len == segs[i].len
      ensures ops[i].pos == if i == 0 then pos else ops[i - 1].pos + segs[i - 1].len
      ensures ops[i].pos + segs[i].len <= dataLen
    {
      OperationsTile(segs, pos, i);
      if i > 0 {
        OperationsTile(segs, pos, i - 1);
      }
      TotalLenMonotone(segs, i + 1, |segs|);
      assert segs[..|segs|] == segs && segs[..i + 1][..i] == segs[..i];
    }
  }

  class RequestEntry {
    const operations: array<IoRequest>
    var numPending: int

    constructor ()
      ensures fresh(operations) && operations.Length == OPS_PER_RQ && numPending == 0
      ensures forall i :: 0 <= i < OPS_PER_RQ ==> operations[i] == BLANK
    {
      operations := new IoRequest[OPS_PER_RQ](_ => BLANK);
      numPending := 0;
    }

    /** The segment loop.  It succeeds exactly when the request fits; the statuses it leaves
      are those the protocol starts from. */
    method Fill(segs: seq<Segment>, pos0: nat, dataLen: nat) returns (err: BlkStatus)
      requires operations.Length == OPS_PER_RQ
      requires forall i :: 0 <= i < OPS_PER_RQ ==> operations[i] == BLANK
      modifies this, operations
      ensures err == BlkOk <==> |segs| <= OPS_PER_RQ && (segs == [] || pos0 + TotalLen(segs) <= dataLen)
      ensures err == BlkOk ==> numPending == |segs|
      ensures err == BlkOk ==> forall i :: 0 <= i < OPS_PER_RQ ==> operations[i] == Operation(segs, pos0, i)
      ensures err == BlkOk ==> Transfers(segs, pos0, operations[..]) && EndsWithin(segs, operations[..], dataLen)
      ensures err == BlkOk ==> forall i :: |segs| <= i < OPS_PER_RQ ==> operations[i] == BLANK
      ensures err == BlkOk ==> forall i :: 0 <= i < OPS_PER_RQ ==> operations[i].status == FreshOps(|segs|)[i]
    {
      var pos := pos0;
      var idx := 0;
      assert segs[..|segs|] == segs;
      while idx < |segs|
        invariant 0 <= idx <= |segs| && idx <= OPS_PER_RQ
        invariant pos == pos0 + TotalLen(segs[..idx])
        invariant idx > 0 ==> pos <= dataLen
        invariant forall i :: 0 <= i < OPS_PER_RQ ==> operations[i] == if i < idx then Operation(segs, pos0, i) else BLANK
      {
        if idx >= OPS_PER_RQ {
          return BlkIoErr;
        }
        assert segs[..idx + 1][..idx] == segs[..idx];
        TotalLenMonotone(segs, idx + 1, |segs|);
        if pos + segs[idx].len > dataLen {
          return BlkIoErr;
        }
        operations[idx] := IoRequest(Started, segs[idx].buf, pos, segs[idx].len);
        pos := pos + segs[idx].len;
        idx := idx + 1;
      }
      numPending := idx;
      err := BlkOk;
      OperationsTransfer(segs, pos0, dataLen, operations[..]);
    }
  }
}
