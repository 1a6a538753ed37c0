/** The tensor store as it runs: queues, shared requests and the index, updated in place. */
module TensorHandles {
  import opened Nonlinear
  import opened Bytes
  import opened Aio
  import opened Checkpoint

  class PrioAioContext {
    var file: File
    var requests: seq<Request>
    var ioQueueHigh: seq<nat>
    var ioQueueLow: seq<nat>
    var ran: seq<(nat, Block)>

    function State(): Context
      reads this
    {
      Context(file, requests, ioQueueHigh, ioQueueLow, ran)
    }

    constructor (file: File)
      ensures State() == Context(file, [], [], [], [])
    {
      this.file := file;
      requests, ioQueueHigh, ioQueueLow, ran := [], [], [], [];
    }

    method AcceptRequest(r: Request, highPrio: bool)
      modifies this
      ensures State() == Accept(old(State()), r, highPrio)
    {
      var j := |requests|;
      requests := requests + [r];
      if highPrio {
        ioQueueHigh := ioQueueHigh + [j];
      } else {
        ioQueueLow := ioQueueLow + [j];
      }
    }

    /** pread or pwrite of one block. */
    method RunCallback(j: nat, b: Block)
      requires j < |requests| && Fits(requests[j], b)
      modifies this
      ensures State() == RunBlock(old(State()), j, b)
    {
      var r := requests[j];
      if r.isRead {
        requests := requests[j := r.(buffer :=
          Overwrite(r.buffer, b.shift, GetBytes(file, r.base + b.shift, b.count)))];
      } else {
        file := PutBytes(file, r.base + b.shift, r.buffer[b.shift..b.shift + b.count]);
      }
      ran := ran + [(j, b)];
    }

    /** Runs all of a request's blocks, in order. */
    method RunAll(j: nat)
      requires j < |requests| && AllFit(requests[j], requests[j].todo)
      modifies this
      ensures State() == RunBlocks(old(State()), j, old(requests)[j].todo)
    {
      var todo := requests[j].todo;
      ghost var start := State();
      for i := 0 to |todo|
        invariant AllFit(start.requests[j], todo[..i]) && State() == RunBlocks(start, j, todo[..i])
      {
        assert AllFit(start.requests[j], todo[..i + 1]);
        RunOneMore(start, j, todo, i);
        RunCallback(j, todo[i]);
      }
      assert todo[..|todo|] == todo;
    }

    /** One turn of the scheduler thread. */
    method Turn()
      requires CanSchedule(State())
      modifies this
      ensures State() == Schedule(old(State()))
    {
      if ioQueueHigh != [] {
        var j := ioQueueHigh[0];
        ioQueueHigh := ioQueueHigh[1..];
        HeadQueue(old(State()), State(), j);
        RunAll(j);
        requests := requests[j := requests[j].(todo := [], pending := 0)];
        return;
      }
      if ioQueueLow == [] {
        return;
      }
      var j := ioQueueLow[0];
      var n := |requests[j].todo| - 1;
      var cb := requests[j].todo[n];
      if n == 0 {
        ioQueueLow := ioQueueLow[1..];
      }
      RunCallback(j, cb);
      var r := requests[j];
      requests := requests[j := r.(todo := r.todo[..n], pending := if r.pending == 0 then 0 else r.pending - 1)];
    }
  }

  /** Taking a request off its queue first changes nothing about how its blocks run. */
  lemma {:induction false} HeadQueueRuns(c: Context, c': Context, j: nat, bs: seq<Block>)
    requires c' == c.(high := c'.high) && j < |c.requests| && AllFit(c.requests[j], bs)
    ensures RunBlocks(c', j, bs) == RunBlocks(c, j, bs).(high := c'.high)
    decreases |bs|
  {
    if bs != [] {
      HeadQueueRuns(c, c', j, bs[..|bs| - 1]);
    }
  }

  lemma {:induction false} HeadQueue(c: Context, c': Context, j: nat)
    requires c' == c.(high := c'.high) && j < |c.requests| && AllFit(c.requests[j], c.requests[j].todo)
    ensures RunBlocks(c', j, c.requests[j].todo) == RunBlocks(c, j, c.requests[j].todo).(high := c'.high)
  {
    HeadQueueRuns(c, c', j, c.requests[j].todo);
  }

  /** After some turns, as many blocks of request j are left as its counter says. */
  ghost predicate Waiting(left: (Context, nat) -> bool, j: nat, start: Context, n: nat, c: Context, turns: nat) {
    && turns <= n && c == Serve(start, turns) && left(c, n - turns)
    && j < |c.requests| && c.requests[j].pending == n - turns
  }

  lemma {:induction false} CountsNow(left: (Context, nat) -> bool, j: nat, c: Context, m: nat)
    requires CountsLeft(left, j) && left(c, m)
    ensures j < |c.requests| && c.requests[j].pending == m
  {
  }

  lemma {:induction false} TurnNext(left: (Context, nat) -> bool, j: nat, start: Context, n: nat, c: Context,
                                    turns: nat)
    requires StepsDown(left) && CountsLeft(left, j) && Waiting(left, j, start, n, c, turns)
             && c.requests[j].pending != 0
    ensures CanSchedule(c) && Waiting(left, j, start, n, Schedule(c), turns + 1)
  {
    assert CanSchedule(c);
    ServeNext(start, turns);
    CountsNow(left, j, Schedule(c), n - turns - 1);
  }

  class TensorHandle {
    const aio: PrioAioContext
    var tensorIndex: map<nat, Meta>
    var fileOffset: nat

    function State(): Store
      reads this, aio
    {
      Store(tensorIndex, fileOffset, aio.State())
    }

    constructor (file: File)
      ensures fresh(aio) && State() == Fresh(file)
    {
      aio := new PrioAioContext(file);
      tensorIndex, fileOffset := map[], 0;
    }

    /** Waits, while the scheduler takes its turns, until no block of request j is pending. */
    method Wait(j: nat, ghost left: (Context, nat) -> bool, ghost n: nat)
      requires StepsDown(left) && CountsLeft(left, j) && left(aio.State(), n)
      modifies aio
      ensures aio.State() == Serve(old(aio.State()), n) && j < |aio.requests| && aio.requests[j].pending == 0
    {
      ghost var start, turns: nat := aio.State(), 0;
      CountsNow(left, j, aio.State(), n);
      while aio.requests[j].pending != 0
        invariant Waiting(left, j, start, n, aio.State(), turns)
        decreases n - turns
      {
        TurnNext(left, j, start, n, aio.State(), turns);
        aio.Turn();
        turns := turns + 1;
      }
    }

    /** Queues a write and waits until the scheduler has run all its blocks. */
    method Write(base: nat, buffer: seq<Byte>)
      requires Quiet(aio.State())
      modifies aio
      ensures aio.State() == WriteOut(old(aio.State()), base, buffer)
    {
      var callbacks := PrepIocbs(|buffer|);
      var r := Request(false, base, buffer, callbacks, |callbacks|);
      var j := |aio.requests|;
      ghost var f := aio.file;
      WriteReady(aio.State(), r);
      aio.AcceptRequest(r, false);
      Wait(j, WriteWaits(f, j, base, buffer), |callbacks|);
    }

    /** `pad` is what lies behind the tensor in the aligned buffer; false where the original aborts. */
    method StoreTensor(id: nat, bytes: seq<Byte>, pad: seq<Byte>) returns (ok: bool)
      requires Quiet(aio.State()) && Padded(bytes, pad)
      modifies this, aio
      ensures ok == Checkpoint.StoreTensor(old(State()), id, bytes, pad).Done?
      ensures State() == if ok then Checkpoint.StoreTensor(old(State()), id, bytes, pad).store else old(State())
    {
      var meta := Meta(fileOffset, |bytes|);
      if id in tensorIndex {
        if tensorIndex[id].size != |bytes| {
          return false;
        }
        meta := tensorIndex[id];
      } else {
        fileOffset := fileOffset + Aligned(|bytes|);
      }
      tensorIndex := tensorIndex[id := meta];
      Write(meta.offset, bytes + pad);
      return true;
    }

    /**
     Queues a read at either priority and waits; the result is the request's buffer.  A
     high-priority request takes one turn, also when it has no blocks and nobody waits for it.
     */
    method Read(base: nat, memory: seq<Byte>, highPrio: bool) returns (buffer: seq<Byte>)
      requires Quiet(aio.State())
      modifies aio
      ensures aio.State() == ReadIn(old(aio.State()), base, memory, highPrio)
      ensures |old(aio.requests)| < |aio.requests| && buffer == aio.requests[|old(aio.requests)|].buffer
    {
      var callbacks := PrepIocbs(|memory|);
      var r := Request(true, base, memory, callbacks, |callbacks|);
      var j := |aio.requests|;
      ghost var c := aio.State();
      if highPrio {
        HighReadReady(c, r);
        aio.AcceptRequest(r, true);
        HighTurn(aio.State(), j);
        ServeNext(aio.State(), 0);
        aio.Turn();
      } else {
        ReadReady(c, r);
        aio.AcceptRequest(r, false);
        Wait(j, ReadWaits(c.file, j, base, |memory|), |callbacks|);
      }
      buffer := aio.requests[j].buffer;
    }

    method ReadTensor(id: nat, memory: seq<Byte>, onDemand: bool) returns (ok: bool, buffer: seq<Byte>)
      requires Quiet(aio.State())
      requires id in tensorIndex ==> |memory| == Aligned(tensorIndex[id].size)
      modifies aio
      ensures ok == (id in tensorIndex)
      ensures ok ==> (Done(State()), buffer) == Checkpoint.ReadTensor(old(State()), id, memory, onDemand)
      ensures !ok ==> State() == old(State())
    {
      if id !in tensorIndex {
        return false, [];
      }
      AlignedFits(tensorIndex[id].size);
      buffer := Read(tensorIndex[id].offset, memory, onDemand);
      ok := true;
    }
  }

  lemma {:induction false} HighReadReady(c: Context, r: Request)
    requires Quiet(c) && r == NewRequest(r.isRead, r.base, r.buffer)
    ensures Accept(c, r, true).high == [|c.requests|] && AllFit(r, r.todo)
  {
    forall i | 0 <= i < |r.todo|
      ensures Fits(r, r.todo[i])
    {
      BlocksInRow(|r.buffer|, BLOCK, i);
    }
  }

  /** Nobody waits for a request without blocks. */
  ghost function NothingLeft(j: nat): (Context, nat) -> bool {
    (c: Context, m: nat) => m == 0 && j < |c.requests| && c.requests[j].pending == 0
  }

  ghost function WriteWaits(f: File, j: nat, base: nat, buffer: seq<Byte>): (Context, nat) -> bool {
    if buffer == [] then NothingLeft(j) else WriteLeft(f, j, base, buffer)
  }

  ghost function ReadWaits(f: File, j: nat, base: nat, size: nat): (Context, nat) -> bool {
    if size == 0 then NothingLeft(j) else ReadLeft(f, j, base, size)
  }

  lemma {:induction false} WriteReady(c: Context, r: Request)
    requires Quiet(c) && r == NewRequest(false, r.base, r.buffer)
    ensures var left := WriteWaits(c.file, |c.requests|, r.base, r.buffer);
            && StepsDown(left) && CountsLeft(left, |c.requests|)
            && left(Accept(c, r, false), BlockCount(|r.buffer|, BLOCK))
  {
    if r.buffer == [] {
      assert BlockCount(0, BLOCK) == 0;
    } else {
      AcceptAlone(c, r);
      WriteCounts(c.file, |c.requests|, r.base, r.buffer);
    }
  }

  lemma {:induction false} ReadReady(c: Context, r: Request)
    requires Quiet(c) && r == NewRequest(true, r.base, r.buffer)
    ensures var left := ReadWaits(c.file, |c.requests|, r.base, |r.buffer|);
            && StepsDown(left) && CountsLeft(left, |c.requests|)
            && left(Accept(c, r, false), BlockCount(|r.buffer|, BLOCK))
  {
    if r.buffer == [] {
      assert BlockCount(0, BLOCK) == 0;
    } else {
      AcceptAlone(c, r);
      ReadCounts(c.file, |c.requests|, r.base, |r.buffer|);
    }
  }
}
