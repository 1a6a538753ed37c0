/** The tensor store: extents in one file, written and read through the transfer scheduler. */
module Checkpoint {
  import opened Nonlinear
  import opened Bytes
  import opened Aio

  // --------------------------------------------------------------------------
  // One transfer on a quiet context, to its end
  // --------------------------------------------------------------------------

  predicate Quiet(c: Context) {
    c.high == [] && c.low == []
  }

  /** n turns of the scheduler. */
  ghost function Serve(c: Context, n: nat): Context {
    if n == 0 then c
    else
      var c1 := Serve(c, n - 1);
      if CanSchedule(c1) then Schedule(c1) else c1
  }

  /** Byte a of a file after the part of a buffer from `from` on has been written. */
  function ByteAfter(f: File, base: nat, buffer: seq<Byte>, from: nat, a: nat): Byte {
    if base + from <= a < base + |buffer| then buffer[a - base] else f(a)
  }

  ghost predicate WrittenFrom(f: File, g: File, base: nat, buffer: seq<Byte>, from: nat) {
    forall a: nat :: g(a) == ByteAfter(f, base, buffer, from, a)
  }

  ghost predicate ReadFrom(f: File, base: nat, buffer: seq<Byte>, from: nat) {
    forall x: nat | from <= x < |buffer| :: buffer[x] == f(base + x)
  }

  /** Request j, alone in the low queue, has m blocks left to run. */
  ghost predicate Alone(c: Context, j: nat, m: nat) {
    && |c.requests| == j + 1 && c.high == [] && c.low == (if m == 0 then [] else [j])
    && var r := c.requests[j];
       && m <= BlockCount(|r.buffer|, BLOCK) && r.pending == m
       && r.todo == Blocks(|r.buffer|, BLOCK)[..m]
  }

  ghost predicate Writing(f: File, c: Context, j: nat, m: nat, base: nat, buffer: seq<Byte>) {
    && Alone(c, j, m) && !c.requests[j].isRead && c.requests[j].base == base && c.requests[j].buffer == buffer
    && WrittenFrom(f, c.file, base, buffer, EndOf(|buffer|, BLOCK, m))
  }

  ghost predicate Reading(f: File, c: Context, j: nat, m: nat, base: nat, size: nat) {
    && Alone(c, j, m) && c.requests[j].isRead && c.requests[j].base == base && |c.requests[j].buffer| == size
    && c.file == f && ReadFrom(f, base, c.requests[j].buffer, EndOf(size, BLOCK, m))
  }

  lemma {:induction false} AloneSchedules(c: Context, j: nat, m: nat)
    requires Alone(c, j, m)
    ensures CanSchedule(c)
  {
    var r := c.requests[j];
    forall i | 0 <= i < m
      ensures Fits(r, r.todo[i])
    {
      BlocksInRow(|r.buffer|, BLOCK, i);
    }
  }

  /** From c to c', request j has run its block number m - 1, the last that was left. */
  ghost predicate Stepped(c: Context, c': Context, j: nat, m: nat)
    requires Alone(c, j, m) && m > 0
  {
    var r, b := c.requests[j], Blocks(|c.requests[j].buffer|, BLOCK)[m - 1];
    && Alone(c', j, m - 1) && Fits(r, b)
    && c'.requests[j].isRead == r.isRead && c'.requests[j].base == r.base
    && (if r.isRead
        then c'.file == c.file
             && c'.requests[j].buffer == Overwrite(r.buffer, b.shift, GetBytes(c.file, r.base + b.shift, b.count))
        else c'.file == PutBytes(c.file, r.base + b.shift, r.buffer[b.shift..b.shift + b.count])
             && c'.requests[j].buffer == r.buffer)
  }

  lemma {:induction false} AloneStep(c: Context, j: nat, m: nat)
    requires Alone(c, j, m) && m > 0
    ensures CanSchedule(c) && Stepped(c, Schedule(c), j, m)
  {
    AloneSchedules(c, j, m);
    assert c.requests[j].todo[m - 1] == Blocks(|c.requests[j].buffer|, BLOCK)[m - 1];
  }

  lemma {:induction false} WriteStepped(f: File, c: Context, c': Context, j: nat, m: nat, base: nat, buffer: seq<Byte>)
    requires Writing(f, c, j, m, base, buffer) && m > 0 && Stepped(c, c', j, m)
    ensures Writing(f, c', j, m - 1, base, buffer)
  {
    BlocksInRow(|buffer|, BLOCK, m - 1);
    WriteMore(f, c.file, base, buffer, Blocks(|buffer|, BLOCK)[m - 1]);
  }

  lemma {:induction false} WriteStep(f: File, c: Context, j: nat, m: nat, base: nat, buffer: seq<Byte>)
    requires Writing(f, c, j, m, base, buffer) && m > 0
    ensures CanSchedule(c) && Writing(f, Schedule(c), j, m - 1, base, buffer)
  {
    AloneStep(c, j, m);
    WriteStepped(f, c, Schedule(c), j, m, base, buffer);
  }

  lemma {:induction false} WriteMore(f: File, g: File, base: nat, buffer: seq<Byte>, b: Block)
    requires b.shift + b.count <= |buffer| && WrittenFrom(f, g, base, buffer, b.shift + b.count)
    ensures WrittenFrom(f, PutBytes(g, base + b.shift, buffer[b.shift..b.shift + b.count]), base, buffer, b.shift)
  {
  }

  lemma {:induction false} ReadStepped(f: File, c: Context, c': Context, j: nat, m: nat, base: nat, size: nat)
    requires Reading(f, c, j, m, base, size) && m > 0 && Stepped(c, c', j, m)
    ensures Reading(f, c', j, m - 1, base, size)
  {
    BlocksInRow(size, BLOCK, m - 1);
    ReadMore(f, base, c.requests[j].buffer, Blocks(size, BLOCK)[m - 1]);
  }

  lemma {:induction false} ReadStep(f: File, c: Context, j: nat, m: nat, base: nat, size: nat)
    requires Reading(f, c, j, m, base, size) && m > 0
    ensures CanSchedule(c) && Reading(f, Schedule(c), j, m - 1, base, size)
  {
    AloneStep(c, j, m);
    ReadStepped(f, c, Schedule(c), j, m, base, size);
  }

  lemma {:induction false} ReadMore(f: File, base: nat, buffer: seq<Byte>, b: Block)
    requires b.shift + b.count <= |buffer| && ReadFrom(f, base, buffer, b.shift + b.count)
    ensures ReadFrom(f, base, Overwrite(buffer, b.shift, GetBytes(f, base + b.shift, b.count)), b.shift)
  {
  }

  lemma {:induction false} ServeNext(c: Context, n: nat)
    requires CanSchedule(Serve(c, n))
    ensures Serve(c, n + 1) == Schedule(Serve(c, n))
  {
  }

  /** A turn takes a context with m blocks left to one with a block less. */
  ghost predicate StepsDown(left: (Context, nat) -> bool) {
    forall c: Context, m: nat {:trigger CanSchedule(c), left(c, m)} | m > 0 && left(c, m) ::
      CanSchedule(c) && left(Schedule(c), m - 1)
  }

  lemma {:induction false} ServedDown(left: (Context, nat) -> bool, c: Context, m: nat, n: nat)
    requires StepsDown(left) && left(c, m + n)
    ensures left(Serve(c, n), m)
    decreases n
  {
    if n > 0 {
      ServedDown(left, c, m + 1, n - 1);
      assert left(Serve(c, n - 1), m + 1);
      ServeNext(c, n - 1);
    }
  }

  /** The request's counter tells how many blocks are left. */
  ghost predicate CountsLeft(left: (Context, nat) -> bool, j: nat) {
    forall c: Context, m: nat | left(c, m) :: j < |c.requests| && c.requests[j].pending == m
  }

  ghost function WriteLeft(f: File, j: nat, base: nat, buffer: seq<Byte>): (Context, nat) -> bool {
    (c: Context, m: nat) => Writing(f, c, j, m, base, buffer)
  }

  lemma {:induction false} WriteCounts(f: File, j: nat, base: nat, buffer: seq<Byte>)
    ensures StepsDown(WriteLeft(f, j, base, buffer)) && CountsLeft(WriteLeft(f, j, base, buffer), j)
  {
    var left := WriteLeft(f, j, base, buffer);
    forall c: Context, m: nat | m > 0 && left(c, m)
      ensures CanSchedule(c) && left(Schedule(c), m - 1)
    {
      WriteStep(f, c, j, m, base, buffer);
    }
  }

  lemma {:induction false} WriteServed(f: File, c: Context, j: nat, base: nat, buffer: seq<Byte>, n: nat)
    requires Writing(f, c, j, n, base, buffer)
    ensures Writing(f, Serve(c, n), j, 0, base, buffer)
  {
    WriteCounts(f, j, base, buffer);
    ServedDown(WriteLeft(f, j, base, buffer), c, 0, n);
  }

  ghost function ReadLeft(f: File, j: nat, base: nat, size: nat): (Context, nat) -> bool {
    (c: Context, m: nat) => Reading(f, c, j, m, base, size)
  }

  lemma {:induction false} ReadCounts(f: File, j: nat, base: nat, size: nat)
    ensures StepsDown(ReadLeft(f, j, base, size)) && CountsLeft(ReadLeft(f, j, base, size), j)
  {
    var left := ReadLeft(f, j, base, size);
    forall c: Context, m: nat | m > 0 && left(c, m)
      ensures CanSchedule(c) && left(Schedule(c), m - 1)
    {
      ReadStep(f, c, j, m, base, size);
    }
  }

  lemma {:induction false} ReadServed(f: File, c: Context, j: nat, base: nat, size: nat, n: nat)
    requires Reading(f, c, j, n, base, size)
    ensures Reading(f, Serve(c, n), j, 0, base, size)
  {
    ReadCounts(f, j, base, size);
    ServedDown(ReadLeft(f, j, base, size), c, 0, n);
  }

  lemma {:induction false} AcceptAlone(c: Context, r: Request)
    requires Quiet(c) && r == NewRequest(r.isRead, r.base, r.buffer) && r.buffer != []
    ensures Alone(Accept(c, r, false), |c.requests|, BlockCount(|r.buffer|, BLOCK))
    ensures EndOf(|r.buffer|, BLOCK, BlockCount(|r.buffer|, BLOCK)) == |r.buffer|
  {
    CountCovers(|r.buffer|, BLOCK);
    assert Blocks(|r.buffer|, BLOCK)[..|r.todo|] == Blocks(|r.buffer|, BLOCK);
    assert c.low + [|c.requests|] == [|c.requests|];
  }

  /** A write queued behind nothing and served to its end. */
  ghost function WriteOut(c: Context, base: nat, buffer: seq<Byte>): Context {
    Serve(Accept(c, NewRequest(false, base, buffer), false), BlockCount(|buffer|, BLOCK))
  }

  lemma {:induction false} WriteOutServed(c: Context, base: nat, buffer: seq<Byte>)
    requires Quiet(c) && buffer != []
    ensures var c' := WriteOut(c, base, buffer);
            Quiet(c') && |c'.requests| == |c.requests| + 1 && c'.requests[|c.requests|].pending == 0
            && WrittenFrom(c.file, c'.file, base, buffer, 0)
  {
    var r := NewRequest(false, base, buffer);
    AcceptAlone(c, r);
    var c1, n := Accept(c, r, false), BlockCount(|buffer|, BLOCK);
    assert Writing(c.file, c1, |c.requests|, n, base, buffer);
    WriteServed(c.file, c1, |c.requests|, base, buffer, n);
  }

  /** A low-priority request without blocks is complete at once and stays queued, where no turn can serve it. */
  lemma {:induction false} EmptyStays(c: Context, r: Request)
    requires Quiet(c) && r == NewRequest(r.isRead, r.base, [])
    ensures var c' := Serve(Accept(c, r, false), BlockCount(0, BLOCK));
            c' == Accept(c, r, false) && r.pending == 0 && !CanSchedule(c')
  {
    assert BlockCount(0, BLOCK) == 0;
    assert c.low + [|c.requests|] == [|c.requests|];
  }

  /**
   When the write is reported complete the file holds the buffer, and nothing else has
   changed.  The scheduler can go on if and only if there was something to write.
   */
  lemma {:induction false} WriteOutWrites(c: Context, base: nat, buffer: seq<Byte>)
    requires Quiet(c)
    ensures var c' := WriteOut(c, base, buffer);
            && |c'.requests| == |c.requests| + 1 && c'.requests[|c.requests|].pending == 0
            && WrittenFrom(c.file, c'.file, base, buffer, 0)
            && (CanSchedule(c') <==> buffer != []) && (buffer != [] ==> Quiet(c'))
  {
    if buffer == [] {
      EmptyStays(c, NewRequest(false, base, []));
    } else {
      WriteOutServed(c, base, buffer);
    }
  }

  // A high-priority read runs all its blocks in one turn, in order

  ghost predicate ReadUpTo(f: File, base: nat, buffer: seq<Byte>, to: nat) {
    forall x: nat | x < to && x < |buffer| :: buffer[x] == f(base + x)
  }

  lemma {:induction false} ReadFurther(f: File, base: nat, buffer: seq<Byte>, b: Block)
    requires b.shift + b.count <= |buffer| && ReadUpTo(f, base, buffer, b.shift)
    ensures ReadUpTo(f, base, Overwrite(buffer, b.shift, GetBytes(f, base + b.shift, b.count)), b.shift + b.count)
  {
  }

  ghost predicate Reads(c: Context, j: nat, base: nat, size: nat) {
    j < |c.requests| && c.requests[j].isRead && c.requests[j].base == base && |c.requests[j].buffer| == size
  }

  lemma {:induction false} RunReadsStep(c: Context, j: nat, base: nat, size: nat, k: nat)
    requires Reads(c, j, base, size) && k < BlockCount(size, BLOCK)
    requires ReadUpTo(c.file, base, c.requests[j].buffer, EndOf(size, BLOCK, k))
    ensures Fits(c.requests[j], Blocks(size, BLOCK)[k])
    ensures var c' := RunBlock(c, j, Blocks(size, BLOCK)[k]);
            Reads(c', j, base, size) && c'.file == c.file
            && ReadUpTo(c.file, base, c'.requests[j].buffer, EndOf(size, BLOCK, k + 1))
  {
    BlocksInRow(size, BLOCK, k);
    ReadFurther(c.file, base, c.requests[j].buffer, Blocks(size, BLOCK)[k]);
  }

  lemma {:induction false} RunOneMore(c: Context, j: nat, bs: seq<Block>, k: nat)
    requires j < |c.requests| && k < |bs| && AllFit(c.requests[j], bs[..k + 1])
    ensures AllFit(c.requests[j], bs[..k])
    ensures Fits(RunBlocks(c, j, bs[..k]).requests[j], bs[k])
    ensures RunBlocks(c, j, bs[..k + 1]) == RunBlock(RunBlocks(c, j, bs[..k]), j, bs[k])
  {
    assert bs[..k + 1][..k] == bs[..k] && bs[..k + 1][k] == bs[k];
    forall i | 0 <= i < k
      ensures Fits(c.requests[j], bs[..k][i])
    {
      assert bs[..k][i] == bs[..k + 1][i];
    }
    assert Fits(c.requests[j], bs[..k + 1][k]);
  }

  ghost predicate AfterReads(c: Context, c': Context, j: nat, base: nat, size: nat, to: nat) {
    Reads(c', j, base, size) && c'.file == c.file && ReadUpTo(c.file, base, c'.requests[j].buffer, to)
  }

  lemma {:induction false} RunReads(c: Context, j: nat, base: nat, size: nat, k: nat)
    requires Reads(c, j, base, size) && k <= BlockCount(size, BLOCK)
    requires AllFit(c.requests[j], Blocks(size, BLOCK)[..k])
    ensures AfterReads(c, RunBlocks(c, j, Blocks(size, BLOCK)[..k]), j, base, size, EndOf(size, BLOCK, k))
  {
    if k > 0 {
      var bs := Blocks(size, BLOCK);
      RunOneMore(c, j, bs, k - 1);
      RunReads(c, j, base, size, k - 1);
      RunReadsStep(RunBlocks(c, j, bs[..k - 1]), j, base, size, k - 1);
    }
  }

  /** A read, at either priority, served until it is reported complete. */
  ghost function ReadIn(c: Context, base: nat, memory: seq<Byte>, onDemand: bool): Context {
    Serve(Accept(c, NewRequest(true, base, memory), onDemand), if onDemand then 1 else BlockCount(|memory|, BLOCK))
  }

  ghost predicate Fetched(c: Context, c': Context, base: nat, size: nat) {
    && c'.file == c.file && |c'.requests| == |c.requests| + 1
    && c'.requests[|c.requests|].pending == 0
    && |c'.requests[|c.requests|].buffer| == size
    && ReadUpTo(c.file, base, c'.requests[|c.requests|].buffer, size)
  }

  lemma {:induction false} LowReadFetches(c: Context, base: nat, memory: seq<Byte>)
    requires Quiet(c) && memory != []
    ensures Fetched(c, ReadIn(c, base, memory, false), base, |memory|) && Quiet(ReadIn(c, base, memory, false))
  {
    var r := NewRequest(true, base, memory);
    AcceptAlone(c, r);
    var c1, n := Accept(c, r, false), BlockCount(|memory|, BLOCK);
    assert Reading(c.file, c1, |c.requests|, n, base, |memory|);
    ReadServed(c.file, c1, |c.requests|, base, |memory|, n);
  }

  /** One turn finishes a request that is alone in the high queue. */
  lemma {:induction false} HighTurn(c: Context, j: nat)
    requires j < |c.requests| && c.high == [j] && c.low == []
    requires AllFit(c.requests[j], c.requests[j].todo)
    ensures CanSchedule(c) && Quiet(Schedule(c)) && |Schedule(c).requests| == |c.requests|
    ensures var c1 := RunBlocks(c, j, c.requests[j].todo);
            Schedule(c).file == c1.file && Schedule(c).requests[j].buffer == c1.requests[j].buffer
            && Schedule(c).requests[j].pending == 0
  {
  }

  lemma {:induction false} HighReadFetches(c: Context, base: nat, memory: seq<Byte>)
    requires Quiet(c)
    ensures Fetched(c, ReadIn(c, base, memory, true), base, |memory|) && Quiet(ReadIn(c, base, memory, true))
  {
    var r := NewRequest(true, base, memory);
    var j, bs := |c.requests|, Blocks(|memory|, BLOCK);
    var c1 := Accept(c, r, true);
    CountCovers(|memory|, BLOCK);
    forall i | 0 <= i < |bs|
      ensures Fits(r, bs[i])
    {
      BlocksInRow(|memory|, BLOCK, i);
    }
    assert bs[..|bs|] == bs && c1.high == [j];
    HighTurn(c1, j);
    RunReads(c1, j, base, |memory|, |bs|);
    ServeNext(c1, 0);
  }

  /**
   A read reported complete has brought the file's bytes.  The scheduler can go on if and
   only if there was something to read or the read was of high priority.
   */
  lemma {:induction false} ReadFetches(c: Context, base: nat, memory: seq<Byte>, onDemand: bool)
    requires Quiet(c)
    ensures var c' := ReadIn(c, base, memory, onDemand);
            && Fetched(c, c', base, |memory|)
            && (CanSchedule(c') <==> memory != [] || onDemand) && (CanSchedule(c') ==> Quiet(c'))
  {
    if onDemand {
      HighReadFetches(c, base, memory);
    } else if memory == [] {
      EmptyStays(c, NewRequest(true, base, []));
    } else {
      LowReadFetches(c, base, memory);
    }
  }

  // --------------------------------------------------------------------------
  // The store
  // --------------------------------------------------------------------------

  /** Where a tensor lives in the file. */
  datatype Meta = Meta(offset: nat, size: nat)

  datatype Store = Store(index: map<nat, Meta>, fileOffset: nat, context: Context)

  /**
   Storing an id again with another size, and reading an unknown id, abort the process;
   a turn that cannot be taken breaks the scheduler.
   */
  datatype Outcome = Done(store: Store) | Aborted | Broken

  function Fresh(f: File): Store {
    Store(map[], 0, Context(f, [], [], [], []))
  }

  function MetaFor(s: Store, id: nat, size: nat): Meta {
    if id in s.index then s.index[id] else Meta(s.fileOffset, size)
  }

  /** `pad` is what the aligned bounce buffer holds behind the tensor's bytes. */
  ghost predicate Padded(bytes: seq<Byte>, pad: seq<Byte>) {
    |bytes| + |pad| == Aligned(|bytes|)
  }

  ghost function StoreTensor(s: Store, id: nat, bytes: seq<Byte>, pad: seq<Byte>): Outcome {
    if id in s.index && s.index[id].size != |bytes| then Aborted
    else
      var meta := MetaFor(s, id, |bytes|);
      Done(Store(s.index[id := meta],
                 if id in s.index then s.fileOffset else s.fileOffset + Aligned(|bytes|),
                 WriteOut(s.context, meta.offset, bytes + pad)))
  }

  /** The aligned buffer a read leaves in memory, of which the tensor is the first part. */
  ghost function ReadTensor(s: Store, id: nat, memory: seq<Byte>, onDemand: bool): (Outcome, seq<Byte>) {
    if id !in s.index || |memory| != Aligned(s.index[id].size) then (Aborted, [])
    else
      var c := ReadIn(s.context, s.index[id].offset, memory, onDemand);
      (Done(s.(context := c)), if |s.context.requests| < |c.requests| then c.requests[|s.context.requests|].buffer
        else [])
  }

  /** The extent of a tensor, rounded up, ends inside what has been handed out. */
  ghost predicate ExtentOk(s: Store, id: nat)
    requires id in s.index
  {
    var m := s.index[id];
    m.size > 0 && m.offset + Aligned(m.size) <= s.fileOffset
  }

  ghost predicate Apart(s: Store, i: nat, j: nat)
    requires i in s.index && j in s.index
  {
    var m, n := s.index[i], s.index[j];
    m.offset + Aligned(m.size) <= n.offset || n.offset + Aligned(n.size) <= m.offset
  }

  /** The file holds these bytes in the tensor's extent. */
  ghost predicate Holds(s: Store, id: nat, bytes: seq<Byte>)
    requires id in s.index
  {
    s.index[id].size == |bytes| && forall x: nat | x < |bytes| :: s.context.file(s.index[id].offset + x) == bytes[x]
  }

  ghost predicate Ok(s: Store, contents: map<nat, seq<Byte>>) {
    && Quiet(s.context)
    && s.index.Keys == contents.Keys
    && (forall id | id in s.index :: ExtentOk(s, id) && Holds(s, id, contents[id]))
    && (forall i, j | i in s.index && j in s.index && i != j :: Apart(s, i, j))
  }

  lemma {:induction false} WrittenHolds(f: File, g: File, base: nat, bytes: seq<Byte>, pad: seq<Byte>, x: nat)
    requires WrittenFrom(f, g, base, bytes + pad, 0) && x < |bytes|
    ensures g(base + x) == bytes[x]
  {
    assert g(base + x) == ByteAfter(f, base, bytes + pad, 0, base + x);
  }

  lemma {:induction false} StoredHolds(s: Store, id: nat, bytes: seq<Byte>, pad: seq<Byte>, s': Store, k: nat,
                                       old_: seq<Byte>)
    requires Quiet(s.context) && Padded(bytes, pad) && StoreTensor(s, id, bytes, pad) == Done(s')
    requires k in s.index && k != id && Holds(s, k, old_) && Apart(s', k, id)
    ensures Holds(s', k, old_)
  {
    var m := s'.index[id];
    WriteOutWrites(s.context, m.offset, bytes + pad);
    AlignedFits(|bytes|);
    AlignedFits(|old_|);
    forall x: nat | x < |old_|
      ensures s'.context.file(s'.index[k].offset + x) == old_[x]
    {
      var a := s'.index[k].offset + x;
      assert s'.context.file(a) == ByteAfter(s.context.file, m.offset, bytes + pad, 0, a);
    }
  }

  lemma {:induction false} StoredApart(s: Store, id: nat, bytes: seq<Byte>, pad: seq<Byte>, s': Store, i: nat, j: nat)
    requires (forall k | k in s.index :: ExtentOk(s, k)) && StoreTensor(s, id, bytes, pad) == Done(s')
    requires forall k, l | k in s.index && l in s.index && k != l :: Apart(s, k, l)
    requires i in s'.index && j in s'.index && i != j
    ensures Apart(s', i, j)
  {
    assert i in s.index && j in s.index ==> Apart(s, i, j);
    assert i in s.index ==> ExtentOk(s, i);
    assert j in s.index ==> ExtentOk(s, j);
  }

  lemma {:induction false} StoredItself(s: Store, id: nat, bytes: seq<Byte>, pad: seq<Byte>, s': Store)
    requires Quiet(s.context) && Padded(bytes, pad) && StoreTensor(s, id, bytes, pad) == Done(s')
    requires id in s.index ==> ExtentOk(s, id)
    ensures Holds(s', id, bytes)
    ensures CanSchedule(s'.context) <==> bytes != []
    ensures bytes != [] ==> Quiet(s'.context) && ExtentOk(s', id)
  {
    var m := s'.index[id];
    WriteOutWrites(s.context, m.offset, bytes + pad);
    AlignedFits(|bytes|);
    assert bytes + pad == [] <==> bytes == [];
    forall x: nat | x < |bytes|
      ensures s'.context.file(m.offset + x) == bytes[x]
    {
      WrittenHolds(s.context.file, s'.context.file, m.offset, bytes, pad, x);
    }
  }

  /**
   A store keeps every other tensor and its extent, and the stored one can be read back.
   The scheduler can go on if and only if the tensor has bytes.
   */
  lemma {:induction false} StoreKeeps(s: Store, contents: map<nat, seq<Byte>>, id: nat, bytes: seq<Byte>,
                                      pad: seq<Byte>, s': Store)
    requires Ok(s, contents) && Padded(bytes, pad) && StoreTensor(s, id, bytes, pad) == Done(s')
    ensures CanSchedule(s'.context) <==> bytes != []
    ensures bytes != [] ==> Ok(s', contents[id := bytes])
  {
    StoredItself(s, id, bytes, pad, s');
    forall i, j | i in s'.index && j in s'.index && i != j
      ensures Apart(s', i, j)
    {
      StoredApart(s, id, bytes, pad, s', i, j);
    }
    forall k | k in s'.index && k != id
      ensures ExtentOk(s', k) && Holds(s', k, contents[k])
    {
      assert ExtentOk(s, k) && Holds(s, k, contents[k]);
      StoredHolds(s, id, bytes, pad, s', k, contents[k]);
    }
  }

  lemma {:induction false} SameFileOk(s: Store, contents: map<nat, seq<Byte>>, c: Context)
    requires Ok(s, contents) && Quiet(c) && c.file == s.context.file
    ensures Ok(s.(context := c), contents)
  {
    var s' := s.(context := c);
    forall k | k in s.index
      ensures ExtentOk(s', k) && Holds(s', k, contents[k])
    {
      assert ExtentOk(s, k) && Holds(s, k, contents[k]);
    }
    forall i, j | i in s.index && j in s.index && i != j
      ensures Apart(s', i, j)
    {
      assert Apart(s, i, j);
    }
  }

  lemma {:induction false} FetchedHolds(s: Store, bytes: seq<Byte>, id: nat, c: Context)
    requires id in s.index && Holds(s, id, bytes)
    requires Fetched(s.context, c, s.index[id].offset, Aligned(s.index[id].size))
    ensures bytes <= c.requests[|s.context.requests|].buffer
  {
    AlignedFits(s.index[id].size);
    var buffer := c.requests[|s.context.requests|].buffer;
    assert forall x: nat | x < |bytes| :: buffer[x] == s.context.file(s.index[id].offset + x);
  }

  /** Reading an id gives the bytes last stored under it, at either priority, and changes no tensor. */
  lemma {:induction false} ReadGives(s: Store, contents: map<nat, seq<Byte>>, id: nat, memory: seq<Byte>,
                                     onDemand: bool)
    requires Ok(s, contents) && id in s.index && |memory| == Aligned(s.index[id].size)
    ensures var (r, buffer) := ReadTensor(s, id, memory, onDemand);
            && r.Done? && Ok(r.store, contents)
            && contents[id] <= buffer
  {
    var m := s.index[id];
    assert ExtentOk(s, id) && Holds(s, id, contents[id]);
    AlignedFits(m.size);
    ReadFetches(s.context, m.offset, memory, onDemand);
    var c := ReadIn(s.context, m.offset, memory, onDemand);
    SameFileOk(s, contents, c);
    FetchedHolds(s, contents[id], id, c);
  }

  // --------------------------------------------------------------------------
  // Whole runs of a fresh store
  // --------------------------------------------------------------------------

  datatype Op = Write(id: nat, bytes: seq<Byte>, pad: seq<Byte>) | Read(id: nat, memory: seq<Byte>, onDemand: bool)

  ghost predicate PadOk(op: Op) {
    op.Write? ==> Padded(op.bytes, op.pad)
  }

  /** The scheduler thread goes on turning after every operation. */
  ghost function GoOn(o: Outcome): Outcome {
    if o.Done? && !CanSchedule(o.store.context) then Broken else o
  }

  ghost function Step(o: Outcome, op: Op): Outcome {
    if !o.Done? then o
    else
      match op
      case Write(id, bytes, pad) => GoOn(StoreTensor(o.store, id, bytes, pad))
      case Read(id, memory, onDemand) => GoOn(ReadTensor(o.store, id, memory, onDemand).0)
  }

  ghost function Run(f: File, ops: seq<Op>): Outcome {
    if ops == [] then Done(Fresh(f)) else Step(Run(f, ops[..|ops| - 1]), ops[|ops| - 1])
  }

  /** The bytes last stored under each id. */
  function LastStored(ops: seq<Op>): map<nat, seq<Byte>> {
    if ops == [] then map[]
    else
      var before, op := LastStored(ops[..|ops| - 1]), ops[|ops| - 1];
      if op.Write? then before[op.id := op.bytes] else before
  }

  lemma {:induction false} RunOk(f: File, ops: seq<Op>)
    requires (forall i | 0 <= i < |ops| :: PadOk(ops[i])) && Run(f, ops).Done?
    ensures Ok(Run(f, ops).store, LastStored(ops))
  {
    if ops != [] {
      var before, op := ops[..|ops| - 1], ops[|ops| - 1];
      RunOk(f, before);
      var s := Run(f, before).store;
      match op
      case Write(id, bytes, pad) => StoreKeeps(s, LastStored(before), id, bytes, pad, Run(f, ops).store);
      case Read(id, memory, onDemand) => ReadGives(s, LastStored(before), id, memory, onDemand);
    }
  }

  /** What an operation must meet, in terms of the bytes last stored under each id. */
  predicate Permitted(contents: map<nat, seq<Byte>>, op: Op) {
    match op
    case Write(id, bytes, _) => bytes != [] && (id in contents ==> |contents[id]| == |bytes|)
    case Read(id, memory, _) => id in contents && |memory| == Aligned(|contents[id]|)
  }

  /** An operation succeeds and leaves a scheduler that can go on if and only if it is permitted. */
  lemma {:induction false} StepExactly(s: Store, contents: map<nat, seq<Byte>>, op: Op)
    requires Ok(s, contents) && PadOk(op)
    ensures Step(Done(s), op).Done? <==> Permitted(contents, op)
  {
    assert op.id in s.index ==> Holds(s, op.id, contents[op.id]);
    match op
    case Write(id, bytes, pad) =>
      var o := StoreTensor(s, id, bytes, pad);
      if o.Done? {
        StoreKeeps(s, contents, id, bytes, pad, o.store);
      }
    case Read(id, memory, onDemand) =>
      if Permitted(contents, op) {
        ReadGives(s, contents, id, memory, onDemand);
      }
  }

  /** Each operation of a run is permitted where it stands. */
  predicate AllPermitted(ops: seq<Op>) {
    ops == []
    || (AllPermitted(ops[..|ops| - 1]) && Permitted(LastStored(ops[..|ops| - 1]), ops[|ops| - 1]))
  }

  /** A run of a fresh store succeeds if and only if each of its operations is permitted where it stands. */
  lemma {:induction false} RunExactly(f: File, ops: seq<Op>)
    requires forall i | 0 <= i < |ops| :: PadOk(ops[i])
    ensures Run(f, ops).Done? <==> AllPermitted(ops)
  {
    if ops != [] {
      var before := ops[..|ops| - 1];
      RunExactly(f, before);
      if Run(f, before).Done? {
        RunOk(f, before);
        StepExactly(Run(f, before).store, LastStored(before), ops[|ops| - 1]);
      }
    }
  }

  /** The shortest run that breaks the scheduler: a tensor without bytes. */
  lemma {:induction false} EmptyTensorBreaks(f: File, id: nat)
    ensures Run(f, [Write(id, [], [])]).Broken?
  {
    var op := Write(id, [], []);
    assert [op][..0] == [];
    assert Run(f, [op]) == Step(Done(Fresh(f)), op);
    StoreKeeps(Fresh(f), map[], id, [], [], StoreTensor(Fresh(f), id, [], []).store);
  }

  /** After any run of stores and reads by a fresh handle, reading an id returns the bytes last stored under it. */
  lemma {:induction false} ReadsLastStored(f: File, ops: seq<Op>, id: nat, memory: seq<Byte>, onDemand: bool)
    requires (forall i | 0 <= i < |ops| :: PadOk(ops[i])) && Run(f, ops).Done?
    requires id in LastStored(ops) && |memory| == Aligned(|LastStored(ops)[id]|)
    ensures var (r, buffer) := ReadTensor(Run(f, ops).store, id, memory, onDemand);
            r.Done? && LastStored(ops)[id] <= buffer
  {
    RunOk(f, ops);
    var s := Run(f, ops).store;
    assert Holds(s, id, LastStored(ops)[id]);
    ReadGives(s, LastStored(ops), id, memory, onDemand);
  }

  /** Different tensors never share a byte of the file. */
  lemma {:induction false} ExtentsDisjoint(f: File, ops: seq<Op>, i: nat, j: nat, x: nat, y: nat)
    requires (forall n | 0 <= n < |ops| :: PadOk(ops[n])) && Run(f, ops).Done?
    requires i in Run(f, ops).store.index && j in Run(f, ops).store.index && i != j
    requires x < Aligned(Run(f, ops).store.index[i].size) && y < Aligned(Run(f, ops).store.index[j].size)
    ensures Run(f, ops).store.index[i].offset + x != Run(f, ops).store.index[j].offset + y
  {
    RunOk(f, ops);
    assert Apart(Run(f, ops).store, i, j);
  }
}
