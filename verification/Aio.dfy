/** Block-wise file transfers and the scheduler that runs them by priority. */
module Aio {
  import opened Nonlinear
  import opened Bytes

  const BLOCK: nat := 1048576
  const ALIGNMENT: nat := 4096

  function Aligned(n: nat): nat {
    (n + ALIGNMENT - 1) / ALIGNMENT * ALIGNMENT
  }

  lemma {:induction false} AlignedFits(n: nat)
    ensures n <= Aligned(n) < n + ALIGNMENT && Aligned(n) % ALIGNMENT == 0
  {
  }

  // --------------------------------------------------------------------------
  // Blocks
  // --------------------------------------------------------------------------

  /** A piece of a transfer: where it starts and how long it is. */
  datatype Block = Block(shift: nat, count: nat)

  function BlockAt(total: nat, size: nat, i: nat): Block {
    var shift := Times(i, size);
    Block(shift, if shift + size > total then (if total < shift then 0 else total - shift) else size)
  }

  /** A transfer cut into blocks of one size, the last perhaps shorter. */
  function Blocks(total: nat, size: nat): (bs: seq<Block>)
    requires size > 0
    ensures |bs| == BlockCount(total, size)
  {
    seq(BlockCount(total, size), i requires 0 <= i < BlockCount(total, size) => BlockAt(total, size, i))
  }

  lemma {:induction false} CountCovers(total: nat, size: nat)
    requires size > 0
    ensures var n := BlockCount(total, size);
            total <= Times(n, size) && (n > 0 ==> Times(n - 1, size) < total)
  {
    DivMod(total, size);
  }

  /** Where block i ends. */
  function EndOf(total: nat, size: nat, i: nat): nat {
    if Times(i, size) > total then total else Times(i, size)
  }

  /** The blocks follow one another without gap or overlap, from 0 to the total. */
  lemma {:induction false} BlocksInRow(total: nat, size: nat, i: nat)
    requires size > 0 && i < BlockCount(total, size)
    ensures var b := Blocks(total, size)[i];
            && b.shift == EndOf(total, size, i) && b.count > 0
            && b.shift + b.count == EndOf(total, size, i + 1) <= total
    ensures EndOf(total, size, 0) == 0 && EndOf(total, size, BlockCount(total, size)) == total
  {
    CountCovers(total, size);
    TimesMono(i, BlockCount(total, size) - 1, size);
  }

  /** Each offset of a transfer lies in exactly one block. */
  lemma {:induction false} OffsetInOneBlock(total: nat, size: nat, x: nat)
    requires size > 0 && x < total
    ensures x / size < BlockCount(total, size)
    ensures var b := Blocks(total, size)[x / size]; b.shift <= x < b.shift + b.count
    ensures forall i | 0 <= i < BlockCount(total, size) ::
              var b := Blocks(total, size)[i]; b.shift <= x < b.shift + b.count ==> i == x / size
  {
    CountCovers(total, size);
    DivMod(x, size);
    var q, n := x / size, BlockCount(total, size);
    if n <= q {
      TimesMono(n, q, size);
    }
    forall i: nat | i < n
      ensures var b := Blocks(total, size)[i]; b.shift <= x < b.shift + b.count ==> i == q
    {
      var b := Blocks(total, size)[i];
      if b.shift <= x < b.shift + b.count {
        MixedRadixInjective(i, x - b.shift, q, x % size, size);
      }
    }
  }

  /** The original's loop. */
  method PrepIocbs(total: nat) returns (callbacks: seq<Block>)
    ensures callbacks == Blocks(total, BLOCK)
  {
    var nBlocks, lastBlockSize := total / BLOCK, total % BLOCK;
    var n := nBlocks + (if lastBlockSize > 0 then 1 else 0);
    callbacks := [];
    for i := 0 to n
      invariant callbacks == Blocks(total, BLOCK)[..i]
    {
      BlocksInRow(total, BLOCK, i);
      var shift := Times(i, BLOCK);
      var count := BLOCK;
      if shift + BLOCK > total {
        count := total - shift;
      }
      callbacks := callbacks + [Block(shift, count)];
    }
  }

  // --------------------------------------------------------------------------
  // Files and requests
  // --------------------------------------------------------------------------

  /** What a file holds at each offset; never written bytes read as zero. */
  type File = nat -> Byte

  function PutBytes(f: File, at: nat, data: seq<Byte>): File {
    (a: nat) => if at <= a < at + |data| then data[a - at] else f(a)
  }

  function GetBytes(f: File, at: nat, n: nat): (data: seq<Byte>)
    ensures |data| == n
  {
    seq(n, i requires 0 <= i < n => f(at + i))
  }

  /** A transfer between a buffer and a file; `todo` are the blocks still to run. */
  datatype Request = Request(isRead: bool, base: nat, buffer: seq<Byte>, todo: seq<Block>, pending: nat)

  /** Requests are shared between their client and the queues, which hold references to them. */
  datatype Context = Context(file: File, requests: seq<Request>, high: seq<nat>, low: seq<nat>, ran: seq<(nat, Block)>)

  predicate Fits(r: Request, b: Block) {
    b.shift + b.count <= |r.buffer|
  }

  function Overwrite(buffer: seq<Byte>, at: nat, data: seq<Byte>): (res: seq<Byte>)
    requires at + |data| <= |buffer|
    ensures |res| == |buffer|
  {
    buffer[..at] + data + buffer[at + |data|..]
  }

  /** Runs one block of request j. */
  function RunBlock(c: Context, j: nat, b: Block): (c': Context)
    requires j < |c.requests| && Fits(c.requests[j], b)
    ensures |c'.requests| == |c.requests| && |c'.requests[j].buffer| == |c.requests[j].buffer|
    ensures c'.requests[j].todo == c.requests[j].todo && c'.requests[j].pending == c.requests[j].pending
    ensures c'.high == c.high && c'.low == c.low && c'.ran == c.ran + [(j, b)]
  {
    var r := c.requests[j];
    var c1 := c.(ran := c.ran + [(j, b)]);
    if r.isRead then
      var buffer := Overwrite(r.buffer, b.shift, GetBytes(c.file, r.base + b.shift, b.count));
      c1.(requests := c.requests[j := r.(buffer := buffer)])
    else
      c1.(file := PutBytes(c.file, r.base + b.shift, r.buffer[b.shift..b.shift + b.count]))
  }

  ghost predicate AllFit(r: Request, bs: seq<Block>) {
    forall i | 0 <= i < |bs| :: Fits(r, bs[i])
  }

  /** Runs blocks one after the other. */
  function RunBlocks(c: Context, j: nat, bs: seq<Block>): (c': Context)
    requires j < |c.requests| && AllFit(c.requests[j], bs)
    ensures |c'.requests| == |c.requests| && |c'.requests[j].buffer| == |c.requests[j].buffer|
    ensures c'.requests[j].todo == c.requests[j].todo && c'.requests[j].pending == c.requests[j].pending
    ensures c'.high == c.high && c'.low == c.low
    decreases |bs|
  {
    if bs == [] then c
    else RunBlock(RunBlocks(c, j, bs[..|bs| - 1]), j, bs[|bs| - 1])
  }

  /** Queued requests exist, and their blocks lie inside their buffers. */
  ghost predicate QueueOk(c: Context, q: seq<nat>) {
    forall i | 0 <= i < |q| :: q[i] < |c.requests| && AllFit(c.requests[q[i]], c.requests[q[i]].todo)
  }

  /** A turn that serves the low queue takes the last block of its first request: there must be one. */
  ghost predicate CanSchedule(c: Context) {
    && QueueOk(c, c.high) && QueueOk(c, c.low)
    && (c.high == [] && c.low != [] ==> c.requests[c.low[0]].todo != [])
  }

  /** One turn of the scheduler: a whole high-priority request, or one block, from the back, of a low-priority one. */
  ghost function Schedule(c: Context): Context
    requires CanSchedule(c)
  {
    if c.high != [] then
      var j := c.high[0];
      var c1 := RunBlocks(c, j, c.requests[j].todo);
      c1.(requests := c1.requests[j := c1.requests[j].(todo := [], pending := 0)], high := c.high[1..])
    else if c.low != [] then
      var j := c.low[0];
      var n := |c.requests[j].todo| - 1;
      var c1 := RunBlock(c, j, c.requests[j].todo[n]);
      var pending := if c.requests[j].pending == 0 then 0 else c.requests[j].pending - 1;
      c1.(requests := c1.requests[j := c1.requests[j].(todo := c.requests[j].todo[..n], pending := pending)],
          low := if n == 0 then c.low[1..] else c.low)
    else c
  }

  function Accept(c: Context, r: Request, highPrio: bool): Context {
    var j := |c.requests|;
    var c1 := c.(requests := c.requests + [r]);
    if highPrio then c1.(high := c.high + [j]) else c1.(low := c.low + [j])
  }

  /** A new request: its buffer cut into blocks, all of them pending. */
  function NewRequest(isRead: bool, base: nat, buffer: seq<Byte>): Request {
    Request(isRead, base, buffer, Blocks(|buffer|, BLOCK), BlockCount(|buffer|, BLOCK))
  }
}
