/** What the transfer scheduler guarantees. */
module AioLaws {
  import opened Sequences
  import opened Nonlinear
  import opened Bytes
  import opened Aio

  // --------------------------------------------------------------------------
  // A request is complete only after all its blocks ran, each once
  // --------------------------------------------------------------------------

  /** The blocks of request j that have run. */
  function RanOf(ran: seq<(nat, Block)>, j: nat): multiset<Block> {
    if ran == [] then multiset{}
    else
      var n := |ran| - 1;
      RanOf(ran[..n], j) + (if ran[n].0 == j then multiset{ran[n].1} else multiset{})
  }

  /** What is still to run is counted, is a front part of the request's blocks, and the rest has run once. */
  ghost predicate RequestOk(c: Context, j: nat)
    requires j < |c.requests|
  {
    var r := c.requests[j];
    var bs := Blocks(|r.buffer|, BLOCK);
    && r.pending == |r.todo| <= |bs| && r.todo == bs[..|r.todo|]
    && RanOf(c.ran, j) + multiset(r.todo) == multiset(bs)
  }

  ghost predicate RequestsOk(c: Context) {
    && (forall j | 0 <= j < |c.requests| :: RequestOk(c, j))
    && (forall k | 0 <= k < |c.ran| :: c.ran[k].0 < |c.requests|)
  }

  /** No request is in both queues. */
  ghost predicate QueuesApart(c: Context) {
    forall i, k | 0 <= i < |c.high| && 0 <= k < |c.low| :: c.high[i] != c.low[k]
  }

  ghost predicate UnfinishedQueued(c: Context) {
    forall j | 0 <= j < |c.requests| && c.requests[j].todo != [] :: j in c.high || j in c.low
  }

  /** Every unfinished request is queued, once. */
  ghost predicate QueuesOk(c: Context) {
    && QueueOk(c, c.high) && QueueOk(c, c.low)
    && NoRepeat(c.high) && NoRepeat(c.low)
    && QueuesApart(c) && UnfinishedQueued(c)
  }

  ghost predicate ContextOk(c: Context) {
    RequestsOk(c) && QueuesOk(c)
  }

  lemma {:induction false} BlocksFit(r: Request)
    ensures AllFit(r, Blocks(|r.buffer|, BLOCK))
  {
    forall i | 0 <= i < BlockCount(|r.buffer|, BLOCK)
      ensures Fits(r, Blocks(|r.buffer|, BLOCK)[i])
    {
      BlocksInRow(|r.buffer|, BLOCK, i);
    }
  }

  lemma {:induction false} NoneRan(ran: seq<(nat, Block)>, j: nat)
    requires forall k | 0 <= k < |ran| :: ran[k].0 < j
    ensures RanOf(ran, j) == multiset{}
  {
    if ran != [] {
      NoneRan(ran[..|ran| - 1], j);
    }
  }

  lemma {:induction false} AcceptRequests(c: Context, r: Request, highPrio: bool)
    requires RequestsOk(c) && r == NewRequest(r.isRead, r.base, r.buffer)
    ensures RequestsOk(Accept(c, r, highPrio))
  {
    var c' := Accept(c, r, highPrio);
    NoneRan(c.ran, |c.requests|);
    forall j | 0 <= j < |c'.requests|
      ensures RequestOk(c', j)
    {
      if j < |c.requests| {
        assert RequestOk(c, j);
      } else {
        assert Blocks(|r.buffer|, BLOCK)[..|r.todo|] == Blocks(|r.buffer|, BLOCK);
      }
    }
  }

  lemma {:induction false} AcceptQueue(c: Context, c': Context, q: seq<nat>, r: Request)
    requires QueueOk(c, q) && NoRepeat(q) && c'.requests == c.requests + [r] && AllFit(r, r.todo)
    ensures QueueOk(c', q) && QueueOk(c', q + [|c.requests|]) && NoRepeat(q + [|c.requests|])
  {
    var q' := q + [|c.requests|];
    forall i | 0 <= i < |q'|
      ensures q'[i] < |c'.requests| && AllFit(c'.requests[q'[i]], c'.requests[q'[i]].todo)
    {
      assert i < |q| ==> q[i] < |c.requests|;
    }
  }

  lemma {:induction false} AcceptApart(c: Context, r: Request, highPrio: bool)
    requires QueueOk(c, c.high) && QueueOk(c, c.low) && QueuesApart(c)
    ensures QueuesApart(Accept(c, r, highPrio))
  {
    var c' := Accept(c, r, highPrio);
    forall i, k | 0 <= i < |c'.high| && 0 <= k < |c'.low|
      ensures c'.high[i] != c'.low[k]
    {
      assert i < |c.high| ==> c'.high[i] == c.high[i] < |c.requests|;
      assert k < |c.low| ==> c'.low[k] == c.low[k] < |c.requests|;
    }
  }

  lemma {:induction false} AcceptQueued(c: Context, r: Request, highPrio: bool)
    requires UnfinishedQueued(c)
    ensures UnfinishedQueued(Accept(c, r, highPrio))
  {
    var c' := Accept(c, r, highPrio);
    forall j | 0 <= j < |c'.requests| && c'.requests[j].todo != []
      ensures j in c'.high || j in c'.low
    {
      assert j < |c.requests| ==> j in c.high || j in c.low;
    }
  }

  lemma {:induction false} AcceptOk(c: Context, r: Request, highPrio: bool)
    requires ContextOk(c) && r == NewRequest(r.isRead, r.base, r.buffer)
    ensures ContextOk(Accept(c, r, highPrio))
  {
    BlocksFit(r);
    AcceptRequests(c, r, highPrio);
    AcceptQueue(c, Accept(c, r, highPrio), c.high, r);
    AcceptQueue(c, Accept(c, r, highPrio), c.low, r);
    AcceptApart(c, r, highPrio);
    AcceptQueued(c, r, highPrio);
  }

  // One turn, by what it does to the request it serves

  function Tagged(j: nat, bs: seq<Block>): (log: seq<(nat, Block)>)
    ensures |log| == |bs|
  {
    seq(|bs|, i requires 0 <= i < |bs| => (j, bs[i]))
  }

  lemma {:induction false} RanNext(ran: seq<(nat, Block)>, j: nat, b: Block, k: nat)
    ensures RanOf(ran + [(j, b)], k) == RanOf(ran, k) + (if k == j then multiset{b} else multiset{})
  {
    assert (ran + [(j, b)])[..|ran|] == ran;
  }

  lemma {:induction false} TaggedNext(j: nat, bs: seq<Block>, b: Block)
    ensures Tagged(j, bs + [b]) == Tagged(j, bs) + [(j, b)]
  {
  }

  lemma {:induction false} TaggedStep(ran: seq<(nat, Block)>, j: nat, bs: seq<Block>, b: Block, k: nat)
    ensures RanOf(ran + Tagged(j, bs + [b]), k)
            == RanOf(ran + Tagged(j, bs), k) + (if k == j then multiset{b} else multiset{})
  {
    TaggedNext(j, bs, b);
    assert ran + (Tagged(j, bs) + [(j, b)]) == (ran + Tagged(j, bs)) + [(j, b)];
    RanNext(ran + Tagged(j, bs), j, b, k);
  }

  lemma {:induction false} TaggedRan(ran: seq<(nat, Block)>, j: nat, bs: seq<Block>, k: nat)
    ensures RanOf(ran + Tagged(j, bs), k) == RanOf(ran, k) + (if k == j then multiset(bs) else multiset{})
  {
    if bs == [] {
      assert ran + Tagged(j, bs) == ran;
    } else {
      var n := |bs| - 1;
      var front, last := bs[..n], bs[n];
      assert bs == front + [last];
      TaggedRan(ran, j, front, k);
      TaggedStep(ran, j, front, last, k);
    }
  }

  /** Request j ran the last of its blocks from `left` on; nothing else about requests changed. */
  ghost predicate Served(c: Context, c': Context, j: nat, left: nat) {
    && j < |c.requests| == |c'.requests| && left <= |c.requests[j].todo|
    && (forall k | 0 <= k < |c.requests| && k != j :: c'.requests[k] == c.requests[k])
    && |c'.requests[j].buffer| == |c.requests[j].buffer|
    && c'.requests[j].todo == c.requests[j].todo[..left] && c'.requests[j].pending == left
    && c'.ran == c.ran + Tagged(j, c.requests[j].todo[left..])
  }

  lemma {:induction false} RunBlocksLog(c: Context, j: nat, bs: seq<Block>)
    requires j < |c.requests| && AllFit(c.requests[j], bs)
    ensures RunBlocks(c, j, bs).ran == c.ran + Tagged(j, bs)
    ensures forall k | 0 <= k < |c.requests| && k != j :: RunBlocks(c, j, bs).requests[k] == c.requests[k]
    decreases |bs|
  {
    if bs != [] {
      var n := |bs| - 1;
      RunBlocksLog(c, j, bs[..n]);
      assert Tagged(j, bs) == Tagged(j, bs[..n]) + [(j, bs[n])];
    }
  }

  lemma {:induction false} HighServed(c: Context)
    requires CanSchedule(c) && c.high != []
    ensures Served(c, Schedule(c), c.high[0], 0)
  {
    var j := c.high[0];
    RunBlocksLog(c, j, c.requests[j].todo);
    assert c.requests[j].todo[0..] == c.requests[j].todo;
  }

  lemma {:induction false} LowServed(c: Context)
    requires CanSchedule(c) && c.high == [] && c.low != []
    requires c.requests[c.low[0]].pending == |c.requests[c.low[0]].todo|
    ensures Served(c, Schedule(c), c.low[0], |c.requests[c.low[0]].todo| - 1)
  {
    var j := c.low[0];
    var todo := c.requests[j].todo;
    assert Tagged(j, todo[|todo| - 1..]) == [(j, todo[|todo| - 1])];
  }

  lemma {:induction false} SplitTodo(todo: seq<Block>, left: nat)
    requires left <= |todo|
    ensures multiset(todo[left..]) + multiset(todo[..left]) == multiset(todo)
  {
    assert todo == todo[..left] + todo[left..];
  }

  lemma {:induction false} ServedOne(c: Context, c': Context, j: nat, left: nat)
    requires RequestsOk(c) && Served(c, c', j, left)
    ensures RequestOk(c', j)
  {
    var todo := c.requests[j].todo;
    assert RequestOk(c, j);
    TaggedRan(c.ran, j, todo[left..], j);
    SplitTodo(todo, left);
  }

  lemma {:induction false} ServedRequest(c: Context, c': Context, j: nat, left: nat, k: nat)
    requires RequestsOk(c) && Served(c, c', j, left) && k < |c.requests|
    ensures RequestOk(c', k)
  {
    if k == j {
      ServedOne(c, c', j, left);
    } else {
      assert RequestOk(c, k);
      TaggedRan(c.ran, j, c.requests[j].todo[left..], k);
    }
  }

  lemma {:induction false} ServedRequests(c: Context, c': Context, j: nat, left: nat)
    requires RequestsOk(c) && Served(c, c', j, left)
    ensures RequestsOk(c')
  {
    forall k | 0 <= k < |c'.requests|
      ensures RequestOk(c', k)
    {
      ServedRequest(c, c', j, left, k);
    }
  }

  lemma {:induction false} Without(q: seq<nat>, j: nat)
    requires NoRepeat(q) && q != [] && q[0] == j
    ensures forall x | x in q && x != j :: x in q[1..]
    ensures NoRepeat(q[1..]) && j !in q[1..]
  {
    assert q == [q[0]] + q[1..];
  }

  lemma {:induction false} HighQueues(c: Context, c': Context)
    requires QueuesOk(c) && c.high != [] && Served(c, c', c.high[0], 0)
    requires c'.high == c.high[1..] && c'.low == c.low
    ensures QueuesOk(c')
  {
    Without(c.high, c.high[0]);
  }

  lemma {:induction false} LowQueues(c: Context, c': Context)
    requires QueuesOk(c) && c.high == [] && c.low != [] && c.requests[c.low[0]].todo != []
    requires Served(c, c', c.low[0], |c.requests[c.low[0]].todo| - 1)
    requires c'.high == [] && c'.low == if |c.requests[c.low[0]].todo| == 1 then c.low[1..] else c.low
    ensures QueuesOk(c')
  {
    Without(c.low, c.low[0]);
    forall i | 0 <= i < |c'.low|
      ensures c'.low[i] < |c'.requests|
      ensures AllFit(c'.requests[c'.low[i]], c'.requests[c'.low[i]].todo)
    {
      assert c'.low[i] in c.low;
      var m :| 0 <= m < |c.low| && c.low[m] == c'.low[i];
    }
  }

  lemma {:induction false} ScheduleOk(c: Context)
    requires ContextOk(c) && CanSchedule(c)
    ensures ContextOk(Schedule(c))
  {
    if c.high != [] {
      HighServed(c);
      ServedRequests(c, Schedule(c), c.high[0], 0);
      HighQueues(c, Schedule(c));
    } else if c.low != [] {
      assert RequestOk(c, c.low[0]);
      LowServed(c);
      ServedRequests(c, Schedule(c), c.low[0], |c.requests[c.low[0]].todo| - 1);
      LowQueues(c, Schedule(c));
    }
  }

  // --------------------------------------------------------------------------
  // Whole runs
  // --------------------------------------------------------------------------

  datatype Event = Accepted(isRead: bool, base: nat, buffer: seq<Byte>, highPrio: bool) | Turn

  /** Broken: a turn took the last block of a request that has none. */
  datatype Reached = Running(context: Context) | Broken

  ghost function Step(o: Reached, e: Event): Reached {
    if o.Broken? then Broken
    else
      match e
      case Accepted(isRead, base, buffer, highPrio) =>
        Running(Accept(o.context, NewRequest(isRead, base, buffer), highPrio))
      case Turn => if CanSchedule(o.context) then Running(Schedule(o.context)) else Broken
  }

  ghost function Run(f: File, es: seq<Event>): Reached {
    if es == [] then Running(Context(f, [], [], [], [])) else Step(Run(f, es[..|es| - 1]), es[|es| - 1])
  }

  lemma {:induction false} StepOk(c: Context, e: Event)
    requires ContextOk(c) && Step(Running(c), e).Running?
    ensures ContextOk(Step(Running(c), e).context)
  {
    match e
    case Accepted(isRead, base, buffer, highPrio) => AcceptOk(c, NewRequest(isRead, base, buffer), highPrio);
    case Turn => ScheduleOk(c);
  }

  lemma {:induction false} RunOk(f: File, es: seq<Event>)
    requires Run(f, es).Running?
    ensures ContextOk(Run(f, es).context)
  {
    if es != [] {
      RunOk(f, es[..|es| - 1]);
      StepOk(Run(f, es[..|es| - 1]).context, es[|es| - 1]);
    }
  }

  /**
   However requests arrive and whatever their priorities and sizes, a request is reported
   complete only when every one of its blocks has run, each exactly once.
   */
  lemma {:induction false} CompleteMeansAllRan(f: File, es: seq<Event>, j: nat)
    requires Run(f, es).Running?
    requires j < |Run(f, es).context.requests| && Run(f, es).context.requests[j].pending == 0
    ensures var c := Run(f, es).context;
            RanOf(c.ran, j) == multiset(Blocks(|c.requests[j].buffer|, BLOCK))
  {
    RunOk(f, es);
    assert RequestOk(Run(f, es).context, j);
  }

  // --------------------------------------------------------------------------
  // Which runs break
  // --------------------------------------------------------------------------

  /** Every request in the low queue has a block left. */
  ghost predicate LowServable(c: Context) {
    forall i | 0 <= i < |c.low| :: c.low[i] < |c.requests| && c.requests[c.low[i]].todo != []
  }

  /** Accepting a request keeps every later turn defined if and only if it has a block or is of high priority. */
  lemma {:induction false} AcceptServable(c: Context, r: Request, highPrio: bool)
    requires LowServable(c) && r == NewRequest(r.isRead, r.base, r.buffer)
    ensures LowServable(Accept(c, r, highPrio)) <==> r.buffer != [] || highPrio
  {
    var c' := Accept(c, r, highPrio);
    CountCovers(|r.buffer|, BLOCK);
    forall i | 0 <= i < |c.low|
      ensures c'.low[i] < |c'.requests| && c'.requests[c'.low[i]].todo != []
    {
      assert c'.low[i] == c.low[i];
    }
    if !highPrio {
      assert c'.low[|c.low|] == |c.requests|;
    }
  }

  lemma {:induction false} ScheduleServable(c: Context)
    requires ContextOk(c) && LowServable(c)
    ensures CanSchedule(c) && LowServable(Schedule(c))
  {
    if c.high != [] {
      HighServed(c);
    } else if c.low != [] {
      assert RequestOk(c, c.low[0]);
      LowServed(c);
      LowServedServable(c, Schedule(c));
    }
  }

  lemma {:induction false} LowServedServable(c: Context, c': Context)
    requires QueuesOk(c) && LowServable(c) && c.low != []
    requires Served(c, c', c.low[0], |c.requests[c.low[0]].todo| - 1)
    requires c'.low == if |c.requests[c.low[0]].todo| == 1 then c.low[1..] else c.low
    ensures LowServable(c')
  {
    Without(c.low, c.low[0]);
    forall i | 0 <= i < |c'.low|
      ensures c'.low[i] < |c'.requests| && c'.requests[c'.low[i]].todo != []
    {
      assert c'.low[i] in c.low;
    }
  }

  /** No low-priority request without blocks. */
  predicate Servable(e: Event) {
    e.Accepted? && e.buffer == [] ==> e.highPrio
  }

  lemma {:induction false} ServableRuns(f: File, es: seq<Event>)
    requires forall i | 0 <= i < |es| :: Servable(es[i])
    ensures Run(f, es).Running? && LowServable(Run(f, es).context)
  {
    if es != [] {
      var before, e := es[..|es| - 1], es[|es| - 1];
      ServableRuns(f, before);
      RunOk(f, before);
      var c := Run(f, before).context;
      match e
      case Accepted(isRead, base, buffer, highPrio) => AcceptServable(c, NewRequest(isRead, base, buffer), highPrio);
      case Turn => ScheduleServable(c);
    }
  }

  /** A request without blocks waits at place k of the low queue. */
  ghost predicate StuckAt(c: Context, k: nat) {
    k < |c.low| && c.low[k] < |c.requests| && c.requests[c.low[k]].todo == []
  }

  /** n more turns. */
  ghost function Turns(o: Reached, n: nat): Reached {
    if n == 0 then o else Step(Turns(o, n - 1), Turn)
  }

  lemma {:induction false} FirstTurn(o: Reached, n: nat)
    ensures Turns(Step(o, Turn), n) == Turns(o, n + 1)
  {
    if n > 0 {
      FirstTurn(o, n - 1);
      assert Turns(o, n + 1) == Step(Turns(o, n), Turn);
    }
  }

  /** A turn of high priority leaves the low queue waiting. */
  lemma {:induction false} StuckHigh(c: Context, k: nat)
    requires ContextOk(c) && StuckAt(c, k) && c.high != []
    ensures CanSchedule(c) && StuckAt(Schedule(c), k) && |Schedule(c).high| < |c.high|
  {
    HighServed(c);
  }

  lemma {:induction false} StuckNearer(c: Context, c': Context, k: nat) returns (k': nat)
    requires QueueOk(c', c'.low) && NoRepeat(c.low) && StuckAt(c, k) && c.low[0] < |c.requests|
             && c.requests[c.low[0]].todo != []
    requires Served(c, c', c.low[0], |c.requests[c.low[0]].todo| - 1)
    requires c'.low == if |c.requests[c.low[0]].todo| == 1 then c.low[1..] else c.low
    ensures StuckAt(c', k') && c'.low[0] < |c'.requests|
    ensures k' < k || (k' == k && |c'.requests[c'.low[0]].todo| < |c.requests[c.low[0]].todo|)
  {
    k' := if |c.requests[c.low[0]].todo| == 1 then k - 1 else k;
    assert c'.low[k'] == c.low[k] != c.low[0];
  }

  /** A turn of low priority brings the request without blocks nearer to the front. */
  lemma {:induction false} StuckLow(c: Context, k: nat) returns (k': nat)
    requires ContextOk(c) && StuckAt(c, k) && c.high == [] && CanSchedule(c)
    ensures StuckAt(Schedule(c), k') && Schedule(c).high == []
    ensures Schedule(c).low[0] < |Schedule(c).requests|
    ensures k' < k || (k' == k && |Schedule(c).requests[Schedule(c).low[0]].todo| < |c.requests[c.low[0]].todo|)
  {
    assert RequestOk(c, c.low[0]);
    LowServed(c);
    ScheduleOk(c);
    k' := StuckNearer(c, Schedule(c), k);
  }

  /** Such a request breaks the scheduler, after the turns that bring it to the front. */
  lemma {:induction false} StuckBreaks(c: Context, k: nat) returns (n: nat)
    requires ContextOk(c) && StuckAt(c, k)
    ensures Turns(Running(c), n).Broken?
    decreases |c.high|, k, |c.requests[c.low[0]].todo|
  {
    if !CanSchedule(c) {
      n := 1;
      assert Turns(Running(c), 1) == Step(Turns(Running(c), 0), Turn);
    } else {
      ScheduleOk(c);
      var k' := k;
      if c.high != [] {
        StuckHigh(c, k);
      } else {
        k' := StuckLow(c, k);
      }
      var m := StuckBreaks(Schedule(c), k');
      FirstTurn(Running(c), m);
      n := m + 1;
    }
  }

  lemma {:induction false} StaysStuck(c: Context, e: Event, k: nat) returns (k': nat)
    requires ContextOk(c) && StuckAt(c, k) && Step(Running(c), e).Running?
    ensures StuckAt(Step(Running(c), e).context, k')
  {
    k' := k;
    if e.Turn? {
      if c.high != [] {
        StuckHigh(c, k);
      } else {
        k' := StuckLow(c, k);
      }
    }
  }

  lemma {:induction false} AcceptStuck(c: Context, r: Request)
    requires r == NewRequest(r.isRead, r.base, [])
    ensures StuckAt(Accept(c, r, false), |c.low|)
  {
    assert BlockCount(0, BLOCK) == 0;
  }

  /** Once accepted, such a request stays in the low queue as long as the scheduler runs. */
  lemma {:induction false} RunStuck(f: File, es: seq<Event>, i: nat) returns (k: nat)
    requires i < |es| && !Servable(es[i]) && Run(f, es).Running?
    ensures StuckAt(Run(f, es).context, k)
  {
    var before, e := es[..|es| - 1], es[|es| - 1];
    RunOk(f, before);
    var c := Run(f, before).context;
    if i < |before| {
      var k0 := RunStuck(f, before, i);
      k := StaysStuck(c, e, k0);
    } else {
      k := |c.low|;
      AcceptStuck(c, NewRequest(e.isRead, e.base, []));
    }
  }

  lemma {:induction false} UnservableBreaks(f: File, es: seq<Event>, i: nat) returns (n: nat)
    requires i < |es| && !Servable(es[i])
    ensures Turns(Run(f, es), n).Broken?
  {
    if Run(f, es).Broken? {
      n := 0;
    } else {
      var k := RunStuck(f, es, i);
      RunOk(f, es);
      n := StuckBreaks(Run(f, es).context, k);
    }
  }

  ghost predicate NeverBreaks(f: File, es: seq<Event>) {
    forall n: nat :: !Turns(Run(f, es), n).Broken?
  }

  /** A run keeps every later turn defined if and only if it accepted no low-priority request without blocks. */
  lemma {:induction false} NeverBreaksExactly(f: File, es: seq<Event>)
    ensures NeverBreaks(f, es) <==> (forall i | 0 <= i < |es| :: Servable(es[i]))
  {
    if forall i | 0 <= i < |es| :: Servable(es[i]) {
      forall n: nat
        ensures !Turns(Run(f, es), n).Broken?
      {
        ServableTurns(f, es, n);
      }
    } else {
      var i :| 0 <= i < |es| && !Servable(es[i]);
      var n := UnservableBreaks(f, es, i);
    }
  }

  lemma {:induction false} ServableTurns(f: File, es: seq<Event>, n: nat)
    requires forall i | 0 <= i < |es| :: Servable(es[i])
    ensures Turns(Run(f, es), n).Running?
    ensures ContextOk(Turns(Run(f, es), n).context) && LowServable(Turns(Run(f, es), n).context)
  {
    ServableRuns(f, es);
    RunOk(f, es);
    if n > 0 {
      ServableTurns(f, es, n - 1);
      ScheduleServable(Turns(Run(f, es), n - 1).context);
      ScheduleOk(Turns(Run(f, es), n - 1).context);
    }
  }
}
