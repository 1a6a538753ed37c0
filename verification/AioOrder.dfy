/** In which order transfers are served: by priority, and within one priority in the order of arrival. */
module AioOrder {
  import opened Aio
  import opened AioLaws

  /** The priorities of the requests accepted, in the order of arrival. */
  function Priorities(es: seq<Event>): seq<bool> {
    if es == [] then []
    else
      var e := es[|es| - 1];
      Priorities(es[..|es| - 1]) + (if e.Accepted? then [e.highPrio] else [])
  }

  ghost predicate Ascending(q: seq<nat>) {
    forall i, k | 0 <= i < k < |q| :: q[i] < q[k]
  }

  ghost predicate Whole(c: Context, j: nat) {
    j < |c.requests| && |c.requests[j].todo| == |Blocks(|c.requests[j].buffer|, BLOCK)|
  }

  ghost predicate AllOf(q: seq<nat>, prios: seq<bool>, high: bool) {
    forall i | 0 <= i < |q| :: q[i] < |prios| && prios[q[i]] == high
  }

  /** Each queue holds its priority in the order of arrival, and only the first low-priority request may be begun. */
  ghost predicate InOrder(c: Context, prios: seq<bool>) {
    && |prios| == |c.requests|
    && AllOf(c.high, prios, true) && AllOf(c.low, prios, false)
    && Ascending(c.high) && Ascending(c.low)
    && (forall i | 0 <= i < |c.high| :: Whole(c, c.high[i]))
    && (forall i | 0 < i < |c.low| :: Whole(c, c.low[i]))
  }

  lemma {:induction false} AscendingAppend(q: seq<nat>, n: nat)
    requires Ascending(q) && forall i | 0 <= i < |q| :: q[i] < n
    ensures Ascending(q + [n])
  {
  }

  lemma {:induction false} WholeAppend(c: Context, c': Context, r: Request, j: nat)
    requires Whole(c, j) && c'.requests == c.requests + [r]
    ensures Whole(c', j)
  {
  }

  lemma {:induction false} AllOfAppend(q: seq<nat>, prios: seq<bool>, high: bool, p: bool)
    requires AllOf(q, prios, high)
    ensures AllOf(q, prios + [p], high)
    ensures p == high ==> AllOf(q + [|prios|], prios + [p], high)
  {
  }

  lemma {:induction false} AcceptInOrder(c: Context, c': Context, prios: seq<bool>, r: Request, highPrio: bool)
    requires InOrder(c, prios) && r == NewRequest(r.isRead, r.base, r.buffer) && c' == Accept(c, r, highPrio)
    ensures InOrder(c', prios + [highPrio])
  {
    var j := |c.requests|;
    AllOfAppend(c.high, prios, true, highPrio);
    AllOfAppend(c.low, prios, false, highPrio);
    AscendingAppend(c.high, j);
    AscendingAppend(c.low, j);
    assert Whole(c', j);
    forall i | 0 <= i < |c'.high|
      ensures Whole(c', c'.high[i])
    {
      if i < |c.high| {
        WholeAppend(c, c', r, c.high[i]);
      }
    }
    forall i | 0 < i < |c'.low|
      ensures Whole(c', c'.low[i])
    {
      if i < |c.low| {
        WholeAppend(c, c', r, c.low[i]);
      }
    }
  }

  lemma {:induction false} ServedWhole(c: Context, c': Context, j: nat, left: nat, k: nat)
    requires Served(c, c', j, left) && Whole(c, k) && k != j
    ensures Whole(c', k)
  {
  }

  lemma {:induction false} AllOfTail(q: seq<nat>, prios: seq<bool>, high: bool)
    requires AllOf(q, prios, high) && q != []
    ensures AllOf(q[1..], prios, high)
    ensures Ascending(q) ==> Ascending(q[1..])
  {
  }

  /** The request that a turn serves: the first of high priority, or else the first of low priority. */
  ghost predicate Serves(c: Context, c': Context) {
    if c.high != [] then
      Served(c, c', c.high[0], 0) && c'.high == c.high[1..] && c'.low == c.low
    else if c.low != [] then
      c.low[0] < |c.requests|
      && var n := |c.requests[c.low[0]].todo| - 1;
      && n >= 0 && Served(c, c', c.low[0], n)
      && c'.high == [] && c'.low == if n == 0 then c.low[1..] else c.low
    else c' == c
  }

  lemma {:induction false} ScheduleServes(c: Context)
    requires ContextOk(c) && CanSchedule(c)
    ensures Serves(c, Schedule(c))
  {
    if c.high != [] {
      HighServed(c);
    } else if c.low != [] {
      assert RequestOk(c, c.low[0]);
      LowServed(c);
    }
  }

  lemma {:induction false} HighInOrder(c: Context, c': Context, prios: seq<bool>)
    requires InOrder(c, prios) && c.high != [] && Serves(c, c')
    ensures InOrder(c', prios)
  {
    var j := c.high[0];
    AllOfTail(c.high, prios, true);
    forall i | 0 <= i < |c'.high|
      ensures Whole(c', c'.high[i])
    {
      ServedWhole(c, c', j, 0, c.high[i + 1]);
    }
    forall i | 0 < i < |c'.low|
      ensures Whole(c', c'.low[i])
    {
      assert !prios[c.low[i]] && prios[j];
      ServedWhole(c, c', j, 0, c.low[i]);
    }
  }

  lemma {:induction false} LowInOrder(c: Context, c': Context, prios: seq<bool>)
    requires InOrder(c, prios) && c.high == [] && c.low != [] && Serves(c, c')
    ensures InOrder(c', prios)
  {
    var j := c.low[0];
    var n := |c.requests[j].todo| - 1;
    AllOfTail(c.low, prios, false);
    forall i | 0 < i < |c'.low|
      ensures Whole(c', c'.low[i])
    {
      var k := if n == 0 then c.low[i + 1] else c.low[i];
      assert Whole(c, k) && k == c'.low[i];
      ServedWhole(c, c', j, n, k);
    }
  }

  lemma {:induction false} StepInOrder(c: Context, prios: seq<bool>, e: Event)
    requires ContextOk(c) && InOrder(c, prios) && Step(Running(c), e).Running?
    ensures InOrder(Step(Running(c), e).context, prios + (if e.Accepted? then [e.highPrio] else []))
  {
    match e
    case Accepted(isRead, base, buffer, highPrio) =>
      var r := NewRequest(isRead, base, buffer);
      AcceptInOrder(c, Accept(c, r, highPrio), prios, r, highPrio);
    case Turn =>
      assert prios + [] == prios;
      ScheduleServes(c);
      if c.high != [] {
        HighInOrder(c, Schedule(c), prios);
      } else if c.low != [] {
        LowInOrder(c, Schedule(c), prios);
      }
  }

  lemma {:induction false} RunInOrder(f: File, es: seq<Event>)
    requires Run(f, es).Running?
    ensures InOrder(Run(f, es).context, Priorities(es))
  {
    if es != [] {
      var before := es[..|es| - 1];
      RunInOrder(f, before);
      RunOk(f, before);
      StepInOrder(Run(f, before).context, Priorities(before), es[|es| - 1]);
    }
  }

  // --------------------------------------------------------------------------
  // What a turn does
  // --------------------------------------------------------------------------

  predicate Finished(c: Context, j: nat)
    requires j < |c.requests|
  {
    c.requests[j].todo == []
  }

  /** The front of an ascending queue is its least. */
  lemma {:induction false} FrontIsLeast(q: seq<nat>, j: nat)
    requires Ascending(q) && j in q
    ensures q[0] <= j
  {
    var i :| 0 <= i < |q| && q[i] == j;
  }

  lemma {:induction false} InOwnQueue(c: Context, prios: seq<bool>, j: nat)
    requires ContextOk(c) && InOrder(c, prios) && j < |c.requests| && !Finished(c, j)
    ensures if prios[j] then j in c.high else j in c.low
  {
    assert j in c.high || j in c.low;
    if j in c.high {
      var i :| 0 <= i < |c.high| && c.high[i] == j;
    } else {
      var i :| 0 <= i < |c.low| && c.low[i] == j;
    }
  }

  /** A request that moves in a turn is the one served. */
  lemma {:induction false} MovedIsServed(c: Context, c': Context, j: nat)
    requires Serves(c, c') && j < |c.requests| == |c'.requests| && c'.requests[j].todo != c.requests[j].todo
    ensures if c.high != [] then j == c.high[0] else c.low != [] && j == c.low[0]
  {
  }

  lemma {:induction false} EarlierFinished(c: Context, prios: seq<bool>, j: nat, i: nat)
    requires ContextOk(c) && InOrder(c, prios) && i < |c.requests|
    requires if c.high != [] then j == c.high[0] else c.low != [] && j == c.low[0]
    ensures j < |prios| && (i < j && prios[i] == prios[j] ==> Finished(c, i))
    ensures !prios[j] && prios[i] ==> Finished(c, i)
  {
    if !Finished(c, i) {
      InOwnQueue(c, prios, i);
      if prios[i] {
        FrontIsLeast(c.high, i);
      } else if c.high == [] {
        FrontIsLeast(c.low, i);
      }
    }
  }

  /**
   In every run, a turn moves a request only when every earlier one of its priority is finished, and one of low
   priority only when all of high priority are.  A high-priority request runs whole, its blocks in order; a
   low-priority one runs one block, the last it has left.
   */
  lemma {:induction false} ServedInTurn(f: File, es: seq<Event>, j: nat, i: nat)
    requires Run(f, es).Running? && Run(f, es + [Turn]).Running?
    requires var c, c' := Run(f, es).context, Run(f, es + [Turn]).context;
             && j < |c.requests| == |c'.requests| && i < |c.requests|
             && c'.requests[j].todo != c.requests[j].todo
    ensures |Priorities(es)| == |Run(f, es).context.requests|
    ensures var c, c', high := Run(f, es).context, Run(f, es + [Turn]).context, Priorities(es);
            && (i < j && high[i] == high[j] ==> Finished(c, i))
            && (!high[j] && high[i] ==> Finished(c, i))
            && (i != j ==> c'.requests[i] == c.requests[i])
            && (high[j] ==> Finished(c', j) && c'.ran == c.ran + Tagged(j, Blocks(|c.requests[j].buffer|, BLOCK)))
            && (!high[j] ==>
                  var n := |c.requests[j].todo| - 1;
                  n >= 0 && c'.requests[j].todo == c.requests[j].todo[..n]
                  && c'.ran == c.ran + [(j, c.requests[j].todo[n])])
  {
    var c, c', high := Run(f, es).context, Run(f, es + [Turn]).context, Priorities(es);
    assert (es + [Turn])[..|es|] == es;
    RunOk(f, es);
    RunInOrder(f, es);
    ScheduleServes(c);
    MovedIsServed(c, c', j);
    EarlierFinished(c, high, j, i);
    ServedBlocks(c, c', high, j);
  }

  lemma {:induction false} ServedBlocks(c: Context, c': Context, high: seq<bool>, j: nat)
    requires ContextOk(c) && InOrder(c, high) && Serves(c, c')
    requires if c.high != [] then j == c.high[0] else c.low != [] && j == c.low[0]
    ensures high[j] ==> j < |c'.requests| && Finished(c', j)
                        && c'.ran == c.ran + Tagged(j, Blocks(|c.requests[j].buffer|, BLOCK))
    ensures !high[j] ==>
              var n := |c.requests[j].todo| - 1;
              n >= 0 && j < |c'.requests| && c'.requests[j].todo == c.requests[j].todo[..n]
              && c'.ran == c.ran + [(j, c.requests[j].todo[n])]
  {
    var todo := c.requests[j].todo;
    assert RequestOk(c, j);
    if c.high != [] {
      assert Whole(c, c.high[0]);
      assert todo[0..] == todo == Blocks(|c.requests[j].buffer|, BLOCK);
    } else {
      assert Tagged(j, todo[|todo| - 1..]) == [(j, todo[|todo| - 1])];
    }
  }
}
