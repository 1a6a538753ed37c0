/** One pass of SendIdlePartitions, seen through the tracker's view: claim, assign, send. */
module ProxySweep {
  import opened Tiling
  import opened Keys
  import opened Tracker
  import opened TrackerView
  import opened Protocol
  import opened ProtocolInvariant
  import opened ProtocolRuns

  /** Where a pass leaves an idle tile: on its target's link, or idle again (but homed at the target it was given). */
  function Settled(e: Entry, k: Key, targets: map<Key, int>, open: set<int>): Entry {
    if k !in targets then e
    else Entry(e.oid, if targets[k] in open then Running else Idle, targets[k])
  }

  /** The view after a whole pass; what was not idle is not touched. */
  function SweptView(v: map<Key, Entry>, targets: map<Key, int>, open: set<int>): map<Key, Entry> {
    map k | k in v :: if v[k].state == Idle then Settled(v[k], k, targets, open) else v[k]
  }

  /** The view while claimed tiles are being assigned; `done` are the ones already looked at. */
  function AssigningView(v: map<Key, Entry>, targets: map<Key, int>, done: set<Key>): map<Key, Entry> {
    map k | k in v ::
      if v[k].state != Idle then v[k]
      else if k !in done then v[k].(state := Running)
      else if k in targets then Entry(v[k].oid, Running, targets[k])
      else v[k]
  }

  /** The view while assigned tiles are being sent. */
  function SendingView(v: map<Key, Entry>, targets: map<Key, int>, open: set<int>, done: set<Key>): map<Key, Entry> {
    map k | k in v ::
      if v[k].state != Idle then v[k]
      else if k !in targets || k in done then Settled(v[k], k, targets, open)
      else Entry(v[k].oid, Running, targets[k])
  }

  lemma {:induction false} ClaimStarts(v: map<Key, Entry>, targets: map<Key, int>)
    ensures ClaimedView(v) == AssigningView(v, targets, {})
  {
  }

  /** Assigning or releasing one more claimed tile. */
  lemma {:induction false} AssignNext(v: map<Key, Entry>, targets: map<Key, int>, done: set<Key>, k: Key)
    requires k in v && v[k].state == Idle && k !in done
    ensures k in AssigningView(v, targets, done)
    ensures var u := AssigningView(v, targets, done);
            && (k in targets ==> u[k := u[k].(home := targets[k])] == AssigningView(v, targets, done + {k}))
            && (k !in targets ==> u[k := u[k].(state := Idle)] == AssigningView(v, targets, done + {k}))
  {
  }

  lemma {:induction false} AssignEnds(v: map<Key, Entry>, targets: map<Key, int>, open: set<int>)
    ensures AssigningView(v, targets, IdleKeys(v)) == SendingView(v, targets, open, {})
  {
  }

  /** Sending one more tile, or releasing it because its target's link is gone. */
  lemma {:induction false} SendNext(v: map<Key, Entry>, targets: map<Key, int>, open: set<int>, done: set<Key>, k: Key)
    requires k in v && v[k].state == Idle && k in targets && k !in done
    ensures k in SendingView(v, targets, open, done)
    ensures var u := SendingView(v, targets, open, done);
            && u[k] == Entry(v[k].oid, Running, targets[k])
            && (targets[k] in open ==> u == SendingView(v, targets, open, done + {k}))
            && (targets[k] !in open ==> u[k := u[k].(state := Idle)] == SendingView(v, targets, open, done + {k}))
  {
  }

  lemma {:induction false} SendEnds(v: map<Key, Entry>, targets: map<Key, int>, open: set<int>, ready: set<Key>)
    requires forall k :: k in ready <==> k in IdleKeys(v) && k in targets
    ensures SendingView(v, targets, open, ready) == SweptView(v, targets, open)
  {
  }

  // --------------------------------------------------------------------------
  // The steps of a pass
  // --------------------------------------------------------------------------

  /** The claimed tiles are those claimed before and the ones held now. */
  ghost predicate Beside(before: set<Key>, now: set<Key>, held: set<Key>) {
    now == before + held && held !! before
  }

  lemma {:induction false} HoldMore(before: set<Key>, now: set<Key>, more: set<Key>)
    requires Beside(before, now, {}) && more !! now
    ensures Beside(before, now + more, more)
  {
  }

  lemma {:induction false} HoldLess(before: set<Key>, now: set<Key>, held: set<Key>, k: Key)
    requires Beside(before, now, held) && k in held
    ensures k in now && Beside(before, now - {k}, held - {k})
  {
  }

  /**
   A pass that began at s0 and has taken the steps xs: the view it has reached and the tiles
   it holds, beside those that other passes held before.
   */
  ghost predicate During<T(!new)>(ar: Arith<T>, s0: Server<T>, s: Server<T>, xs: seq<Action<T>>,
                                  u: map<Key, Entry>, held: set<Key>)
  {
    && Inv(ar, s) && s == ExecFrom(ar, s0, xs)
    && View(s.tracker) == u && s.links.Keys == s0.links.Keys
    && Beside(s0.limbo, s.limbo, held)
  }

  lemma {:induction false} StepTaken<T(!new)>(ar: Arith<T>, s0: Server<T>, s: Server<T>, xs: seq<Action<T>>,
                                              x: Action<T>)
    requires s == ExecFrom(ar, s0, xs) && Agree(s.tracker) && Enabled(ar, s, x)
    ensures Wf(s.tracker) && Next(s, x) == ExecFrom(ar, s0, xs + [x])
  {
    AgreeIsWf(s.tracker);
    ExecNext(ar, s0, xs, x);
  }

  lemma {:induction false} NoneIdleHeld<T(!new)>(ar: Arith<T>, s: Server<T>)
    requires Inv(ar, s)
    ensures IdleKeys(View(s.tracker)) !! s.limbo
  {
  }

  lemma {:induction false} DuringClaim<T(!new)>(ar: Arith<T>, s0: Server<T>, s: Server<T>, xs: seq<Action<T>>,
                                                u: map<Key, Entry>)
    requires During(ar, s0, s, xs, u, {})
    ensures During(ar, s0, DoClaim(s), xs + [ClaimIdle], ClaimedView(u), IdleKeys(u))
  {
    StepTaken(ar, s0, s, xs, ClaimIdle);
    ClaimInv(ar, s);
    ClaimView(s.tracker);
    NoneIdleHeld(ar, s);
    HoldMore(s0.limbo, s.limbo, IdleKeys(u));
  }

  lemma {:induction false} HeldIsViewed<T(!new)>(ar: Arith<T>, s: Server<T>, k: Key)
    requires Inv(ar, s) && k in s.limbo
    ensures k in View(s.tracker) && k in s.tracker.byKey && Wf(s.tracker)
  {
    AgreeIsWf(s.tracker);
  }

  lemma {:induction false} DuringAssign<T(!new)>(ar: Arith<T>, s0: Server<T>, s: Server<T>, xs: seq<Action<T>>,
                                                 u: map<Key, Entry>, held: set<Key>, k: Key, target: int)
    requires During(ar, s0, s, xs, u, held) && k in held
    ensures k in u && Wf(s.tracker) && k in s.tracker.byKey
    ensures During(ar, s0, DoAssign(s, k, target), xs + [Assign(k, target)], u[k := u[k].(home := target)], held)
  {
    HeldIsViewed(ar, s, k);
    StepTaken(ar, s0, s, xs, Assign(k, target));
    AssignInv(ar, s, k, target);
    ReassignView(s.tracker, k, target);
  }

  lemma {:induction false} DuringRelease<T(!new)>(ar: Arith<T>, s0: Server<T>, s: Server<T>, xs: seq<Action<T>>,
                                                  u: map<Key, Entry>, held: set<Key>, k: Key)
    requires During(ar, s0, s, xs, u, held) && k in held
    ensures k in u && Wf(s.tracker)
    ensures During(ar, s0, DoRelease(s, k), xs + [Release(k)], u[k := u[k].(state := Idle)], held - {k})
  {
    HoldLess(s0.limbo, s.limbo, held, k);
    HeldIsViewed(ar, s, k);
    StepTaken(ar, s0, s, xs, Release(k));
    ReleaseInv(ar, s, k);
    MarkView(s.tracker, k, Idle);
  }

  lemma {:induction false} Sendable<T(!new)>(ar: Arith<T>, s: Server<T>, k: Key)
    requires Inv(ar, s) && k in View(s.tracker)
    ensures var oid := View(s.tracker)[k].oid; Belongs(s, oid, k) && s.ops[oid].Ok()
  {
    var v := View(s.tracker);
    assert EntryOk(s, v, k) && OpOk(s, v[k].oid);
  }

  lemma {:induction false} SendEffect<T>(s: Server<T>, k: Key)
    requires k in View(s.tracker) && View(s.tracker)[k].home in s.links
    requires Belongs(s, View(s.tracker)[k].oid, k) && s.ops[View(s.tracker)[k].oid].Ok()
    ensures var e, s' := View(s.tracker)[k], DoSend(s, k);
            s' == s.(links := s.links[e.home := s.links[e.home] + multiset{RequestFor(s, k, e.oid)}],
              limbo := s.limbo - {k})
            && s'.links.Keys == s.links.Keys
  {
  }

  lemma {:induction false} DuringSend<T(!new)>(ar: Arith<T>, s0: Server<T>, s: Server<T>, xs: seq<Action<T>>,
                                               u: map<Key, Entry>, held: set<Key>, k: Key)
    requires During(ar, s0, s, xs, u, held) && k in held && k in u && u[k].home in s.links
    ensures During(ar, s0, DoSend(s, k), xs + [Send(k)], u, held - {k})
  {
    HoldLess(s0.limbo, s.limbo, held, k);
    Sendable(ar, s, k);
    SendEffect(s, k);
    StepTaken(ar, s0, s, xs, Send(k));
    SendInv(ar, s, k);
  }

  // --------------------------------------------------------------------------
  // The two loops
  // --------------------------------------------------------------------------

  function ReadyKeys(v: map<Key, Entry>, targets: map<Key, int>): set<Key> {
    set k | k in IdleKeys(v) && k in targets
  }

  /** Claimed tiles that have not been given back while assigning. */
  function StillHeld(v: map<Key, Entry>, targets: map<Key, int>, done: set<Key>): set<Key> {
    set k | k in IdleKeys(v) && (k in targets || k !in done)
  }

  ghost predicate Assigning<T(!new)>(ar: Arith<T>, s0: Server<T>, s: Server<T>, xs: seq<Action<T>>,
                                     v: map<Key, Entry>, targets: map<Key, int>, done: set<Key>)
  {
    During(ar, s0, s, xs, AssigningView(v, targets, done), StillHeld(v, targets, done))
  }

  ghost predicate Sending<T(!new)>(ar: Arith<T>, s0: Server<T>, s: Server<T>, xs: seq<Action<T>>,
                                   v: map<Key, Entry>, targets: map<Key, int>, done: set<Key>)
  {
    During(ar, s0, s, xs, SendingView(v, targets, s0.links.Keys, done), ReadyKeys(v, targets) - done)
  }

  lemma {:induction false} HeldNext(v: map<Key, Entry>, targets: map<Key, int>, done: set<Key>, k: Key)
    requires k in IdleKeys(v) && k !in done
    ensures k in StillHeld(v, targets, done)
    ensures k in targets ==> StillHeld(v, targets, done + {k}) == StillHeld(v, targets, done)
    ensures k !in targets ==> StillHeld(v, targets, done + {k}) == StillHeld(v, targets, done) - {k}
  {
  }

  lemma {:induction false} ReadyNext(v: map<Key, Entry>, targets: map<Key, int>, done: set<Key>, k: Key)
    requires k in ReadyKeys(v, targets) && k !in done
    ensures k in ReadyKeys(v, targets) - done && k in v && v[k].state == Idle && k in targets
    ensures ReadyKeys(v, targets) - (done + {k}) == ReadyKeys(v, targets) - done - {k}
  {
  }

  lemma {:induction false} HeldEnds(v: map<Key, Entry>, targets: map<Key, int>)
    ensures StillHeld(v, targets, {}) == IdleKeys(v)
    ensures StillHeld(v, targets, IdleKeys(v)) == ReadyKeys(v, targets) - {}
    ensures ReadyKeys(v, targets) - ReadyKeys(v, targets) == {}
  {
  }

  lemma {:induction false} DuringNothing<T(!new)>(ar: Arith<T>, s: Server<T>)
    requires Inv(ar, s)
    ensures During(ar, s, s, [], View(s.tracker), {})
  {
  }

  lemma {:induction false} PassBegins<T(!new)>(ar: Arith<T>, s: Server<T>, targets: map<Key, int>)
    requires Inv(ar, s)
    ensures Assigning(ar, s, DoClaim(s), [ClaimIdle], View(s.tracker), targets, {})
  {
    var v := View(s.tracker);
    DuringNothing(ar, s);
    DuringClaim(ar, s, s, [], v);
    ClaimStarts(v, targets);
    HeldEnds(v, targets);
    assert [] + [ClaimIdle] == [Action<T>.ClaimIdle];
  }

  lemma {:induction false} PassAssigns<T(!new)>(ar: Arith<T>, s0: Server<T>, s: Server<T>, xs: seq<Action<T>>,
                             v: map<Key, Entry>, targets: map<Key, int>, done: set<Key>, k: Key)
    requires Assigning(ar, s0, s, xs, v, targets, done) && k in IdleKeys(v) && k !in done && k in targets
    ensures Wf(s.tracker) && k in s.tracker.byKey
    ensures Assigning(ar, s0, DoAssign(s, k, targets[k]), xs + [Assign(k, targets[k])], v, targets, done + {k})
  {
    HeldNext(v, targets, done, k);
    AssignNext(v, targets, done, k);
    DuringAssign(ar, s0, s, xs, AssigningView(v, targets, done), StillHeld(v, targets, done), k, targets[k]);
  }

  lemma {:induction false} PassReleases<T(!new)>(ar: Arith<T>, s0: Server<T>, s: Server<T>, xs: seq<Action<T>>,
                              v: map<Key, Entry>, targets: map<Key, int>, done: set<Key>, k: Key)
    requires Assigning(ar, s0, s, xs, v, targets, done) && k in IdleKeys(v) && k !in done && k !in targets
    ensures Wf(s.tracker)
    ensures Assigning(ar, s0, DoRelease(s, k), xs + [Release(k)], v, targets, done + {k})
  {
    HeldNext(v, targets, done, k);
    AssignNext(v, targets, done, k);
    DuringRelease(ar, s0, s, xs, AssigningView(v, targets, done), StillHeld(v, targets, done), k);
  }

  lemma {:induction false} PassTurns<T(!new)>(ar: Arith<T>, s0: Server<T>, s: Server<T>, xs: seq<Action<T>>,
                                              v: map<Key, Entry>, targets: map<Key, int>)
    requires Assigning(ar, s0, s, xs, v, targets, IdleKeys(v))
    ensures Sending(ar, s0, s, xs, v, targets, {})
  {
    AssignEnds(v, targets, s0.links.Keys);
    HeldEnds(v, targets);
  }

  /** An assigned tile: homed at its target, its record naming its operation. */
  lemma {:induction false} AssignedTile<T(!new)>(ar: Arith<T>, s0: Server<T>, s: Server<T>, xs: seq<Action<T>>,
                              v: map<Key, Entry>, targets: map<Key, int>, done: set<Key>, k: Key)
    requires Sending(ar, s0, s, xs, v, targets, done) && k in ReadyKeys(v, targets) && k !in done
    ensures Wf(s.tracker) && k in s.tracker.byKey && k in View(s.tracker)
    ensures View(s.tracker)[k].home == targets[k] && InfoOf(s.tracker, k).oid == View(s.tracker)[k].oid
    ensures Belongs(s, View(s.tracker)[k].oid, k) && s.ops[View(s.tracker)[k].oid].Ok()
  {
    AgreeIsWf(s.tracker);
    SendNext(v, targets, s0.links.Keys, done, k);
    Sendable(ar, s, k);
    assert KeyAgrees(s.tracker, k);
  }

  lemma {:induction false} PassSends<T(!new)>(ar: Arith<T>, s0: Server<T>, s: Server<T>, xs: seq<Action<T>>,
                           v: map<Key, Entry>, targets: map<Key, int>, done: set<Key>, k: Key)
    requires Sending(ar, s0, s, xs, v, targets, done) && k in ReadyKeys(v, targets) && k !in done
             && targets[k] in s.links
    ensures Sending(ar, s0, DoSend(s, k), xs + [Send(k)], v, targets, done + {k})
  {
    ReadyNext(v, targets, done, k);
    SendNext(v, targets, s0.links.Keys, done, k);
    DuringSend(ar, s0, s, xs, SendingView(v, targets, s0.links.Keys, done), ReadyKeys(v, targets) - done, k);
  }

  lemma {:induction false} PassGivesBack<T(!new)>(ar: Arith<T>, s0: Server<T>, s: Server<T>, xs: seq<Action<T>>,
                               v: map<Key, Entry>, targets: map<Key, int>, done: set<Key>, k: Key)
    requires Sending(ar, s0, s, xs, v, targets, done) && k in ReadyKeys(v, targets) && k !in done
             && targets[k] !in s.links
    ensures Wf(s.tracker)
    ensures Sending(ar, s0, DoRelease(s, k), xs + [Release(k)], v, targets, done + {k})
  {
    ReadyNext(v, targets, done, k);
    SendNext(v, targets, s0.links.Keys, done, k);
    DuringRelease(ar, s0, s, xs, SendingView(v, targets, s0.links.Keys, done), ReadyKeys(v, targets) - done, k);
  }

  lemma {:induction false} PassEnds<T(!new)>(ar: Arith<T>, s0: Server<T>, s: Server<T>, xs: seq<Action<T>>,
                                             v: map<Key, Entry>, targets: map<Key, int>)
    requires Sending(ar, s0, s, xs, v, targets, ReadyKeys(v, targets))
    ensures During(ar, s0, s, xs, SweptView(v, targets, s0.links.Keys), {})
  {
    SendEnds(v, targets, s0.links.Keys, ReadyKeys(v, targets));
    HeldEnds(v, targets);
  }
}
