/** The remaining steps: devices answer, answers are written, retired and counted, operations begin. */
module ProtocolSteps {
  import opened Tiling
  import opened Keys
  import opened Tracker
  import opened TrackerView
  import opened Protocol
  import opened ProtocolInvariant

  // --------------------------------------------------------------------------
  // A device answers
  // --------------------------------------------------------------------------

  lemma {:induction false} ReplyRight<T(!new)>(ar: Arith<T>, op: Operation<T>, m: Msg<T>, scratch: seq<T>,
                                               block: seq<T>)
    requires Lawful(ar) && m.Request? && Right(ar, op, m) && Answers(ar, m.part, scratch, block)
    ensures Right(ar, op, Reply(m.key, m.oid, block))
  {
    PartitionSizes(op.g, op.a, op.b, TileOf(m.key));
    TileAnswerIsResult(op.g, ar, op.a, op.b, TileOf(m.key), scratch, block);
  }

  ghost predicate Answered<T(!new)>(w: Meaning<T>, s: Server<T>, s': Server<T>, d: int, m: Msg<T>, r: Msg<T>) {
    && d in s.links && m in s.links[d] && m.Request? && r.Reply?
    && r.key == m.key && r.oid == m.oid
    && (m.oid in s.ops ==> w.right(s.ops[m.oid], r))
    && s' == s.(links := s.links[d := s.links[d] - multiset{m} + multiset{r}])
  }

  lemma {:induction false} ComputeLink<T(!new)>(w: Meaning<T>, s: Server<T>, v: map<Key, Entry>, s': Server<T>,
                                                d: int, m: Msg<T>, r: Msg<T>, d': int, m': Msg<T>)
    requires LinksOk(w, s, v) && Answered(w, s, s', d, m, r)
    requires d' in s'.links && m' in s'.links[d']
    ensures MsgOk(w, s', v, d', m')
    ensures d' == d && m' != r ==> m'.key != r.key && m' in s.links[d]
    ensures d' != d ==> m' in s.links[d']
  {
    assert MsgOk(w, s, v, d, m);
    assert m' in s.links[d'] ==> MsgOk(w, s, v, d', m');
  }

  lemma {:induction false} ComputeLinks<T(!new)>(w: Meaning<T>, s: Server<T>, v: map<Key, Entry>, s': Server<T>,
                                                 d: int, m: Msg<T>, r: Msg<T>)
    requires LinksOk(w, s, v) && Answered(w, s, s', d, m, r)
    ensures LinksOk(w, s', v)
  {
    forall d', m' | d' in s'.links && m' in s'.links[d']
      ensures MsgOk(w, s', v, d', m')
      ensures d' == d && m' != r ==> m'.key != r.key && m' in s.links[d]
      ensures d' != d ==> m' in s.links[d']
    {
      ComputeLink(w, s, v, s', d, m, r, d', m');
    }
  }

  lemma {:induction false} ComputeEntries<T(!new)>(w: Meaning<T>, s: Server<T>, v: map<Key, Entry>, s': Server<T>,
                                                   d: int, m: Msg<T>, r: Msg<T>)
    requires (forall k | k in v :: EntryOk(s, v, k)) && Answered(w, s, s', d, m, r)
    ensures forall k | k in v :: EntryOk(s', v, k)
  {
    forall k | k in v
      ensures EntryOk(s', v, k)
    {
      assert EntryOk(s, v, k);
      if Heard(s, v[k].home, k) {
        HeardAnswer(w, s, s', d, m, r, v[k].home, k);
      }
    }
  }

  lemma {:induction false} HeardAnswer<T(!new)>(w: Meaning<T>, s: Server<T>, s': Server<T>, d: int, m: Msg<T>,
                                                r: Msg<T>, h: int, k: Key)
    requires Answered(w, s, s', d, m, r) && Heard(s, h, k)
    ensures Heard(s', h, k)
  {
    var m' :| h in s.links && m' in s.links[h] && m'.key == k;
    if m' == m && h == d {
      assert r in s'.links[h];
    } else {
      assert m' in s'.links[h];
    }
  }

  lemma {:induction false} ComputeCore<T(!new)>(w: Meaning<T>, s: Server<T>, v: map<Key, Entry>, s': Server<T>,
                                                d: int, m: Msg<T>, r: Msg<T>)
    requires Core(w, s, v) && Answered(w, s, s', d, m, r)
    ensures Core(w, s', v)
  {
    ComputeKeepsLinks(w, s, v, s', d, m, r);
    ComputeKeepsEntries(w, s, v, s', d, m, r);
    ComputeQuiet(w, s, v, s', d, m, r);
    QuietCore(w, s, v, s', v);
  }

  lemma {:induction false} ComputeKeepsLinks<T(!new)>(w: Meaning<T>, s: Server<T>, v: map<Key, Entry>, s': Server<T>,
                                                      d: int, m: Msg<T>, r: Msg<T>)
    requires Core(w, s, v) && Answered(w, s, s', d, m, r)
    ensures LinksOk(w, s', v)
  {
    ComputeLinks(w, s, v, s', d, m, r);
  }

  lemma {:induction false} ComputeKeepsEntries<T(!new)>(w: Meaning<T>, s: Server<T>, v: map<Key, Entry>,
                                                        s': Server<T>, d: int, m: Msg<T>, r: Msg<T>)
    requires Core(w, s, v) && Answered(w, s, s', d, m, r)
    ensures forall k | k in v :: EntryOk(s', v, k)
  {
    ComputeEntries(w, s, v, s', d, m, r);
  }

  lemma {:induction false} ComputeQuiet<T(!new)>(w: Meaning<T>, s: Server<T>, v: map<Key, Entry>, s': Server<T>,
                                                 d: int, m: Msg<T>, r: Msg<T>)
    requires Answered(w, s, s', d, m, r)
    ensures Quiet(s, v, s', v) && s'.links.Keys == s.links.Keys
  {
  }

  lemma {:induction false} ComputeInv<T(!new)>(ar: Arith<T>, s: Server<T>, d: int, m: Msg<T>, scratch: seq<T>,
                                               block: seq<T>)
    requires Lawful(ar) && Inv(ar, s)
    requires d in s.links && m in s.links[d] && m.Request? && Answers(ar, m.part, scratch, block)
    ensures Inv(ar, DoCompute(s, d, m, block))
  {
    assert MsgOk(MeaningOf(ar), s, View(s.tracker), d, m);
    ReplyRight(ar, s.ops[m.oid], m, scratch, block);
    ComputeCore(MeaningOf(ar), s, View(s.tracker), DoCompute(s, d, m, block), d, m, Reply(m.key, m.oid, block));
  }

  // --------------------------------------------------------------------------
  // An answer is written
  // --------------------------------------------------------------------------

  ghost predicate Delivered<T(!new)>(w: Meaning<T>, s: Server<T>, s': Server<T>, d: int, m: Msg<T>) {
    && d in s.links && m in s.links[d] && m.oid in s.outputs && m.oid in s.ops && m.oid in s'.outputs
    && s'.outputs == s.outputs[m.oid := s'.outputs[m.oid]]
    && |s'.outputs[m.oid]| == |s.outputs[m.oid]|
    && w.done(s.ops[m.oid], s'.outputs[m.oid], m.key)
    && (forall k | TileOf(k) != TileOf(m.key) && w.done(s.ops[m.oid], s.outputs[m.oid], k) ::
          w.done(s.ops[m.oid], s'.outputs[m.oid], k))
    && s' == s.(links := s.links[d := s.links[d] - multiset{m}],
                handling := s.handling[m.key := Written(d, m.oid)],
                outputs := s'.outputs)
  }

  lemma {:induction false} DeliverLinks<T(!new)>(w: Meaning<T>, s: Server<T>, v: map<Key, Entry>, s': Server<T>,
                                                 d: int, m: Msg<T>)
    requires LinksOk(w, s, v) && Delivered(w, s, s', d, m)
    ensures LinksOk(w, s', v)
  {
    assert MsgOk(w, s, v, d, m);
    forall d', m' | d' in s'.links && m' in s'.links[d']
      ensures MsgOk(w, s', v, d', m')
    {
      assert m' in s.links[d'];
      assert MsgOk(w, s, v, d', m');
    }
  }

  lemma {:induction false} DeliverEntries<T(!new)>(w: Meaning<T>, s: Server<T>, v: map<Key, Entry>, s': Server<T>,
                                                   d: int, m: Msg<T>)
    requires (forall k | k in v :: EntryOk(s, v, k)) && Delivered(w, s, s', d, m) && MsgOk(w, s, v, d, m)
    ensures forall k | k in v :: EntryOk(s', v, k)
  {
    forall k | k in v
      ensures EntryOk(s', v, k)
    {
      assert EntryOk(s, v, k);
      if k != m.key && Heard(s, v[k].home, k) {
        var m' :| v[k].home in s.links && m' in s.links[v[k].home] && m'.key == k;
        assert m' in s'.links[v[k].home];
        assert Heard(s', v[k].home, k);
      }
    }
  }

  lemma {:induction false} DeliverHandling<T(!new)>(w: Meaning<T>, s: Server<T>, v: map<Key, Entry>, s': Server<T>,
                                                    d: int, m: Msg<T>)
    requires (forall k | k in s.handling :: HandlingOk(s, v, k)) && Delivered(w, s, s', d, m) && MsgOk(w, s, v, d, m)
    requires LimboOk(s, v)
    ensures forall k | k in s'.handling :: HandlingOk(s', v, k)
    ensures LimboOk(s', v)
  {
    forall k | k in s'.handling
      ensures HandlingOk(s', v, k)
    {
      assert k != m.key ==> HandlingOk(s, v, k);
    }
  }

  /** The handled set after one more reply. */
  lemma {:induction false} HandledGrows(h: map<Key, Handling>, k: Key, x: Handling, oid: nat, h': map<Key, Handling>)
    requires h' == h[k := x]
    ensures (set k' | k' in h' && h'[k'].oid == oid)
            == (set k' | k' in h && k' != k && h[k'].oid == oid) + (if x.oid == oid then {k} else {})
  {
  }

  lemma {:induction false} DeliverPending<T(!new)>(w: Meaning<T>, s: Server<T>, v: map<Key, Entry>, s': Server<T>,
                                                   d: int, m: Msg<T>, oid: nat)
    requires oid in s.ops && Delivered(w, s, s', d, m) && MsgOk(w, s, v, d, m)
    ensures Pending(s', v, oid) == Pending(s, v, oid)
  {
    HandledGrows(s.handling, m.key, Written(d, m.oid), oid, s'.handling);
    assert Handled(s', oid) == Handled(s, oid) + (if oid == m.oid then {m.key} else {});
    assert oid == m.oid ==> m.key in Owned(v, oid);
    assert AddingKeys(s', oid) == AddingKeys(s, oid);
  }

  lemma {:induction false} DeliverCounts<T(!new)>(w: Meaning<T>, s: Server<T>, v: map<Key, Entry>, s': Server<T>,
                                                  d: int, m: Msg<T>)
    requires CountsOk(s, v) && Delivered(w, s, s', d, m) && MsgOk(w, s, v, d, m)
    ensures CountsOk(s', v)
  {
    forall oid | oid in s'.ops
      ensures CountOf(s', oid) == |Pending(s', v, oid)|
    {
      DeliverPending(w, s, v, s', d, m, oid);
    }
  }

  lemma {:induction false} DeliverOutputs<T(!new)>(w: Meaning<T>, s: Server<T>, v: map<Key, Entry>, s': Server<T>,
                                                   d: int, m: Msg<T>)
    requires OpsOk(s) && OutputsOk(w, s, v) && Delivered(w, s, s', d, m) && MsgOk(w, s, v, d, m)
    ensures OutputsOk(w, s', v)
  {
    forall oid: nat, k | Belongs(s', oid, k) && oid in s'.outputs && k !in AddingKeys(s', oid)
        && (k !in v || k in s'.handling)
      ensures w.done(s'.ops[oid], s'.outputs[oid], k)
    {
      if k != m.key {
        assert Belongs(s, oid, k);
        assert w.done(s.ops[oid], s.outputs[oid], k);
        assert oid == m.oid ==> TileOf(k) != TileOf(m.key);
      } else {
        assert oid == m.oid;
      }
    }
  }

  lemma {:induction false} DeliverAdding<T(!new)>(w: Meaning<T>, s: Server<T>, v: map<Key, Entry>, s': Server<T>,
                                                  d: int, m: Msg<T>)
    requires OpsOk(s) && (forall oid | oid in s.adding :: AddingOk(s, v, oid))
    requires Delivered(w, s, s', d, m) && MsgOk(w, s, v, d, m)
    ensures OpsOk(s') && forall oid | oid in s'.adding :: AddingOk(s', v, oid)
  {
    forall oid | oid in s'.ops
      ensures OpOk(s', oid)
    {
      assert OpOk(s, oid);
    }
    forall oid | oid in s'.adding
      ensures AddingOk(s', v, oid)
    {
      assert AddingOk(s, v, oid);
    }
  }

  lemma {:induction false} DeliverCore<T(!new)>(w: Meaning<T>, s: Server<T>, v: map<Key, Entry>, s': Server<T>,
                                                d: int, m: Msg<T>)
    requires Core(w, s, v) && Delivered(w, s, s', d, m)
    ensures Core(w, s', v)
  {
    assert MsgOk(w, s, v, d, m);
    DeliverLinks(w, s, v, s', d, m);
    DeliverEntries(w, s, v, s', d, m);
    DeliverHandling(w, s, v, s', d, m);
    DeliverCounts(w, s, v, s', d, m);
    DeliverOutputs(w, s, v, s', d, m);
    DeliverAdding(w, s, v, s', d, m);
  }

  /** Writing a right block completes its tile and disturbs no other. */
  lemma {:induction false} PutDone<T>(ar: Arith<T>, op: Operation<T>, out: seq<T>, m: Msg<T>)
    requires m.Reply? && Right(ar, op, m) && |out| == op.g.CSize()
    ensures Done(ar, op, PutTile(op.g, out, TileOf(m.key), m.block), m.key)
    ensures forall k | TileOf(k) != TileOf(m.key) && Done(ar, op, out, k) ::
              Done(ar, op, PutTile(op.g, out, TileOf(m.key), m.block), k)
  {
    PutTileDone(op.g, ar, op.a, op.b, out, TileOf(m.key), m.block);
  }

  lemma {:induction false} DeliverIsDelivered<T(!new)>(ar: Arith<T>, s: Server<T>, d: int, m: Msg<T>)
    requires d in s.links && m in s.links[d] && m.Reply? && OpOk(s, m.oid)
    requires Belongs(s, m.oid, m.key) && MeaningOf(ar).right(s.ops[m.oid], m)
    ensures Delivered(MeaningOf(ar), s, DoDeliver(s, d, m), d, m)
  {
    PutDone(ar, s.ops[m.oid], s.outputs[m.oid], m);
    var s' := DoDeliver(s, d, m);
    assert s'.outputs[m.oid] == PutTile(s.ops[m.oid].g, s.outputs[m.oid], TileOf(m.key), m.block);
  }

  lemma {:induction false} DeliverInv<T(!new)>(ar: Arith<T>, s: Server<T>, d: int, m: Msg<T>)
    requires Inv(ar, s) && d in s.links && m in s.links[d] && m.Reply?
    ensures Inv(ar, DoDeliver(s, d, m))
  {
    assert MsgOk(MeaningOf(ar), s, View(s.tracker), d, m);
    assert OpOk(s, m.oid);
    DeliverIsDelivered(ar, s, d, m);
    DeliverCore(MeaningOf(ar), s, View(s.tracker), DoDeliver(s, d, m), d, m);
  }

  // --------------------------------------------------------------------------
  // An answer is retired and counted
  // --------------------------------------------------------------------------

  ghost predicate RetiredStep<T>(s: Server<T>, v: map<Key, Entry>, s': Server<T>, v': map<Key, Entry>, k: Key) {
    && k in s.handling && s.handling[k].Written?
    && v' == v - {k}
    && s' == s.(tracker := s'.tracker, handling := s.handling[k := Retired(s.handling[k].dev, s.handling[k].oid)])
  }

  lemma {:induction false} RetireEntries<T>(s: Server<T>, v: map<Key, Entry>, s': Server<T>, v': map<Key, Entry>,
                                            k: Key)
    requires (forall k' | k' in v :: EntryOk(s, v, k')) && LimboOk(s, v) && RetiredStep(s, v, s', v', k)
    requires forall k' | k' in s.handling :: HandlingOk(s, v, k')
    ensures forall k' | k' in v' :: EntryOk(s', v', k')
    ensures LimboOk(s', v')
    ensures forall k' | k' in s'.handling :: HandlingOk(s', v', k')
  {
    forall k' | k' in v'
      ensures EntryOk(s', v', k')
    {
      assert EntryOk(s, v, k');
      assert Heard(s, v[k'].home, k') ==> Heard(s', v[k'].home, k');
    }
    forall k' | k' in s'.handling
      ensures HandlingOk(s', v', k')
    {
      assert HandlingOk(s, v, k');
    }
  }

  lemma {:induction false} RetireLinks<T(!new)>(w: Meaning<T>, s: Server<T>, v: map<Key, Entry>, s': Server<T>,
                                                v': map<Key, Entry>, k: Key)
    requires LinksOk(w, s, v) && RetiredStep(s, v, s', v', k)
    ensures LinksOk(w, s', v')
  {
    forall d, m | d in s'.links && m in s'.links[d]
      ensures MsgOk(w, s', v', d, m)
    {
      assert MsgOk(w, s, v, d, m);
    }
  }

  lemma {:induction false} RetirePending<T>(s: Server<T>, v: map<Key, Entry>, s': Server<T>, v': map<Key, Entry>,
                                            k: Key, oid: nat)
    requires RetiredStep(s, v, s', v', k) && HandlingOk(s, v, k) && oid in s.ops
    ensures Pending(s', v', oid) == Pending(s, v, oid)
  {
    HandledGrows(s.handling, k, s'.handling[k], oid, s'.handling);
    assert Handled(s', oid) == Handled(s, oid);
    assert Owned(v', oid) == Owned(v, oid) - {k};
    assert k in Owned(v, oid) ==> k in Handled(s, oid);
    assert AddingKeys(s', oid) == AddingKeys(s, oid);
  }

  lemma {:induction false} RetireCounts<T>(s: Server<T>, v: map<Key, Entry>, s': Server<T>, v': map<Key, Entry>, k: Key)
    requires RetiredStep(s, v, s', v', k) && HandlingOk(s, v, k) && CountsOk(s, v)
    ensures CountsOk(s', v')
  {
    forall oid | oid in s'.ops
      ensures CountOf(s', oid) == |Pending(s', v', oid)|
    {
      RetirePending(s, v, s', v', k, oid);
    }
  }

  lemma {:induction false} RetireAdding<T>(s: Server<T>, v: map<Key, Entry>, s': Server<T>, v': map<Key, Entry>, k: Key)
    requires OpsOk(s) && (forall oid | oid in s.adding :: AddingOk(s, v, oid)) && RetiredStep(s, v, s', v', k)
    ensures OpsOk(s') && forall oid | oid in s'.adding :: AddingOk(s', v', oid)
  {
    forall oid | oid in s'.ops
      ensures OpOk(s', oid)
    {
      assert OpOk(s, oid);
    }
    forall oid | oid in s'.adding
      ensures AddingOk(s', v', oid)
    {
      assert AddingOk(s, v, oid);
    }
  }

  lemma {:induction false} RetireCore<T(!new)>(w: Meaning<T>, s: Server<T>, v: map<Key, Entry>, s': Server<T>,
                                               v': map<Key, Entry>, k: Key)
    requires Core(w, s, v) && RetiredStep(s, v, s', v', k)
    ensures Core(w, s', v')
  {
    assert HandlingOk(s, v, k);
    RetireEntries(s, v, s', v', k);
    RetireLinks(w, s, v, s', v', k);
    RetireCounts(s, v, s', v', k);
    RetireAdding(s, v, s', v', k);
    RetireOutputs(w, s, v, s', v', k);
  }

  lemma {:induction false} RetireOutputs<T(!new)>(w: Meaning<T>, s: Server<T>, v: map<Key, Entry>, s': Server<T>,
                                                  v': map<Key, Entry>, k: Key)
    requires OutputsOk(w, s, v) && RetiredStep(s, v, s', v', k)
    ensures OutputsOk(w, s', v')
  {
    forall k' | k' !in v' || k' in s'.handling
      ensures k' !in v || k' in s.handling
    {
    }
    SameOutputs(w, s, v, s', v');
  }

  lemma {:induction false} RetireView<T>(s: Server<T>, k: Key)
    requires Agree(s.tracker) && k in s.tracker.byKey && k in s.handling
    ensures Wf(s.tracker) && Agree(DoRetire(s, k).tracker)
    ensures View(DoRetire(s, k).tracker) == View(s.tracker) - {k}
  {
    MarkView(s.tracker, k, Finished);
    RemoveByKeyView(Mark(s.tracker, k, Finished), k);
  }

  lemma {:induction false} RetireInv<T(!new)>(ar: Arith<T>, s: Server<T>, k: Key)
    requires Inv(ar, s) && k in s.handling && s.handling[k].Written?
    ensures Wf(s.tracker) && Inv(ar, DoRetire(s, k))
  {
    var v := View(s.tracker);
    assert HandlingOk(s, v, k);
    RetireView(s, k);
    RetireCore(MeaningOf(ar), s, v, DoRetire(s, k), v - {k}, k);
  }

  ghost predicate CountedStep<T>(s: Server<T>, s': Server<T>, k: Key) {
    && k in s.handling && s.handling[k].Retired?
    && var oid := s.handling[k].oid;
       && (CountOf(s, oid) > 0 ==> CountOf(s', oid) == CountOf(s, oid) - 1)
       && (forall o: nat | o != oid :: CountOf(s', o) == CountOf(s, o))
       && s' == s.(handling := s.handling - {k}, counts := s'.counts, log := s'.log)
  }

  lemma {:induction false} CountPending<T>(s: Server<T>, v: map<Key, Entry>, s': Server<T>, k: Key, oid: nat)
    requires CountedStep(s, s', k) && HandlingOk(s, v, k) && oid in s.ops && OpsOk(s)
    requires oid in s.adding ==> AddingOk(s, v, oid)
    ensures Pending(s', v, oid) == Pending(s, v, oid) - (if oid == s.handling[k].oid then {k} else {})
    ensures oid == s.handling[k].oid ==> k in Pending(s, v, oid)
  {
    assert Handled(s', oid) == Handled(s, oid) - {k};
    assert AddingKeys(s', oid) == AddingKeys(s, oid);
    assert k !in Owned(v, oid);
    assert k !in AddingKeys(s, oid);
    assert k in Handled(s, oid) <==> oid == s.handling[k].oid;
  }

  /** The counter was positive: the clamp does not fire. */
  lemma {:induction false} CountCounts<T>(s: Server<T>, v: map<Key, Entry>, s': Server<T>, k: Key)
    requires CountedStep(s, s', k) && HandlingOk(s, v, k) && OpsOk(s)
    requires (forall oid | oid in s.adding :: AddingOk(s, v, oid)) && CountsOk(s, v)
    ensures CountOf(s, s.handling[k].oid) > 0
    ensures CountsOk(s', v)
  {
    CountPending(s, v, s', k, s.handling[k].oid);
    forall oid | oid in s'.ops
      ensures CountOf(s', oid) == |Pending(s', v, oid)|
    {
      CountPending(s, v, s', k, oid);
    }
  }

  lemma {:induction false} CountEntries<T>(s: Server<T>, v: map<Key, Entry>, s': Server<T>, k: Key)
    requires (forall k' | k' in v :: EntryOk(s, v, k')) && LimboOk(s, v) && CountedStep(s, s', k)
    requires forall k' | k' in s.handling :: HandlingOk(s, v, k')
    ensures forall k' | k' in v :: EntryOk(s', v, k')
    ensures LimboOk(s', v)
    ensures forall k' | k' in s'.handling :: HandlingOk(s', v, k')
  {
    assert HandlingOk(s, v, k);
    forall k' | k' in v
      ensures EntryOk(s', v, k')
    {
      assert EntryOk(s, v, k');
      assert Heard(s, v[k'].home, k') ==> Heard(s', v[k'].home, k');
    }
    forall k' | k' in s'.handling
      ensures HandlingOk(s', v, k')
    {
      assert HandlingOk(s, v, k');
    }
  }

  lemma {:induction false} CountLinks<T(!new)>(w: Meaning<T>, s: Server<T>, v: map<Key, Entry>, s': Server<T>, k: Key)
    requires LinksOk(w, s, v) && CountedStep(s, s', k)
    ensures LinksOk(w, s', v)
  {
    forall d, m | d in s'.links && m in s'.links[d]
      ensures MsgOk(w, s', v, d, m)
    {
      assert MsgOk(w, s, v, d, m);
    }
  }

  lemma {:induction false} CountAdding<T>(s: Server<T>, v: map<Key, Entry>, s': Server<T>, k: Key)
    requires OpsOk(s) && (forall oid | oid in s.adding :: AddingOk(s, v, oid)) && CountedStep(s, s', k)
    ensures OpsOk(s') && forall oid | oid in s'.adding :: AddingOk(s', v, oid)
  {
    forall oid | oid in s'.ops
      ensures OpOk(s', oid)
    {
      assert OpOk(s, oid);
    }
    forall oid | oid in s'.adding
      ensures AddingOk(s', v, oid)
    {
      assert AddingOk(s, v, oid);
    }
  }

  lemma {:induction false} CountCore<T(!new)>(w: Meaning<T>, s: Server<T>, v: map<Key, Entry>, s': Server<T>, k: Key)
    requires Core(w, s, v) && CountedStep(s, s', k)
    ensures CountOf(s, s.handling[k].oid) > 0
    ensures Core(w, s', v)
  {
    assert HandlingOk(s, v, k);
    CountCounts(s, v, s', k);
    CountEntries(s, v, s', k);
    CountLinks(w, s, v, s', k);
    CountAdding(s, v, s', k);
    assert k !in v;
    SameOutputs(w, s, v, s', v);
  }

  lemma {:induction false} CountInv<T(!new)>(ar: Arith<T>, s: Server<T>, k: Key)
    requires Inv(ar, s) && k in s.handling && s.handling[k].Retired?
    ensures Inv(ar, DoCount(s, k))
    ensures CountOf(s, s.handling[k].oid) > 0
  {
    CountIsCounted(s, k);
    CountCore(MeaningOf(ar), s, View(s.tracker), DoCount(s, k), k);
  }

  lemma {:induction false} CountIsCounted<T>(s: Server<T>, k: Key)
    requires k in s.handling && s.handling[k].Retired?
    ensures CountedStep(s, DoCount(s, k), k)
  {
  }
}
