/** Dispatching an operation: its id, its counter, and its tiles handed to the tracker one by one. */
module ProtocolDispatch {
  import opened Sequences
  import opened Tiling
  import opened Keys
  import opened Tracker
  import opened TrackerView
  import opened Protocol
  import opened ProtocolInvariant

  ghost predicate Begun<T>(s: Server<T>, s': Server<T>, op: Operation<T>, order: seq<Tile>) {
    var oid := s.nextOid;
    && op.Ok() && op.version !in s.versions && Shuffled(op.tiles, order)
    && oid in s'.outputs && |s'.outputs[oid]| == op.g.CSize()
    && s'.outputs == s.outputs[oid := s'.outputs[oid]]
    && s'.ops == s.ops[oid := op]
    && s'.adding == s.adding[oid := order]
    && s'.counts == s.counts[oid := CountOf(s, oid) + |order|]
    && s' == s.(nextOid := oid + 1, versions := s.versions + {op.version},
                ops := s'.ops, outputs := s'.outputs, adding := s'.adding, counts := s'.counts)
  }

  /** Keys of the new operation are unheard of. */
  lemma {:induction false} FreshKey<T>(s: Server<T>, v: map<Key, Entry>, k: Key)
    requires OpsOk(s) && (forall k' | k' in v :: EntryOk(s, v, k'))
    requires forall k' | k' in s.handling :: HandlingOk(s, v, k')
    requires k.version !in s.versions
    ensures k !in v && k !in s.handling
  {
    forall k' | k' in v
      ensures k'.version in s.versions
    {
      assert EntryOk(s, v, k') && OpOk(s, v[k'].oid);
    }
    forall k' | k' in s.handling
      ensures k'.version in s.versions
    {
      assert HandlingOk(s, v, k') && OpOk(s, s.handling[k'].oid);
    }
  }

  lemma {:induction false} FreshOid<T>(s: Server<T>, v: map<Key, Entry>)
    requires OpsOk(s) && (forall k | k in v :: EntryOk(s, v, k))
    requires forall k | k in s.handling :: HandlingOk(s, v, k)
    ensures s.nextOid !in s.ops && s.nextOid !in s.adding && s.nextOid !in s.returned
    ensures Owned(v, s.nextOid) == {} && Handled(s, s.nextOid) == {}
  {
    assert s.nextOid in s.ops ==> OpOk(s, s.nextOid);
    forall k | k in v
      ensures v[k].oid != s.nextOid
    {
      assert EntryOk(s, v, k);
    }
    forall k | k in s.handling
      ensures s.handling[k].oid != s.nextOid
    {
      assert HandlingOk(s, v, k);
    }
  }

  lemma {:induction false} KeysOfOrder(version: nat, order: seq<Tile>)
    requires NoRepeat(order)
    ensures |set t | t in order :: KeyOf(version, t)| == |order|
  {
    if order != [] {
      var n := |order| - 1;
      KeysOfOrder(version, order[..n]);
      var rest := set t | t in order[..n] :: KeyOf(version, t);
      assert order == order[..n] + [order[n]];
      assert (set t | t in order :: KeyOf(version, t)) == rest + {KeyOf(version, order[n])};
      assert KeyOf(version, order[n]) !in rest;
    }
  }

  lemma {:induction false} BeginOps<T>(s: Server<T>, s': Server<T>, op: Operation<T>, order: seq<Tile>)
    requires OpsOk(s) && Begun(s, s', op, order)
    requires s.nextOid !in s.ops && s.nextOid !in s.adding && s.nextOid !in s.returned
    ensures OpsOk(s')
  {
    forall oid | oid in s'.ops
      ensures OpOk(s', oid)
    {
      assert oid != s.nextOid ==> OpOk(s, oid);
    }
    forall o1, o2 | o1 in s'.ops && o2 in s'.ops && s'.ops[o1].version == s'.ops[o2].version
      ensures o1 == o2
    {
      assert o1 != s.nextOid ==> OpOk(s, o1);
      assert o2 != s.nextOid ==> OpOk(s, o2);
    }
  }

  lemma {:induction false} BeginAdding<T>(s: Server<T>, v: map<Key, Entry>, s': Server<T>, op: Operation<T>,
                                          order: seq<Tile>)
    requires OpsOk(s) && (forall k | k in v :: EntryOk(s, v, k)) && (forall k | k in s.handling :: HandlingOk(s, v, k))
    requires (forall oid | oid in s.adding :: AddingOk(s, v, oid)) && Begun(s, s', op, order)
    requires s.nextOid !in s.ops
    ensures forall oid | oid in s'.adding :: oid in s'.ops && AddingOk(s', v, oid)
  {
    forall oid | oid in s'.adding
      ensures oid in s'.ops && AddingOk(s', v, oid)
    {
      if oid != s.nextOid {
        assert AddingOk(s, v, oid);
      } else {
        forall t | t in order
          ensures KeyOf(op.version, t) !in v && KeyOf(op.version, t) !in s'.handling
        {
          FreshKey(s, v, KeyOf(op.version, t));
        }
      }
    }
  }

  lemma {:induction false} BeginEntries<T>(s: Server<T>, v: map<Key, Entry>, s': Server<T>, op: Operation<T>,
                                           order: seq<Tile>)
    requires (forall k | k in v :: EntryOk(s, v, k)) && (forall k | k in s.handling :: HandlingOk(s, v, k))
    requires Begun(s, s', op, order) && s.nextOid !in s.ops
    ensures (forall k | k in v :: EntryOk(s', v, k)) && (forall k | k in s'.handling :: HandlingOk(s', v, k))
  {
    forall k | k in v
      ensures EntryOk(s', v, k)
    {
      assert EntryOk(s, v, k);
      assert Heard(s, v[k].home, k) ==> Heard(s', v[k].home, k);
    }
    forall k | k in s'.handling
      ensures HandlingOk(s', v, k)
    {
      assert HandlingOk(s, v, k);
    }
  }

  lemma {:induction false} BeginLinks<T(!new)>(w: Meaning<T>, s: Server<T>, v: map<Key, Entry>, s': Server<T>,
                                               op: Operation<T>, order: seq<Tile>)
    requires LinksOk(w, s, v) && Begun(s, s', op, order) && s.nextOid !in s.ops
    ensures LinksOk(w, s', v)
  {
    forall d, m | d in s'.links && m in s'.links[d]
      ensures MsgOk(w, s', v, d, m)
    {
      assert MsgOk(w, s, v, d, m);
    }
  }

  lemma {:induction false} BeginPending<T>(s: Server<T>, v: map<Key, Entry>, s': Server<T>, op: Operation<T>,
                                           order: seq<Tile>, oid: nat)
    requires Begun(s, s', op, order) && s.nextOid !in s.ops && oid in s'.ops
    requires Owned(v, s.nextOid) == {} && Handled(s, s.nextOid) == {}
    ensures oid == s.nextOid ==> |Pending(s', v, oid)| == |order|
    ensures oid != s.nextOid ==> Pending(s', v, oid) == Pending(s, v, oid)
  {
    assert Handled(s', oid) == Handled(s, oid);
    if oid == s.nextOid {
      KeysOfOrder(op.version, order);
      assert AddingKeys(s', oid) == (set t | t in order :: KeyOf(op.version, t));
      assert Pending(s', v, oid) == AddingKeys(s', oid);
    } else {
      assert AddingKeys(s', oid) == AddingKeys(s, oid);
    }
  }

  lemma {:induction false} BeginCounts<T>(s: Server<T>, v: map<Key, Entry>, s': Server<T>, op: Operation<T>,
                                          order: seq<Tile>)
    requires CountsOk(s, v) && Begun(s, s', op, order) && s.nextOid !in s.ops
    requires Owned(v, s.nextOid) == {} && Handled(s, s.nextOid) == {}
    ensures CountsOk(s', v)
  {
    forall oid | oid in s'.ops
      ensures CountOf(s', oid) == |Pending(s', v, oid)|
    {
      BeginPending(s, v, s', op, order, oid);
    }
  }

  lemma {:induction false} BeginOutputs<T(!new)>(w: Meaning<T>, s: Server<T>, v: map<Key, Entry>, s': Server<T>,
                                                 op: Operation<T>, order: seq<Tile>)
    requires OutputsOk(w, s, v) && Begun(s, s', op, order) && s.nextOid !in s.ops
    ensures OutputsOk(w, s', v)
  {
    forall k | Belongs(s', s.nextOid, k)
      ensures k in AddingKeys(s', s.nextOid)
    {
      assert TileOf(k) in order && k == KeyOf(op.version, TileOf(k));
    }
    forall oid: nat, k | Belongs(s', oid, k) && oid in s'.outputs && k !in AddingKeys(s', oid)
        && (k !in v || k in s'.handling)
      ensures w.done(s'.ops[oid], s'.outputs[oid], k)
    {
      assert oid != s.nextOid && Belongs(s, oid, k);
      assert AddingKeys(s', oid) == AddingKeys(s, oid);
    }
  }

  lemma {:induction false} BeginCore<T(!new)>(w: Meaning<T>, s: Server<T>, v: map<Key, Entry>, s': Server<T>,
                                              op: Operation<T>, order: seq<Tile>)
    requires Core(w, s, v) && Begun(s, s', op, order)
    ensures Core(w, s', v)
  {
    FreshOid(s, v);
    BeginOps(s, s', op, order);
    BeginAdding(s, v, s', op, order);
    BeginEntries(s, v, s', op, order);
    BeginLinks(w, s, v, s', op, order);
    BeginCounts(s, v, s', op, order);
    BeginOutputs(w, s, v, s', op, order);
  }

  /** An operation without tiles uses up an id and a version, nothing else. */
  lemma {:induction false} EmptyCore<T(!new)>(w: Meaning<T>, s: Server<T>, v: map<Key, Entry>, s': Server<T>)
    requires Core(w, s, v)
    requires s' == s.(nextOid := s'.nextOid, versions := s'.versions) && s.nextOid <= s'.nextOid
             && s.versions <= s'.versions
    ensures Core(w, s', v)
  {
    EmptyOps(s, v, s');
    EmptyLinks(w, s, v, s');
    SamePending(s, v, s', v);
    SameOutputs(w, s, v, s', v);
  }

  lemma {:induction false} EmptyOps<T>(s: Server<T>, v: map<Key, Entry>, s': Server<T>)
    requires OpsOk(s) && (forall oid | oid in s.adding :: AddingOk(s, v, oid))
    requires (forall k | k in v :: EntryOk(s, v, k)) && (forall k | k in s.handling :: HandlingOk(s, v, k))
    requires s' == s.(nextOid := s'.nextOid, versions := s'.versions) && s.nextOid <= s'.nextOid
             && s.versions <= s'.versions
    ensures OpsOk(s') && (forall oid | oid in s'.adding :: AddingOk(s', v, oid))
    ensures (forall k | k in v :: EntryOk(s', v, k)) && (forall k | k in s'.handling :: HandlingOk(s', v, k))
  {
    forall oid | oid in s'.ops
      ensures OpOk(s', oid)
    {
      assert OpOk(s, oid);
    }
    forall oid | oid in s'.adding
      ensures AddingOk(s', v, oid)
    {
      assert AddingOk(s, v, oid);
    }
    forall k | k in v
      ensures EntryOk(s', v, k)
    {
      assert EntryOk(s, v, k);
      assert Heard(s, v[k].home, k) ==> Heard(s', v[k].home, k);
    }
    forall k | k in s'.handling
      ensures HandlingOk(s', v, k)
    {
      assert HandlingOk(s, v, k);
    }
  }

  lemma {:induction false} EmptyLinks<T(!new)>(w: Meaning<T>, s: Server<T>, v: map<Key, Entry>, s': Server<T>)
    requires LinksOk(w, s, v)
    requires s' == s.(nextOid := s'.nextOid, versions := s'.versions)
    ensures LinksOk(w, s', v)
  {
    forall d, m | d in s'.links && m in s'.links[d]
      ensures MsgOk(w, s', v, d, m)
    {
      assert MsgOk(w, s, v, d, m);
    }
  }

  lemma {:induction false} DispatchInv<T(!new)>(ar: Arith<T>, s: Server<T>, op: Operation<T>, order: seq<Tile>, nan: T)
    requires Inv(ar, s) && op.Ok() && op.version !in s.versions && Shuffled(op.tiles, order)
    ensures Inv(ar, DoDispatch(s, op, order, nan))
  {
    var s' := DoDispatch(s, op, order, nan);
    if order == [] {
      EmptyCore(MeaningOf(ar), s, View(s.tracker), s');
    } else {
      DispatchIsBegun(s, op, order, nan);
      BeginCore(MeaningOf(ar), s, View(s.tracker), s', op, order);
    }
  }

  lemma {:induction false} DispatchIsBegun<T>(s: Server<T>, op: Operation<T>, order: seq<Tile>, nan: T)
    requires op.Ok() && op.version !in s.versions && Shuffled(op.tiles, order) && order != []
    ensures Begun(s, DoDispatch(s, op, order, nan), op, order)
  {
  }

  // --------------------------------------------------------------------------
  // One tile handed to the tracker
  // --------------------------------------------------------------------------

  ghost predicate Added<T>(s: Server<T>, v: map<Key, Entry>, s': Server<T>, v': map<Key, Entry>, oid: nat, k: Key) {
    && oid in s.ops && oid in s.adding && s.adding[oid] != []
    && k == KeyOf(s.ops[oid].version, s.adding[oid][0])
    && v' == v[k := Entry(oid, Idle, -1)]
    && s' == s.(tracker := s'.tracker, adding := s.adding[oid := s.adding[oid][1..]])
  }

  lemma {:induction false} AddedIsNew<T>(s: Server<T>, v: map<Key, Entry>, s': Server<T>, v': map<Key, Entry>,
                                         oid: nat, k: Key)
    requires Added(s, v, s', v', oid, k) && AddingOk(s, v, oid)
    ensures k !in v && k !in s.handling && Belongs(s, oid, k)
    ensures AddingKeys(s, oid) == AddingKeys(s', oid) + {k} && k !in AddingKeys(s', oid)
  {
    var order := s.adding[oid];
    assert order[0] in order;
    assert order == [order[0]] + order[1..];
    assert order[0] !in order[1..];
    assert AddingKeys(s, oid) == (set t | t in order :: KeyOf(s.ops[oid].version, t));
    assert AddingKeys(s', oid) == (set t | t in order[1..] :: KeyOf(s.ops[oid].version, t));
    assert TileOf(k) == order[0];
  }

  lemma {:induction false} AddAdding<T>(s: Server<T>, v: map<Key, Entry>, s': Server<T>, v': map<Key, Entry>,
                                        oid: nat, k: Key)
    requires OpsOk(s) && (forall o | o in s.adding :: AddingOk(s, v, o)) && Added(s, v, s', v', oid, k)
    ensures OpsOk(s') && forall o | o in s'.adding :: AddingOk(s', v', o)
  {
    AddedIsNew(s, v, s', v', oid, k);
    forall o | o in s'.ops
      ensures OpOk(s', o)
    {
      assert OpOk(s, o);
    }
    forall o | o in s'.adding
      ensures AddingOk(s', v', o)
    {
      assert AddingOk(s, v, o);
      forall t | t in s'.adding[o]
        ensures t in s.adding[o] && KeyOf(s'.ops[o].version, t) != k
      {
        if o == oid {
          assert KeyOf(s.ops[oid].version, t) in AddingKeys(s', oid);
        }
      }
    }
  }

  lemma {:induction false} AddEntries<T>(s: Server<T>, v: map<Key, Entry>, s': Server<T>, v': map<Key, Entry>,
                                         oid: nat, k: Key)
    requires Added(s, v, s', v', oid, k) && AddingOk(s, v, oid) && LimboOk(s, v)
    requires (forall k' | k' in v :: EntryOk(s, v, k')) && (forall k' | k' in s.handling :: HandlingOk(s, v, k'))
    ensures (forall k' | k' in v' :: EntryOk(s', v', k')) && (forall k' | k' in s'.handling :: HandlingOk(s', v', k'))
    ensures LimboOk(s', v')
  {
    AddedIsNew(s, v, s', v', oid, k);
    forall k' | k' in v'
      ensures EntryOk(s', v', k')
    {
      if k' != k {
        assert EntryOk(s, v, k');
        assert Heard(s, v[k'].home, k') ==> Heard(s', v[k'].home, k');
      }
    }
    forall k' | k' in s'.handling
      ensures HandlingOk(s', v', k')
    {
      assert HandlingOk(s, v, k');
    }
  }

  lemma {:induction false} AddLinks<T(!new)>(w: Meaning<T>, s: Server<T>, v: map<Key, Entry>, s': Server<T>,
                                             v': map<Key, Entry>, oid: nat, k: Key)
    requires LinksOk(w, s, v) && Added(s, v, s', v', oid, k) && k !in v
    ensures LinksOk(w, s', v')
  {
    forall d, m | d in s'.links && m in s'.links[d]
      ensures MsgOk(w, s', v', d, m)
    {
      assert MsgOk(w, s, v, d, m);
    }
  }

  lemma {:induction false} AddPending<T>(s: Server<T>, v: map<Key, Entry>, s': Server<T>, v': map<Key, Entry>,
                                         oid: nat, k: Key, o: nat)
    requires Added(s, v, s', v', oid, k) && AddingOk(s, v, oid) && o in s.ops
    ensures Pending(s', v', o) == Pending(s, v, o)
  {
    AddedIsNew(s, v, s', v', oid, k);
    assert Owned(v', o) == Owned(v, o) + (if o == oid then {k} else {});
    assert Handled(s', o) == Handled(s, o);
    assert o != oid ==> AddingKeys(s', o) == AddingKeys(s, o);
  }

  lemma {:induction false} AddCounts<T>(s: Server<T>, v: map<Key, Entry>, s': Server<T>, v': map<Key, Entry>,
                                        oid: nat, k: Key)
    requires Added(s, v, s', v', oid, k) && AddingOk(s, v, oid) && CountsOk(s, v)
    ensures CountsOk(s', v')
  {
    forall o | o in s'.ops
      ensures CountOf(s', o) == |Pending(s', v', o)|
    {
      AddPending(s, v, s', v', oid, k, o);
    }
  }

  lemma {:induction false} AddOutputs<T(!new)>(w: Meaning<T>, s: Server<T>, v: map<Key, Entry>, s': Server<T>,
                                               v': map<Key, Entry>, oid: nat, k: Key)
    requires Added(s, v, s', v', oid, k) && AddingOk(s, v, oid) && OutputsOk(w, s, v)
    ensures OutputsOk(w, s', v')
  {
    AddedIsNew(s, v, s', v', oid, k);
    forall o: nat, k' | Belongs(s', o, k') && o in s'.outputs && k' !in AddingKeys(s', o)
        && (k' !in v' || k' in s'.handling)
      ensures w.done(s'.ops[o], s'.outputs[o], k')
    {
      assert Belongs(s, o, k');
      assert k' != k;
      assert o != oid ==> AddingKeys(s', o) == AddingKeys(s, o);
    }
  }

  lemma {:induction false} AddCore<T(!new)>(w: Meaning<T>, s: Server<T>, v: map<Key, Entry>, s': Server<T>,
                                            v': map<Key, Entry>, oid: nat, k: Key)
    requires Core(w, s, v) && Added(s, v, s', v', oid, k)
    ensures Core(w, s', v')
  {
    assert AddingOk(s, v, oid);
    AddedIsNew(s, v, s', v', oid, k);
    AddAdding(s, v, s', v', oid, k);
    AddEntries(s, v, s', v', oid, k);
    AddLinks(w, s, v, s', v', oid, k);
    AddCounts(s, v, s', v', oid, k);
    AddOutputs(w, s, v, s', v', oid, k);
  }

  lemma {:induction false} AddTileInv<T(!new)>(ar: Arith<T>, s: Server<T>, oid: nat)
    requires Inv(ar, s) && oid in s.adding && oid in s.ops && s.adding[oid] != []
    ensures Inv(ar, DoAddTile(s, oid))
  {
    var v, k := View(s.tracker), KeyOf(s.ops[oid].version, s.adding[oid][0]);
    assert AddingOk(s, v, oid);
    assert s.adding[oid][0] in s.adding[oid];
    AddView(s.tracker, -1, k, oid, -1);
    AddCore(MeaningOf(ar), s, v, DoAddTile(s, oid), v[k := Entry(oid, Idle, -1)], oid, k);
  }

  // --------------------------------------------------------------------------
  // The dispatch returns
  // --------------------------------------------------------------------------

  lemma {:induction false} ReturnCore<T(!new)>(w: Meaning<T>, s: Server<T>, v: map<Key, Entry>, oid: nat)
    requires Core(w, s, v) && oid in s.adding && s.adding[oid] == []
    ensures Core(w, DoReturn(s, oid), v)
  {
    ReturnOps(s, v, DoReturn(s, oid), oid);
    ReturnLinks(w, s, v, DoReturn(s, oid), oid);
    ReturnCounts(s, v, DoReturn(s, oid), oid);
    ReturnOutputs(w, s, v, DoReturn(s, oid), oid);
  }

  lemma {:induction false} ReturnOps<T>(s: Server<T>, v: map<Key, Entry>, s': Server<T>, oid: nat)
    requires OpsOk(s) && (forall o | o in s.adding :: AddingOk(s, v, o))
    requires (forall k | k in v :: EntryOk(s, v, k)) && (forall k | k in s.handling :: HandlingOk(s, v, k))
    requires s' == DoReturn(s, oid) && oid in s.adding
    ensures OpsOk(s') && (forall o | o in s'.adding :: AddingOk(s', v, o))
    ensures (forall k | k in v :: EntryOk(s', v, k)) && (forall k | k in s'.handling :: HandlingOk(s', v, k))
  {
    forall o | o in s'.ops
      ensures OpOk(s', o)
    {
      assert OpOk(s, o);
    }
    forall o | o in s'.adding
      ensures AddingOk(s', v, o)
    {
      assert AddingOk(s, v, o);
    }
    forall k | k in v
      ensures EntryOk(s', v, k)
    {
      assert EntryOk(s, v, k);
      assert Heard(s, v[k].home, k) ==> Heard(s', v[k].home, k);
    }
    forall k | k in s'.handling
      ensures HandlingOk(s', v, k)
    {
      assert HandlingOk(s, v, k);
    }
  }

  lemma {:induction false} ReturnLinks<T(!new)>(w: Meaning<T>, s: Server<T>, v: map<Key, Entry>, s': Server<T>,
                                                oid: nat)
    requires LinksOk(w, s, v) && s' == DoReturn(s, oid)
    ensures LinksOk(w, s', v)
  {
    forall d, m | d in s'.links && m in s'.links[d]
      ensures MsgOk(w, s', v, d, m)
    {
      assert MsgOk(w, s, v, d, m);
    }
  }

  lemma {:induction false} ReturnPending<T>(s: Server<T>, v: map<Key, Entry>, s': Server<T>, oid: nat, o: nat)
    requires s' == DoReturn(s, oid) && oid in s.adding && s.adding[oid] == [] && o in s.ops
    ensures Pending(s', v, o) == Pending(s, v, o)
  {
    assert AddingKeys(s', o) == AddingKeys(s, o);
    assert Handled(s', o) == Handled(s, o);
  }

  lemma {:induction false} ReturnCounts<T>(s: Server<T>, v: map<Key, Entry>, s': Server<T>, oid: nat)
    requires CountsOk(s, v) && s' == DoReturn(s, oid) && oid in s.adding && s.adding[oid] == []
    ensures CountsOk(s', v)
  {
    forall o | o in s'.ops
      ensures CountOf(s', o) == |Pending(s', v, o)|
    {
      ReturnPending(s, v, s', oid, o);
    }
  }

  lemma {:induction false} ReturnOutputs<T(!new)>(w: Meaning<T>, s: Server<T>, v: map<Key, Entry>, s': Server<T>,
                                                  oid: nat)
    requires OutputsOk(w, s, v) && s' == DoReturn(s, oid) && oid in s.adding && s.adding[oid] == []
    ensures OutputsOk(w, s', v)
  {
    forall o: nat, k | Belongs(s', o, k) && o in s'.outputs && k !in AddingKeys(s', o) && (k !in v || k in s'.handling)
      ensures w.done(s'.ops[o], s'.outputs[o], k)
    {
      assert Belongs(s, o, k);
      assert AddingKeys(s', o) == AddingKeys(s, o);
    }
  }

  lemma {:induction false} ReturnInv<T(!new)>(ar: Arith<T>, s: Server<T>, oid: nat)
    requires Inv(ar, s) && oid in s.adding && s.adding[oid] == []
    ensures Inv(ar, DoReturn(s, oid))
  {
    ReturnCore(MeaningOf(ar), s, View(s.tracker), oid);
  }
}
