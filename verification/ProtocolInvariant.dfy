/** What every step of the protocol keeps. */
module ProtocolInvariant {
  import opened Sequences
  import opened Tiling
  import opened Keys
  import opened Tracker
  import opened TrackerView
  import opened Protocol

  // --------------------------------------------------------------------------
  // The invariant
  // --------------------------------------------------------------------------

  /** Operations: ids below the counter, a version each, an output of the right size each. */
  ghost predicate OpOk<T>(s: Server<T>, oid: nat) {
    && oid in s.ops && s.ops[oid].Ok()
    && oid < s.nextOid && s.ops[oid].version in s.versions
    && oid in s.outputs && |s.outputs[oid]| == s.ops[oid].g.CSize()
  }

  ghost predicate OpsOk<T>(s: Server<T>) {
    && (forall oid | oid in s.ops :: OpOk(s, oid))
    && (forall o1, o2 | o1 in s.ops && o2 in s.ops && s.ops[o1].version == s.ops[o2].version :: o1 == o2)
    && (forall oid | oid in s.returned :: oid in s.ops && oid !in s.adding)
    && (forall oid | oid in s.adding :: oid in s.ops)
    && (forall d | d in s.links :: 0 <= d)
  }

  ghost function AddingKeys<T>(s: Server<T>, oid: nat): set<Key>
    requires oid in s.ops
  {
    if oid in s.adding then set t | t in s.adding[oid] :: KeyOf(s.ops[oid].version, t) else {}
  }

  /** A tile still to be handed over is nowhere else. */
  ghost predicate AddingOk<T>(s: Server<T>, v: map<Key, Entry>, oid: nat)
    requires oid in s.ops && oid in s.adding
  {
    && NoRepeat(s.adding[oid])
    && forall t | t in s.adding[oid] ::
         && t in s.ops[oid].tiles
         && KeyOf(s.ops[oid].version, t) !in v
         && KeyOf(s.ops[oid].version, t) !in s.handling
  }

  /** A message about k is on the link of d. */
  ghost predicate Heard<T>(s: Server<T>, d: int, k: Key) {
    exists m :: d in s.links && m in s.links[d] && m.key == k
  }

  ghost predicate EntryOk<T>(s: Server<T>, v: map<Key, Entry>, k: Key)
    requires k in v
  {
    && Belongs(s, v[k].oid, k)
    && v[k].state != Finished
    && (v[k].state == Idle ==> k !in s.handling && k !in s.limbo)
    && (v[k].state == Running && k !in s.limbo ==>
          v[k].home in s.links && (k in s.handling || Heard(s, v[k].home, k)))
  }

  /** What messages and outputs must hold; the step lemmas use it without looking inside. */
  datatype Meaning<!T> = Meaning(
    right: (Operation<T>, Msg<T>) -> bool,
    done: (Operation<T>, seq<T>, Key) -> bool)

  /** A request carries its tile's blocks; a reply carries the tile of the reference product. */
  ghost predicate Right<T>(ar: Arith<T>, op: Operation<T>, m: Msg<T>) {
    && op.Ok() && TileOf(m.key) in op.tiles
    && match m
       case Request(k, _, part) => part == CalculateMatrixPartition(op.g, op.a, op.b, TileOf(k))
       case Reply(k, _, block) => IsTileResult(op.g, ar, op.a, op.b, TileOf(k), block)
  }

  /** The output holds tile k of the reference product. */
  ghost predicate Done<T>(ar: Arith<T>, op: Operation<T>, out: seq<T>, k: Key) {
    op.Ok() && TileDone(op.g, ar, op.a, op.b, out, TileOf(k))
  }

  ghost function MeaningOf<T>(ar: Arith<T>): Meaning<T> {
    Meaning((op: Operation<T>, m: Msg<T>) => Right(ar, op, m),
            (op: Operation<T>, out: seq<T>, k: Key) => Done(ar, op, out, k))
  }

  /** A message is about a running tile whose reverse index names the link it is on. */
  ghost predicate MsgOk<T>(w: Meaning<T>, s: Server<T>, v: map<Key, Entry>, d: int, m: Msg<T>)
    requires d in s.links
  {
    && s.links[d][m] == 1
    && m.key in v && v[m.key].state == Running && v[m.key].home == d && v[m.key].oid == m.oid
    && m.key !in s.limbo && m.key !in s.handling
    && Belongs(s, m.oid, m.key) && w.right(s.ops[m.oid], m)
  }

  ghost predicate LinksOk<T(!new)>(w: Meaning<T>, s: Server<T>, v: map<Key, Entry>) {
    && (forall d, m | d in s.links && m in s.links[d] :: MsgOk(w, s, v, d, m))
    && (forall d, m, m' | d in s.links && m in s.links[d] && m' in s.links[d] && m.key == m'.key :: m == m')
  }

  ghost predicate HandlingOk<T>(s: Server<T>, v: map<Key, Entry>, k: Key)
    requires k in s.handling
  {
    var h := s.handling[k];
    && Belongs(s, h.oid, k)
    && k !in s.limbo
    && (h.Written? ==> k in v && v[k] == Entry(h.oid, Running, h.dev))
    && (h.Retired? ==> k !in v)
  }

  /** Tiles of an operation that are not yet written and counted. */
  ghost function Pending<T>(s: Server<T>, v: map<Key, Entry>, oid: nat): set<Key>
    requires oid in s.ops
  {
    AddingKeys(s, oid) + Owned(v, oid) + Handled(s, oid)
  }

  ghost predicate CountsOk<T>(s: Server<T>, v: map<Key, Entry>) {
    && (forall oid | oid in s.ops :: CountOf(s, oid) == |Pending(s, v, oid)|)
    && (forall oid: nat | oid !in s.ops :: CountOf(s, oid) == 0)
  }

  /** Whatever is no longer waiting to be written has been written. */
  ghost predicate OutputsOk<T>(w: Meaning<T>, s: Server<T>, v: map<Key, Entry>) {
    forall oid: nat, k | Belongs(s, oid, k) && oid in s.outputs && k !in AddingKeys(s, oid)
        && (k !in v || k in s.handling) ::
      w.done(s.ops[oid], s.outputs[oid], k)
  }

  ghost predicate LimboOk<T>(s: Server<T>, v: map<Key, Entry>) {
    forall k | k in s.limbo :: k in v && v[k].state == Running && k !in s.handling
  }

  ghost predicate Core<T(!new)>(w: Meaning<T>, s: Server<T>, v: map<Key, Entry>) {
    && OpsOk(s)
    && (forall oid | oid in s.adding :: AddingOk(s, v, oid))
    && (forall k | k in v :: EntryOk(s, v, k))
    && LinksOk(w, s, v)
    && (forall k | k in s.handling :: HandlingOk(s, v, k))
    && CountsOk(s, v)
    && OutputsOk(w, s, v)
    && LimboOk(s, v)
  }

  ghost predicate Inv<T(!new)>(ar: Arith<T>, s: Server<T>) {
    Agree(s.tracker) && Core(MeaningOf(ar), s, View(s.tracker))
  }

  lemma {:induction false} InitInv<T(!new)>(ar: Arith<T>)
    ensures Inv(ar, Init())
  {
  }

  // --------------------------------------------------------------------------
  // Steps that only touch the tracker, the claimed tiles and the links
  // --------------------------------------------------------------------------

  /** Steps that change no operation id, nothing to add and no handled reply change no counter's meaning. */
  lemma {:induction false} SamePending<T>(s: Server<T>, v: map<Key, Entry>, s': Server<T>, v': map<Key, Entry>)
    requires s'.ops == s.ops && s'.adding == s.adding && s'.handling == s.handling && s'.counts == s.counts
    requires v'.Keys == v.Keys && forall k | k in v :: v'[k].oid == v[k].oid
    requires CountsOk(s, v)
    ensures CountsOk(s', v')
  {
    forall oid | oid in s'.ops
      ensures CountOf(s', oid) == |Pending(s', v', oid)|
    {
      SameOwned(v, v', oid);
    }
  }

  lemma {:induction false} SameOwned(v: map<Key, Entry>, v': map<Key, Entry>, oid: nat)
    requires v'.Keys == v.Keys && forall k | k in v :: v'[k].oid == v[k].oid
    ensures Owned(v', oid) == Owned(v, oid)
  {
    assert forall k :: k in v <==> k in v';
  }

  /** A step over tracker, claimed tiles and links only. */
  ghost predicate Quiet<T>(s: Server<T>, v: map<Key, Entry>, s': Server<T>, v': map<Key, Entry>) {
    && s' == s.(tracker := s'.tracker, limbo := s'.limbo, links := s'.links)
    && v'.Keys == v.Keys
    && (forall k | k in v :: v'[k].oid == v[k].oid)
    && (forall k | k in s.handling && k in v :: v'[k] == v[k])
  }

  lemma {:induction false} QuietAdding<T>(s: Server<T>, v: map<Key, Entry>, s': Server<T>, v': map<Key, Entry>)
    requires OpsOk(s) && forall oid | oid in s.adding :: AddingOk(s, v, oid)
    requires Quiet(s, v, s', v')
    ensures forall oid | oid in s'.adding :: AddingOk(s', v', oid)
  {
  }

  lemma {:induction false} QuietHandling<T>(s: Server<T>, v: map<Key, Entry>, s': Server<T>, v': map<Key, Entry>)
    requires forall k | k in s.handling :: HandlingOk(s, v, k)
    requires Quiet(s, v, s', v') && LimboOk(s', v')
    ensures forall k | k in s'.handling :: HandlingOk(s', v', k)
  {
    forall k | k in s'.handling
      ensures HandlingOk(s', v', k)
    {
      assert HandlingOk(s, v, k);
    }
  }

  lemma {:induction false} SameOutputs<T>(w: Meaning<T>, s: Server<T>, v: map<Key, Entry>, s': Server<T>,
                                          v': map<Key, Entry>)
    requires OutputsOk(w, s, v)
    requires s'.ops == s.ops && s'.adding == s.adding && s'.outputs == s.outputs
    requires forall k | k !in v' || k in s'.handling :: k !in v || k in s.handling
    ensures OutputsOk(w, s', v')
  {
    forall oid: nat, k | Belongs(s', oid, k) && oid in s'.outputs && k !in AddingKeys(s', oid)
        && (k !in v' || k in s'.handling)
      ensures w.done(s'.ops[oid], s'.outputs[oid], k)
    {
      assert Belongs(s, oid, k);
    }
  }

  lemma {:induction false} QuietCore<T(!new)>(w: Meaning<T>, s: Server<T>, v: map<Key, Entry>, s': Server<T>,
                                              v': map<Key, Entry>)
    requires Core(w, s, v) && Quiet(s, v, s', v')
    requires forall d | d in s'.links :: 0 <= d
    requires forall k | k in v' :: EntryOk(s', v', k)
    requires LinksOk(w, s', v')
    requires LimboOk(s', v')
    ensures Core(w, s', v')
  {
    assert OpsOk(s') by {
      forall oid | oid in s'.ops
        ensures OpOk(s', oid)
      {
        assert OpOk(s, oid);
      }
    }
    QuietAdding(s, v, s', v');
    QuietHandling(s, v, s', v');
    SamePending(s, v, s', v');
    SameOutputs(w, s, v, s', v');
  }

  // --------------------------------------------------------------------------
  // Senders: claim, assign, release, send
  // --------------------------------------------------------------------------

  lemma {:induction false} ClaimInv<T(!new)>(ar: Arith<T>, s: Server<T>)
    requires Inv(ar, s)
    ensures Inv(ar, DoClaim(s))
  {
    ClaimView(s.tracker);
    var v, s' := View(s.tracker), DoClaim(s);
    var v' := ClaimedView(v);
    ClaimEntries(s, v, s', v');
    ClaimLinks(MeaningOf(ar), s, v, s', v');
    QuietCore(MeaningOf(ar), s, v, s', v');
  }

  lemma {:induction false} ClaimEntries<T>(s: Server<T>, v: map<Key, Entry>, s': Server<T>, v': map<Key, Entry>)
    requires forall k | k in v :: EntryOk(s, v, k)
    requires (forall k | k in s.handling :: HandlingOk(s, v, k)) && LimboOk(s, v)
    requires v' == ClaimedView(v) && s' == s.(tracker := s'.tracker, limbo := s.limbo + IdleKeys(v))
    ensures forall k | k in v' :: EntryOk(s', v', k)
    ensures LimboOk(s', v') && Quiet(s, v, s', v')
  {
    forall k | k in v'
      ensures EntryOk(s', v', k)
    {
      assert EntryOk(s, v, k);
      assert Heard(s, v[k].home, k) ==> Heard(s', v'[k].home, k);
    }
    forall k | k in s.handling
      ensures k in v ==> v'[k] == v[k]
    {
      assert HandlingOk(s, v, k);
    }
    forall k | k in s'.limbo
      ensures k in v' && v'[k].state == Running && k !in s'.handling
    {
      assert k in IdleKeys(v) ==> EntryOk(s, v, k);
    }
  }

  lemma {:induction false} ClaimLinks<T(!new)>(w: Meaning<T>, s: Server<T>, v: map<Key, Entry>, s': Server<T>,
                                               v': map<Key, Entry>)
    requires LinksOk(w, s, v)
    requires v' == ClaimedView(v) && s' == s.(tracker := s'.tracker, limbo := s.limbo + IdleKeys(v))
    ensures LinksOk(w, s', v')
  {
    forall d, m | d in s'.links && m in s'.links[d]
      ensures MsgOk(w, s', v', d, m)
    {
      assert MsgOk(w, s, v, d, m);
    }
  }

  lemma {:induction false} AssignInv<T(!new)>(ar: Arith<T>, s: Server<T>, k: Key, target: int)
    requires Inv(ar, s) && k in s.limbo
    ensures Wf(s.tracker) && Inv(ar, DoAssign(s, k, target))
  {
    var v := View(s.tracker);
    assert k in v;
    ReassignView(s.tracker, k, target);
    var s', v' := DoAssign(s, k, target), v[k := v[k].(home := target)];
    ClaimedTouched(MeaningOf(ar), s, v, s', v', k);
  }

  /** Changing the home, or the state, of a claimed tile disturbs nobody else. */
  lemma {:induction false} ClaimedTouched<T(!new)>(w: Meaning<T>, s: Server<T>, v: map<Key, Entry>, s': Server<T>,
                                                   v': map<Key, Entry>, k: Key)
    requires Core(w, s, v) && k in s.limbo && k in v && k in v'
    requires v' == v[k := v'[k]] && v'[k].oid == v[k].oid
    requires || (v'[k].state == Running && s' == s.(tracker := s'.tracker))
             || (v'[k].state == Idle && s' == s.(tracker := s'.tracker, limbo := s.limbo - {k}))
    ensures Core(w, s', v')
  {
    ClaimedTouchedEntries(s, v, s', v', k);
    ClaimedTouchedLinks(w, s, v, s', v', k);
    QuietCore(w, s, v, s', v');
  }

  lemma {:induction false} ClaimedTouchedEntries<T>(s: Server<T>, v: map<Key, Entry>, s': Server<T>,
                                                    v': map<Key, Entry>, k: Key)
    requires (forall k' | k' in v :: EntryOk(s, v, k')) && LimboOk(s, v)
    requires k in s.limbo && k in v && k in v'
    requires v' == v[k := v'[k]] && v'[k].oid == v[k].oid
    requires || (v'[k].state == Running && s' == s.(tracker := s'.tracker))
             || (v'[k].state == Idle && s' == s.(tracker := s'.tracker, limbo := s.limbo - {k}))
    ensures forall k' | k' in v' :: EntryOk(s', v', k')
    ensures LimboOk(s', v') && Quiet(s, v, s', v')
  {
    forall k' | k' in v'
      ensures EntryOk(s', v', k')
    {
      assert EntryOk(s, v, k');
      assert Heard(s, v[k'].home, k') ==> Heard(s', v[k'].home, k');
    }
  }

  lemma {:induction false} ClaimedTouchedLinks<T(!new)>(w: Meaning<T>, s: Server<T>, v: map<Key, Entry>,
                                                        s': Server<T>, v': map<Key, Entry>, k: Key)
    requires LinksOk(w, s, v) && k in s.limbo && k in v'
    requires v' == v[k := v'[k]]
    requires s' == s.(tracker := s'.tracker, limbo := s'.limbo) && s'.limbo <= s.limbo
    ensures LinksOk(w, s', v')
  {
    forall d, m | d in s'.links && m in s'.links[d]
      ensures MsgOk(w, s', v', d, m)
    {
      assert MsgOk(w, s, v, d, m);
    }
  }

  lemma {:induction false} ReleaseInv<T(!new)>(ar: Arith<T>, s: Server<T>, k: Key)
    requires Inv(ar, s) && k in s.limbo
    ensures Wf(s.tracker) && Inv(ar, DoRelease(s, k))
  {
    var v := View(s.tracker);
    assert k in v;
    MarkView(s.tracker, k, Idle);
    var s', v' := DoRelease(s, k), v[k := v[k].(state := Idle)];
    ClaimedTouched(MeaningOf(ar), s, v, s', v', k);
  }

  lemma {:induction false} SendInv<T(!new)>(ar: Arith<T>, s: Server<T>, k: Key)
    requires Inv(ar, s) && k in s.limbo && k in View(s.tracker) && View(s.tracker)[k].home in s.links
    ensures Inv(ar, DoSend(s, k))
  {
    var v := View(s.tracker);
    assert EntryOk(s, v, k) && OpOk(s, v[k].oid);
    SendIsSent(ar, s, k);
    SendCore(MeaningOf(ar), s, v, DoSend(s, k), v[k].home, k, RequestFor(s, k, v[k].oid));
  }

  lemma {:induction false} RequestRight<T>(ar: Arith<T>, s: Server<T>, k: Key, oid: nat)
    requires Belongs(s, oid, k) && s.ops[oid].Ok()
    ensures MeaningOf(ar).right(s.ops[oid], RequestFor(s, k, oid))
  {
  }

  lemma {:induction false} SendIsSent<T(!new)>(ar: Arith<T>, s: Server<T>, k: Key)
    requires k in s.limbo && k in View(s.tracker) && View(s.tracker)[k].home in s.links
    requires Belongs(s, View(s.tracker)[k].oid, k) && s.ops[View(s.tracker)[k].oid].Ok()
    ensures Sent(MeaningOf(ar), s, View(s.tracker), DoSend(s, k), View(s.tracker)[k].home, k,
                 RequestFor(s, k, View(s.tracker)[k].oid))
  {
    RequestRight(ar, s, k, View(s.tracker)[k].oid);
  }

  ghost predicate Sent<T(!new)>(w: Meaning<T>, s: Server<T>, v: map<Key, Entry>, s': Server<T>, d: int, k: Key,
                                m: Msg<T>) {
    && k in s.limbo && k in v && v[k].home == d && d in s.links
    && m.key == k && m.oid == v[k].oid
    && Belongs(s, m.oid, k) && w.right(s.ops[m.oid], m)
    && s' == s.(links := s.links[d := s.links[d] + multiset{m}], limbo := s.limbo - {k})
  }

  lemma {:induction false} SendCore<T(!new)>(w: Meaning<T>, s: Server<T>, v: map<Key, Entry>, s': Server<T>, d: int,
                                             k: Key, m: Msg<T>)
    requires Core(w, s, v) && Sent(w, s, v, s', d, k, m)
    ensures Core(w, s', v)
  {
    SendKeepsLinks(w, s, v, s', d, k, m);
    SendKeepsEntries(w, s, v, s', d, k, m);
    QuietCore(w, s, v, s', v);
  }

  lemma {:induction false} SendKeepsLinks<T(!new)>(w: Meaning<T>, s: Server<T>, v: map<Key, Entry>, s': Server<T>,
                                                   d: int, k: Key, m: Msg<T>)
    requires Core(w, s, v) && Sent(w, s, v, s', d, k, m)
    ensures LinksOk(w, s', v)
  {
    SendLinks(w, s, v, s', d, k, m);
  }

  lemma {:induction false} SendKeepsEntries<T(!new)>(w: Meaning<T>, s: Server<T>, v: map<Key, Entry>, s': Server<T>,
                                                     d: int, k: Key, m: Msg<T>)
    requires Core(w, s, v) && Sent(w, s, v, s', d, k, m)
    ensures forall k' | k' in v :: EntryOk(s', v, k')
    ensures LimboOk(s', v) && Quiet(s, v, s', v)
  {
    SendEntries(s, v, s', d, k, m);
  }

  lemma {:induction false} SendLinks<T(!new)>(w: Meaning<T>, s: Server<T>, v: map<Key, Entry>, s': Server<T>, d: int,
                                              k: Key, m: Msg<T>)
    requires LinksOk(w, s, v) && LimboOk(s, v) && k in s.limbo && d in s.links
    requires k in v && v[k].home == d && v[k].state == Running && m.key == k && m.oid == v[k].oid
    requires Belongs(s, m.oid, k) && w.right(s.ops[m.oid], m)
    requires s' == s.(links := s.links[d := s.links[d] + multiset{m}], limbo := s.limbo - {k})
    ensures LinksOk(w, s', v)
  {
    forall d', m' | d' in s.links && m' in s.links[d']
      ensures m'.key != k
    {
      assert MsgOk(w, s, v, d', m');
    }
    forall d', m' | d' in s'.links && m' in s'.links[d']
      ensures MsgOk(w, s', v, d', m')
    {
      if m' == m && d' == d {
      } else {
        assert MsgOk(w, s, v, d', m');
      }
    }
  }

  lemma {:induction false} SendEntries<T>(s: Server<T>, v: map<Key, Entry>, s': Server<T>, d: int, k: Key, m: Msg<T>)
    requires forall k' | k' in v :: EntryOk(s, v, k')
    requires LimboOk(s, v) && k in s.limbo && d in s.links && k in v && v[k].home == d && m.key == k
    requires s' == s.(links := s.links[d := s.links[d] + multiset{m}], limbo := s.limbo - {k})
    ensures forall k' | k' in v :: EntryOk(s', v, k')
    ensures LimboOk(s', v)
  {
    forall k' | k' in v
      ensures EntryOk(s', v, k')
    {
      assert EntryOk(s, v, k');
      if k' == k {
        assert m in s'.links[d];
        assert Heard(s', d, k);
      } else if Heard(s, v[k'].home, k') {
        HeardGrows(s, v[k'].home, k', s', d, m);
      }
    }
  }

  lemma {:induction false} HeardGrows<T>(s: Server<T>, h: int, k: Key, s': Server<T>, d: int, m: Msg<T>)
    requires d in s.links && s'.links == s.links[d := s.links[d] + multiset{m}] && Heard(s, h, k)
    ensures Heard(s', h, k)
  {
    var m' :| h in s.links && m' in s.links[h] && m'.key == k;
    assert m' in s'.links[h];
  }

  ghost function Owned(v: map<Key, Entry>, oid: nat): set<Key> {
    set k | k in v && v[k].oid == oid
  }

  ghost function Handled<T>(s: Server<T>, oid: nat): set<Key> {
    set k | k in s.handling && s.handling[k].oid == oid
  }

  // --------------------------------------------------------------------------
  // Connections and devices
  // --------------------------------------------------------------------------

  lemma {:induction false} ConnectInv<T(!new)>(ar: Arith<T>, s: Server<T>, d: int)
    requires Inv(ar, s) && 0 <= d && d !in s.links
    ensures Inv(ar, s.(links := s.links[d := multiset{}]))
  {
    var v, s' := View(s.tracker), s.(links := s.links[d := multiset{}]);
    ConnectEntries(s, v, s', d);
    ConnectLinks(MeaningOf(ar), s, v, s', d);
    QuietCore(MeaningOf(ar), s, v, s', v);
  }

  lemma {:induction false} ConnectEntries<T>(s: Server<T>, v: map<Key, Entry>, s': Server<T>, d: int)
    requires forall k | k in v :: EntryOk(s, v, k)
    requires d !in s.links && s' == s.(links := s.links[d := multiset{}])
    ensures forall k | k in v :: EntryOk(s', v, k)
  {
    forall k | k in v
      ensures EntryOk(s', v, k)
    {
      assert EntryOk(s, v, k);
      if Heard(s, v[k].home, k) {
        var m :| v[k].home in s.links && m in s.links[v[k].home] && m.key == k;
        assert m in s'.links[v[k].home];
      }
    }
  }

  lemma {:induction false} ConnectLinks<T(!new)>(w: Meaning<T>, s: Server<T>, v: map<Key, Entry>, s': Server<T>, d: int)
    requires LinksOk(w, s, v) && s' == s.(links := s.links[d := multiset{}])
    ensures LinksOk(w, s', v)
  {
    forall d', m | d' in s'.links && m in s'.links[d']
      ensures MsgOk(w, s', v, d', m)
    {
      assert MsgOk(w, s, v, d', m);
    }
  }

  /** Closing a link drops its messages and idles exactly the tiles that ran there. */
  lemma {:induction false} CloseInv<T(!new)>(ar: Arith<T>, s: Server<T>, d: int)
    requires Inv(ar, s) && d in s.links
    requires NoneClaimedAt(s.limbo, View(s.tracker), d) && NoneWrittenFrom(s.handling, d)
    ensures Inv(ar, DoClose(s, d))
  {
    FailedDeviceView(s.tracker, d);
    var v, s' := View(s.tracker), DoClose(s, d);
    var v' := FailedView(v, d);
    CloseEntries(s, v, s', v', d);
    CloseLinks(MeaningOf(ar), s, v, s', v', d);
    QuietCore(MeaningOf(ar), s, v, s', v');
  }

  lemma {:induction false} CloseEntries<T>(s: Server<T>, v: map<Key, Entry>, s': Server<T>, v': map<Key, Entry>, d: int)
    requires forall k | k in v :: EntryOk(s, v, k)
    requires (forall k | k in s.handling :: HandlingOk(s, v, k)) && NoneWrittenFrom(s.handling, d)
    requires LimboOk(s, v) && NoneClaimedAt(s.limbo, v, d)
    requires v' == FailedView(v, d) && s' == s.(tracker := s'.tracker, links := s.links - {d})
    ensures forall k | k in v' :: EntryOk(s', v', k)
    ensures Quiet(s, v, s', v') && LimboOk(s', v')
  {
    forall k | k in s.handling
      ensures k in v ==> v[k].home != d
    {
      assert HandlingOk(s, v, k);
    }
    forall k | k in v'
      ensures EntryOk(s', v', k)
    {
      assert EntryOk(s, v, k);
      if v[k].home != d && Heard(s, v[k].home, k) {
        var m :| v[k].home in s.links && m in s.links[v[k].home] && m.key == k;
        assert m in s'.links[v[k].home];
      }
    }
  }

  lemma {:induction false} CloseLinks<T(!new)>(w: Meaning<T>, s: Server<T>, v: map<Key, Entry>, s': Server<T>,
                                               v': map<Key, Entry>, d: int)
    requires LinksOk(w, s, v)
    requires v' == FailedView(v, d) && s' == s.(tracker := s'.tracker, links := s.links - {d})
    ensures LinksOk(w, s', v')
  {
    forall d', m | d' in s'.links && m in s'.links[d']
      ensures MsgOk(w, s', v', d', m)
    {
      assert MsgOk(w, s, v, d', m);
    }
  }

  /** With no unassigned tile claimed, closing a connection that never registered idles nothing. */
  lemma {:induction false} CloseUnregisteredInv<T(!new)>(ar: Arith<T>, s: Server<T>)
    requires Inv(ar, s) && NoneClaimedAt(s.limbo, View(s.tracker), -1)
    ensures Inv(ar, s.(tracker := MarkDeviceFailed(s.tracker, -1)))
  {
    FailedDeviceView(s.tracker, -1);
    var v, s' := View(s.tracker), s.(tracker := MarkDeviceFailed(s.tracker, -1));
    NoneUnregistered(s, v);
    SameViewCore(MeaningOf(ar), s, s', v);
  }

  lemma {:induction false} NoneUnregistered<T>(s: Server<T>, v: map<Key, Entry>)
    requires forall k | k in v :: EntryOk(s, v, k)
    requires NoneClaimedAt(s.limbo, v, -1) && forall d | d in s.links :: 0 <= d
    ensures FailedView(v, -1) == v
  {
    forall k | k in v
      ensures FailedView(v, -1)[k] == v[k]
    {
      assert EntryOk(s, v, k);
    }
  }

  lemma {:induction false} SameViewCore<T(!new)>(w: Meaning<T>, s: Server<T>, s': Server<T>, v: map<Key, Entry>)
    requires Core(w, s, v) && s' == s.(tracker := s'.tracker)
    ensures Core(w, s', v)
  {
    forall k | k in v
      ensures EntryOk(s', v, k)
    {
      assert EntryOk(s, v, k);
      assert Heard(s, v[k].home, k) ==> Heard(s', v[k].home, k);
    }
    assert LinksOk(w, s', v) by {
      forall d, m | d in s'.links && m in s'.links[d]
        ensures MsgOk(w, s', v, d, m)
      {
        assert MsgOk(w, s, v, d, m);
      }
    }
    QuietCore(w, s, v, s', v);
  }

  // --------------------------------------------------------------------------
  // Closes that come at the wrong moment
  // --------------------------------------------------------------------------

  lemma {:induction false} ReclaimableBreaks<T(!new)>(ar: Arith<T>, s: Server<T>, s': Server<T>, d: int, k: Key)
    requires Inv(ar, s) && k in s.limbo && k in View(s.tracker) && View(s.tracker)[k].home == d
    requires s'.limbo == s.limbo && s'.tracker == MarkDeviceFailed(s.tracker, d)
    ensures !Inv(ar, s')
  {
    assert Agree(s.tracker) && View(s.tracker)[k].state == Running;
    FailedIsIdle(s.tracker, d, k);
    IdleHeldBreaks(ar, s', k);
  }

  lemma {:induction false} FailedIsIdle(t: Tracker, d: int, k: Key)
    requires Agree(t) && k in View(t) && View(t)[k].home == d && View(t)[k].state == Running
    ensures k in View(MarkDeviceFailed(t, d)) && View(MarkDeviceFailed(t, d))[k].state == Idle
  {
    FailedDeviceView(t, d);
  }

  lemma {:induction false} IdleHeldBreaks<T(!new)>(ar: Arith<T>, s: Server<T>, k: Key)
    requires k in s.limbo && k in View(s.tracker) && View(s.tracker)[k].state == Idle
    ensures !Inv(ar, s)
  {
    assert !LimboOk(s, View(s.tracker));
  }

  lemma {:induction false} HalfHandledBreaks<T(!new)>(ar: Arith<T>, s: Server<T>, d: int, k: Key)
    requires Inv(ar, s) && k in s.handling && s.handling[k].Written? && s.handling[k].dev == d
    ensures !Inv(ar, DoClose(s, d))
  {
    var v := View(s.tracker);
    assert HandlingOk(s, v, k);
    FailedDeviceView(s.tracker, d);
    var s' := DoClose(s, d);
    assert View(s'.tracker)[k].state == Idle;
    assert !HandlingOk(s', View(s'.tracker), k);
  }

  /**
   A device's close keeps the invariant exactly when no sender holds a tile homed there and no
   reply from there is half-way.
   */
  lemma {:induction false} CloseExactly<T(!new)>(ar: Arith<T>, s: Server<T>, d: int)
    requires Inv(ar, s) && d in s.links
    ensures Inv(ar, DoClose(s, d)) <==> NoneClaimedAt(s.limbo, View(s.tracker), d) && NoneWrittenFrom(s.handling, d)
  {
    if k :| k in s.limbo && k in View(s.tracker) && View(s.tracker)[k].home == d {
      ReclaimableBreaks(ar, s, DoClose(s, d), d, k);
    } else if k :| k in s.handling && s.handling[k].Written? && s.handling[k].dev == d {
      HalfHandledBreaks(ar, s, d, k);
    } else {
      CloseInv(ar, s, d);
    }
  }

  /**
   Closing a connection that never registered marks the tiles homed at -1 as failed: it
   keeps the invariant exactly when no claimed tile is still without a device.
   */
  lemma {:induction false} CloseUnregisteredExactly<T(!new)>(ar: Arith<T>, s: Server<T>)
    requires Inv(ar, s)
    ensures Inv(ar, s.(tracker := MarkDeviceFailed(s.tracker, -1))) <==> NoneClaimedAt(s.limbo, View(s.tracker), -1)
  {
    if k :| k in s.limbo && k in View(s.tracker) && View(s.tracker)[k].home == -1 {
      ReclaimableBreaks(ar, s, s.(tracker := MarkDeviceFailed(s.tracker, -1)), -1, k);
    } else {
      CloseUnregisteredInv(ar, s);
    }
  }
}
