/** The device registry: devices by id, address and uuid, and the circuit breaker. */
module Registry {

  datatype Device = Device(
    addr: string,
    connected: bool,
    stable: nat,
    failures: nat,
    firstFailure: nat,
    quarantined: bool,
    quarantinedAt: nat)

  datatype Breaker = Breaker(enabled: bool, threshold: int, window: int, quarantine: int)

  const DEFAULT_BREAKER := Breaker(false, 3, 60, 300)

  datatype Registry = Registry(
    devices: map<int, Device>,
    addrTo: map<string, int>,
    idTo: map<int, string>,
    uuidTo: map<nat, int>,
    nextId: nat,
    breaker: Breaker)

  const EMPTY := Registry(map[], map[], map[], map[], 0, DEFAULT_BREAKER)

  const SECOND := 1_000_000_000

  /** Whole seconds between two readings of a clock that never goes back. */
  function Seconds(since: nat, now: nat): nat {
    if now < since then 0 else (now - since) / SECOND
  }

  predicate Rejected(b: Breaker, d: Device, now: nat) {
    d.quarantined && Seconds(d.quarantinedAt, now) < b.quarantine
  }

  /** A device let in again: a quarantine that is over is forgotten together with the failures. */
  function Readmitted(d: Device): Device {
    if d.quarantined then d.(quarantined := false, failures := 0) else d
  }

  function ByUuid(r: Registry, addr: string, uuid: nat, now: nat): (Registry, int)
    requires uuid in r.uuidTo && r.uuidTo[uuid] in r.devices
  {
    var id := r.uuidTo[uuid];
    var d := r.devices[id];
    if Rejected(r.breaker, d, now) then (r, -1)
    else
      var addrTo := if d.addr != "" && d.addr != addr then r.addrTo - {d.addr} else r.addrTo;
      (r.(devices := r.devices[id := Readmitted(d).(connected := true, addr := addr, stable := uuid)],
          addrTo := addrTo[addr := id],
          idTo := r.idTo[id := addr]),
       id)
  }

  function ByAddr(r: Registry, addr: string, uuid: nat, now: nat): (Registry, int)
    requires addr in r.addrTo
  {
    var id := r.addrTo[addr];
    if id !in r.devices then (r, id)
    else
      var d := r.devices[id];
      if Rejected(r.breaker, d, now) then (r, -1)
      else
        (r.(devices := r.devices[id := Readmitted(d).(connected := true, addr := addr,
                                                      stable := if uuid != 0 then uuid else d.stable)],
            uuidTo := if uuid != 0 then r.uuidTo[uuid := id] else r.uuidTo),
         id)
  }

  function AsNew(r: Registry, addr: string, uuid: nat): (Registry, int) {
    var id := r.nextId;
    (r.(devices := r.devices[id := Device(addr, true, uuid, 0, 0, false, 0)],
        addrTo := r.addrTo[addr := id],
        idTo := r.idTo[id := addr],
        uuidTo := if uuid != 0 then r.uuidTo[uuid := id] else r.uuidTo,
        nextId := id + 1),
     id)
  }

  predicate KnownUuid(r: Registry, uuid: nat) {
    uuid != 0 && uuid in r.uuidTo && r.uuidTo[uuid] in r.devices
  }

  /** -1 if the device is quarantined. */
  function Register(r: Registry, addr: string, uuid: nat, now: nat): (Registry, int) {
    if KnownUuid(r, uuid) then ByUuid(r, addr, uuid, now)
    else if addr in r.addrTo then ByAddr(r, addr, uuid, now)
    else AsNew(r, addr, uuid)
  }

  /** One more failure, or the first of a new window; enough of them quarantine the device. */
  function Failed(b: Breaker, d: Device, now: nat): Device {
    var first := if d.failures == 0 then now else d.firstFailure;
    var late := Seconds(first, now) > b.window;
    var d1 := d.(failures := if late then 1 else d.failures + 1, firstFailure := if late then now else first);
    if d1.failures >= b.threshold then d1.(quarantined := true, quarantinedAt := now) else d1
  }

  function Disconnect(r: Registry, id: int, now: nat): Registry {
    if id !in r.devices then r
    else
      var d := r.devices[id].(connected := false);
      r.(devices := r.devices[id := if r.breaker.enabled then Failed(r.breaker, d, now) else d])
  }

  function Purge(r: Registry, id: int): Registry {
    if id !in r.devices then r
    else
      var d := r.devices[id];
      r.(devices := r.devices - {id},
         addrTo := r.addrTo - {d.addr},
         idTo := r.idTo - {id},
         uuidTo := if d.stable != 0 then r.uuidTo - {d.stable} else r.uuidTo)
  }

  function AtLeastOne(n: int): int {
    if n < 1 then 1 else n
  }

  function Configure(r: Registry, b: Breaker): Registry {
    r.(breaker := Breaker(b.enabled, AtLeastOne(b.threshold), AtLeastOne(b.window), AtLeastOne(b.quarantine)))
  }

  datatype Event =
    | Joins(addr: string, uuid: nat, now: nat)
    | Leaves(id: int, now: nat)
    | Purged(id: int)
    | Configured(breaker: Breaker)

  function Step(r: Registry, e: Event): Registry {
    match e
    case Joins(addr, uuid, now) => Register(r, addr, uuid, now).0
    case Leaves(id, now) => Disconnect(r, id, now)
    case Purged(id) => Purge(r, id)
    case Configured(b) => Configure(r, b)
  }

  function Run(es: seq<Event>): Registry {
    if es == [] then EMPTY else Step(Run(es[..|es| - 1]), es[|es| - 1])
  }

  // --------------------------------------------------------------------------
  // What every run keeps
  // --------------------------------------------------------------------------

  predicate DeviceOk(r: Registry, id: int)
    requires id in r.devices
  {
    var d := r.devices[id];
    && 0 <= id < r.nextId
    && (d.stable != 0 ==> d.stable in r.uuidTo && r.uuidTo[d.stable] == id)
    && !(d.quarantined && d.connected)
  }

  ghost predicate Ok(r: Registry) {
    && (forall id | id in r.devices :: DeviceOk(r, id))
    && (forall u | u in r.uuidTo :: 0 <= r.uuidTo[u] < r.nextId)
    && (forall a | a in r.addrTo :: 0 <= r.addrTo[a] < r.nextId)
    && r.idTo.Keys == r.devices.Keys
    && r.breaker.threshold >= 1 && r.breaker.window >= 1 && r.breaker.quarantine >= 1
  }

  lemma {:induction false} StepOk(r: Registry, e: Event)
    requires Ok(r)
    ensures Ok(Step(r, e))
  {
    var r' := Step(r, e);
    forall id | id in r'.devices
      ensures DeviceOk(r', id)
    {
      DeviceKept(r, e, id);
    }
  }

  lemma {:induction false} DeviceKept(r: Registry, e: Event, id: int)
    requires Ok(r) && id in Step(r, e).devices
    ensures DeviceOk(Step(r, e), id)
  {
    assert id in r.devices ==> DeviceOk(r, id);
    match e
    case Joins(addr, uuid, now) =>
      if KnownUuid(r, uuid) {
        assert DeviceOk(r, r.uuidTo[uuid]);
      }
    case Purged(gone) => assert gone in r.devices ==> DeviceOk(r, gone);
    case _ =>
  }

  lemma {:induction false} RunOk(es: seq<Event>)
    ensures Ok(Run(es))
  {
    if es != [] {
      RunOk(es[..|es| - 1]);
      StepOk(Run(es[..|es| - 1]), es[|es| - 1]);
    }
  }

  /** In every run a nonzero stable uuid belongs to one live device, and resolves to it. */
  lemma {:induction false} StableUuidsUnique(es: seq<Event>, i: int, j: int)
    requires i in Run(es).devices && j in Run(es).devices
    requires Run(es).devices[i].stable == Run(es).devices[j].stable != 0
    ensures i == j && KnownUuid(Run(es), Run(es).devices[i].stable)
  {
    RunOk(es);
    assert DeviceOk(Run(es), i) && DeviceOk(Run(es), j);
  }

  // --------------------------------------------------------------------------
  // The address index
  // --------------------------------------------------------------------------

  /** An address resolves to a live device that stores that address. */
  predicate AddrOk(r: Registry, a: string)
    requires a in r.addrTo
  {
    r.addrTo[a] in r.devices && r.devices[r.addrTo[a]].addr == a
  }

  /** Every address resolves, and the index from ids to addresses says what the devices store. */
  ghost predicate Indexed(r: Registry) {
    && (forall a | a in r.addrTo :: AddrOk(r, a))
    && (forall id | id in r.devices :: id in r.idTo && r.idTo[id] == r.devices[id].addr)
  }

  /**
   A known device that is listed under the empty address comes back from another one: its old
   address is not taken out of the index.
   */
  predicate Strands(r: Registry, e: Event) {
    && e.Joins? && KnownUuid(r, e.uuid) && e.addr != ""
    && var id := r.uuidTo[e.uuid];
       && !Rejected(r.breaker, r.devices[id], e.now) && r.devices[id].addr == ""
       && "" in r.addrTo && r.addrTo[""] == id
  }

  lemma {:induction false} StrandedIsLost(r: Registry, e: Event)
    requires Strands(r, e)
    ensures "" in Step(r, e).addrTo && !AddrOk(Step(r, e), "")
  {
  }

  lemma {:induction false} AddressKept(r: Registry, e: Event, a: string)
    requires Ok(r) && Indexed(r) && !Strands(r, e) && a in Step(r, e).addrTo
    ensures AddrOk(Step(r, e), a)
  {
    assert a in r.addrTo ==> AddrOk(r, a);
    assert r.nextId in r.devices ==> DeviceOk(r, r.nextId);
  }

  lemma {:induction false} ListedKept(r: Registry, e: Event, id: int)
    requires Ok(r) && Indexed(r) && id in Step(r, e).devices
    ensures id in Step(r, e).idTo && Step(r, e).idTo[id] == Step(r, e).devices[id].addr
  {
    if e.Joins? && !KnownUuid(r, e.uuid) && e.addr in r.addrTo {
      assert AddrOk(r, e.addr);
    }
  }

  /** A step keeps the address index if and only if it is not such a return. */
  lemma {:induction false} IndexedExactly(r: Registry, e: Event)
    requires Ok(r) && Indexed(r)
    ensures Indexed(Step(r, e)) <==> !Strands(r, e)
  {
    if Strands(r, e) {
      StrandedIsLost(r, e);
    } else {
      forall a | a in Step(r, e).addrTo
        ensures AddrOk(Step(r, e), a)
      {
        AddressKept(r, e, a);
      }
      forall id | id in Step(r, e).devices
        ensures id in Step(r, e).idTo && Step(r, e).idTo[id] == Step(r, e).devices[id].addr
      {
        ListedKept(r, e, id);
      }
    }
  }

  /** The index is right after every step of a run if and only if no step of it is such a return. */
  lemma {:induction false} RunIndexedExactly(es: seq<Event>)
    ensures (forall n | 0 <= n <= |es| :: Indexed(Run(es[..n])))
       <==> (forall n | 0 <= n < |es| :: !Strands(Run(es[..n]), es[n]))
  {
    if forall n | 0 <= n <= |es| :: Indexed(Run(es[..n])) {
      forall n | 0 <= n < |es|
        ensures !Strands(Run(es[..n]), es[n])
      {
        RunNext(es, n);
        RunOk(es[..n]);
        assert Indexed(Run(es[..n])) && Indexed(Run(es[..n + 1]));
        IndexedExactly(Run(es[..n]), es[n]);
      }
    } else if forall n | 0 <= n < |es| :: !Strands(Run(es[..n]), es[n]) {
      forall n | 0 <= n <= |es|
        ensures Indexed(Run(es[..n]))
      {
        IndexedUpTo(es, n);
      }
    }
  }

  lemma {:induction false} RunNext(es: seq<Event>, n: nat)
    requires n < |es|
    ensures Run(es[..n + 1]) == Step(Run(es[..n]), es[n])
  {
    var fs := es[..n + 1];
    assert fs[..|fs| - 1] == es[..n] && fs[|fs| - 1] == es[n];
  }

  lemma {:induction false} IndexedUpTo(es: seq<Event>, n: nat)
    requires n <= |es| && forall i | 0 <= i < |es| :: !Strands(Run(es[..i]), es[i])
    ensures Indexed(Run(es[..n]))
  {
    if n > 0 {
      IndexedUpTo(es, n - 1);
      RunNext(es, n - 1);
      RunOk(es[..n - 1]);
      IndexedExactly(Run(es[..n - 1]), es[n - 1]);
    } else {
      assert es[..0] == [];
    }
  }

  /** No device both has a uuid and joins from the empty address. */
  predicate Named(e: Event) {
    e.Joins? && e.addr == "" ==> e.uuid == 0
  }

  /** A device that a uuid resolves to is listed under an address. */
  ghost predicate UuidsAddressed(r: Registry) {
    forall u | KnownUuid(r, u) :: r.devices[r.uuidTo[u]].addr != ""
  }

  lemma {:induction false} StepAddressed(r: Registry, e: Event)
    requires Ok(r) && Indexed(r) && UuidsAddressed(r) && Named(e)
    ensures UuidsAddressed(Step(r, e))
  {
    forall u | KnownUuid(Step(r, e), u)
      ensures Step(r, e).devices[Step(r, e).uuidTo[u]].addr != ""
    {
      UuidAddressed(r, e, u);
    }
  }

  lemma {:induction false} UuidAddressed(r: Registry, e: Event, u: nat)
    requires Ok(r) && Indexed(r) && UuidsAddressed(r) && Named(e) && KnownUuid(Step(r, e), u)
    ensures Step(r, e).devices[Step(r, e).uuidTo[u]].addr != ""
  {
    if KnownUuid(r, u) && e.Joins? && e.addr in r.addrTo {
      assert AddrOk(r, e.addr);
    }
  }

  /** Then the index is right in every run. */
  lemma {:induction false} NamedRunIndexed(es: seq<Event>)
    requires forall i | 0 <= i < |es| :: Named(es[i])
    ensures Indexed(Run(es)) && UuidsAddressed(Run(es))
  {
    if es != [] {
      var m := |es| - 1;
      NamedRunIndexed(es[..m]);
      RunOk(es[..m]);
      IndexedExactly(Run(es[..m]), es[m]);
      StepAddressed(Run(es[..m]), es[m]);
    }
  }

  /** The shortest run that loses the index. */
  lemma {:induction false} EmptyAddressLingers()
    ensures var r := Run([Joins("", 7, 0), Joins("a", 7, 0)]);
            "" in r.addrTo && !AddrOk(r, "")
  {
    var e0, e1 := Joins("", 7, 0), Joins("a", 7, 0);
    assert [e0, e1][..1] == [e0] && [e0][..0] == [];
    assert Run([e0]) == Step(EMPTY, e0);
    assert Run([e0, e1]) == Step(Run([e0]), e1);
  }

  // --------------------------------------------------------------------------
  // Ids are never reused
  // --------------------------------------------------------------------------

  /** A device appears only under the next id, which then moves on. */
  lemma {:induction false} OnlyNextAppears(r: Registry, e: Event, id: int)
    ensures id in Step(r, e).devices && id !in r.devices ==> id == r.nextId && Step(r, e).nextId == r.nextId + 1
  {
  }

  lemma {:induction false} NextIdGrows(r: Registry, e: Event)
    ensures Step(r, e).nextId >= r.nextId
  {
  }

  lemma {:induction false} StaysGone(r: Registry, e: Event, id: int)
    requires id < r.nextId && id !in r.devices
    ensures id < Step(r, e).nextId && id !in Step(r, e).devices
  {
    NextIdGrows(r, e);
    OnlyNextAppears(r, e, id);
  }

  /** An id that was given out and is gone never comes back. */
  lemma {:induction false} NeverReused(es: seq<Event>, n: nat, id: int)
    requires n <= |es|
    requires id < Run(es[..n]).nextId && id !in Run(es[..n]).devices
    ensures id < Run(es).nextId && id !in Run(es).devices
  {
    if n < |es| {
      var m := |es| - 1;
      assert es[..m][..n] == es[..n];
      NeverReused(es[..m], n, id);
      StaysGone(Run(es[..m]), es[m], id);
    } else {
      assert es[..n] == es;
    }
  }

  // --------------------------------------------------------------------------
  // Why a device is quarantined
  // --------------------------------------------------------------------------

  predicate Timed(e: Event) {
    e.Joins? || e.Leaves?
  }

  /** The last clock reading in a run. */
  function Clock(es: seq<Event>): nat {
    if es == [] then 0
    else
      var e := es[|es| - 1];
      if Timed(e) then e.now else Clock(es[..|es| - 1])
  }

  /** The clock never goes back. */
  ghost predicate Steady(es: seq<Event>) {
    forall n | 0 <= n < |es| && Timed(es[n]) :: Clock(es[..n]) <= es[n].now
  }

  /** How many disconnect calls on a device a run holds from a moment on. */
  function CallsSince(es: seq<Event>, id: int, from: nat): nat {
    if es == [] then 0
    else
      var e := es[|es| - 1];
      CallsSince(es[..|es| - 1], id, from) + (if e.Leaves? && e.id == id && e.now >= from then 1 else 0)
  }

  /** A device's failure count is backed by that many disconnect calls since its first failure. */
  ghost predicate Backed(es: seq<Event>, id: int)
    requires id in Run(es).devices
  {
    var d := Run(es).devices[id];
    d.failures > 0 ==> d.firstFailure <= Clock(es) && d.failures <= CallsSince(es, id, d.firstFailure)
  }

  /** What a step can do to a device that was there: keep or clear its failures, or count a disconnect call. */
  lemma {:induction false} StepFailures(r: Registry, e: Event, id: int)
    requires id in Step(r, e).devices && Ok(r)
    ensures var d' := Step(r, e).devices[id];
            || d'.failures == 0
            || (id in r.devices && d'.failures == r.devices[id].failures
               && d'.firstFailure == r.devices[id].firstFailure
                && (d'.quarantined ==> r.devices[id].quarantined))
            || (id in r.devices && r.breaker.enabled && e.Leaves? && e.id == id
                && d' == Failed(r.breaker, r.devices[id].(connected := false), e.now))
  {
  }

  lemma {:induction false} FailuresBacked(es: seq<Event>, id: int)
    requires Steady(es) && id in Run(es).devices
    ensures Backed(es, id)
  {
    if es != [] {
      var m := |es| - 1;
      var before, e := es[..m], es[m];
      RunOk(before);
      StepFailures(Run(before), e, id);
      if id in Run(before).devices {
        assert forall n | 0 <= n < m :: before[..n] == es[..n];
        FailuresBacked(before, id);
      }
      assert Timed(e) ==> Clock(before) <= e.now;
    }
  }

  /**
   A device's quarantine starts only with a disconnect call that completes, within one
   window, at least the threshold number of disconnect calls.
   */
  lemma {:induction false} QuarantineNeedsFailures(es: seq<Event>, e: Event, id: int)
    requires Steady(es + [e]) && id in Run(es + [e]).devices && Run(es + [e]).devices[id].quarantined
    requires id in Run(es).devices ==> !Run(es).devices[id].quarantined
    ensures e.Leaves? && e.id == id
    ensures var d := Run(es + [e]).devices[id];
            && CallsSince(es + [e], id, d.firstFailure) >= Run(es).breaker.threshold
            && Seconds(d.firstFailure, e.now) <= Run(es).breaker.window
  {
    assert (es + [e])[..|es|] == es;
    RunOk(es);
    QuarantineStep(Run(es), e, id);
    FailuresBacked(es + [e], id);
  }

  lemma {:induction false} QuarantineStep(r: Registry, e: Event, id: int)
    requires Ok(r) && id in Step(r, e).devices && Step(r, e).devices[id].quarantined
    requires id in r.devices ==> !r.devices[id].quarantined
    ensures e.Leaves? && e.id == id
    ensures var d := Step(r, e).devices[id];
            d.failures >= r.breaker.threshold >= 1 && Seconds(d.firstFailure, e.now) <= r.breaker.window
  {
  }
}
