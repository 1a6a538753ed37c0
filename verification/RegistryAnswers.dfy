/** What a caller of the registry gets: the id, the connection, the quarantine. */
module RegistryAnswers {
  import opened Registry

  // --------------------------------------------------------------------------
  // The answer to a device that joins
  // --------------------------------------------------------------------------

  /** A device sits in its quarantine: fewer nanoseconds have passed than the quarantine lasts. */
  predicate InQuarantine(r: Registry, id: int, now: nat)
    requires id in r.devices
  {
    r.devices[id].quarantined && now < r.devices[id].quarantinedAt + r.breaker.quarantine * SECOND
  }

  /** The device that the uuid names, or else the address, is in quarantine. */
  predicate Refused(r: Registry, addr: string, uuid: nat, now: nat) {
    if KnownUuid(r, uuid) then InQuarantine(r, r.uuidTo[uuid], now)
    else addr in r.addrTo && r.addrTo[addr] in r.devices && InQuarantine(r, r.addrTo[addr], now)
  }

  /** Only the address is known, and the device it led to is gone. */
  predicate Stale(r: Registry, addr: string, uuid: nat) {
    !KnownUuid(r, uuid) && addr in r.addrTo && r.addrTo[addr] !in r.devices
  }

  /** The id names a connected device that the address and the uuid resolve to. */
  ghost predicate Admitted(r: Registry, id: int, addr: string, uuid: nat) {
    && id in r.devices
    && var d := r.devices[id];
    && d.connected && !d.quarantined && d.addr == addr
    && addr in r.addrTo && r.addrTo[addr] == id
    && (uuid != 0 ==> d.stable == uuid && uuid in r.uuidTo && r.uuidTo[uuid] == id)
  }

  /** No other device changes. */
  ghost predicate OthersSame(r: Registry, r': Registry, id: int) {
    && r'.devices.Keys == r.devices.Keys + {id}
    && (forall j | j in r.devices && j != id :: r'.devices[j] == r.devices[j])
  }

  /** A device that was known keeps its uuid unless it is given one, and its failures unless a quarantine ended. */
  ghost predicate History(d: Device, d': Device, uuid: nat) {
    && (uuid == 0 ==> d'.stable == d.stable)
    && d'.failures == (if d.quarantined then 0 else d.failures)
    && d'.firstFailure == d.firstFailure
  }

  lemma {:induction false} WholeSeconds(since: nat, now: nat, n: int)
    requires n >= 1
    ensures Seconds(since, now) < n <==> now < since + n * SECOND
  {
    if now >= since {
      var x := now - since;
      assert x == x / SECOND * SECOND + x % SECOND;
      if x / SECOND < n {
        assert x / SECOND * SECOND <= (n - 1) * SECOND;
      }
    }
  }

  lemma {:induction false} RefusedIsRejected(r: Registry, id: int, now: nat)
    requires Ok(r) && id in r.devices
    ensures Rejected(r.breaker, r.devices[id], now) <==> InQuarantine(r, id, now)
  {
    WholeSeconds(r.devices[id].quarantinedAt, now, r.breaker.quarantine);
  }

  /** The id of a device that is let in: the one its uuid had, or its address, or the next. */
  function IdFor(r: Registry, addr: string, uuid: nat): int {
    if KnownUuid(r, uuid) then r.uuidTo[uuid]
    else if addr in r.addrTo then r.addrTo[addr]
    else r.nextId
  }

  lemma {:induction false} KnownAnswer(r: Registry, addr: string, uuid: nat, now: nat)
    requires Ok(r) && IdFor(r, addr, uuid) in r.devices
    ensures var id := IdFor(r, addr, uuid);
            var (r', answer) := Register(r, addr, uuid, now);
            && (Refused(r, addr, uuid, now) ==> answer == -1 && r' == r)
            && (!Refused(r, addr, uuid, now) ==>
                  answer == id && Admitted(r', id, addr, uuid) && OthersSame(r, r', id)
                  && History(r.devices[id], r'.devices[id], uuid))
  {
    var id := IdFor(r, addr, uuid);
    assert DeviceOk(r, id);
    RefusedIsRejected(r, id, now);
  }

  /**
   The answer in every reachable registry: -1 exactly for a device in quarantine, the old id without a
   device exactly for a stale address, and else the id of a device now connected under that address and uuid.
   */
  lemma {:induction false} RegisterAnswers(es: seq<Event>, addr: string, uuid: nat, now: nat)
    ensures var r := Run(es);
            var (r', id) := Register(r, addr, uuid, now);
            && (id == -1 <==> Refused(r, addr, uuid, now))
            && (id != -1 && id !in r'.devices <==> Stale(r, addr, uuid))
            && (Refused(r, addr, uuid, now) || Stale(r, addr, uuid) ==> r' == r)
            && (id in r'.devices ==>
                  id == IdFor(r, addr, uuid) && Admitted(r', id, addr, uuid) && OthersSame(r, r', id)
                  && (id in r.devices ==> History(r.devices[id], r'.devices[id], uuid)))
  {
    var r := Run(es);
    RunOk(es);
    var id := IdFor(r, addr, uuid);
    if id in r.devices {
      assert DeviceOk(r, id);
      KnownAnswer(r, addr, uuid, now);
      assert -1 in r.devices ==> DeviceOk(r, -1);
    } else {
      assert r.nextId in r.devices ==> DeviceOk(r, r.nextId);
      assert -1 in r.devices ==> DeviceOk(r, -1);
    }
  }

  /** While the address index is right no address is stale. */
  lemma {:induction false} IndexedIsNotStale(r: Registry, addr: string, uuid: nat)
    requires Indexed(r)
    ensures !Stale(r, addr, uuid)
  {
    assert addr in r.addrTo ==> AddrOk(r, addr);
  }

  /** The shortest run to a stale address: a device returns from the empty address and is purged. */
  lemma {:induction false} StaleHappens()
    ensures Stale(Run([Joins("", 7, 0), Joins("a", 7, 0), Purged(0)]), "", 0)
  {
    var e0, e1, e2 := Joins("", 7, 0), Joins("a", 7, 0), Purged(0);
    assert [e0, e1, e2][..2] == [e0, e1] && [e0, e1][..1] == [e0] && [e0][..0] == [];
    assert Run([e0]) == Step(EMPTY, e0);
    assert Run([e0, e1]) == Step(Run([e0]), e1);
    assert Run([e0, e1, e2]) == Step(Run([e0, e1]), e2);
  }

  // --------------------------------------------------------------------------
  // Who is connected
  // --------------------------------------------------------------------------

  /** The last thing said about a device is that it joined, not that it left. */
  function Up(es: seq<Event>, id: int): bool {
    if es == [] then false
    else
      var before, e := es[..|es| - 1], es[|es| - 1];
      if e.Joins? && Register(Run(before), e.addr, e.uuid, e.now).1 == id then true
      else if e.Leaves? && e.id == id then false
      else Up(before, id)
  }

  lemma {:induction false} StepConnected(es: seq<Event>, e: Event, id: int)
    requires id in Step(Run(es), e).devices
    ensures var r, r' := Run(es), Step(Run(es), e);
            if e.Joins? && Register(r, e.addr, e.uuid, e.now).1 == id then r'.devices[id].connected
            else if e.Leaves? && e.id == id then !r'.devices[id].connected
            else id in r.devices && r'.devices[id].connected == r.devices[id].connected
  {
    if e.Joins? {
      RegisterAnswers(es, e.addr, e.uuid, e.now);
      RunOk(es);
    }
  }

  /** In every run a device is connected exactly if it joined and has not left since. */
  lemma {:induction false} ConnectedExactly(es: seq<Event>, id: int)
    requires id in Run(es).devices
    ensures Run(es).devices[id].connected <==> Up(es, id)
  {
    if es != [] {
      var before, e := es[..|es| - 1], es[|es| - 1];
      StepConnected(before, e, id);
      if id in Run(before).devices {
        ConnectedExactly(before, id);
      }
    }
  }

  // --------------------------------------------------------------------------
  // Enough failures quarantine a device
  // --------------------------------------------------------------------------

  /** Disconnect calls on one device, one after another. */
  function Calls(r: Registry, id: int, times: seq<nat>): (r': Registry)
    ensures r'.breaker == r.breaker && r'.devices.Keys == r.devices.Keys
  {
    if times == [] then r else Disconnect(Calls(r, id, times[..|times| - 1]), id, times[|times| - 1])
  }

  /** All calls come within one window of the first, to the second. */
  predicate OneWindow(b: Breaker, times: seq<nat>) {
    forall i | 0 <= i < |times| :: times[i] < times[0] + (b.window + 1) * SECOND
  }

  /** From a clean record: each call in the window counts once, and the threshold's call starts the quarantine. */
  lemma {:induction false} EnoughFailuresQuarantine(r: Registry, id: int, times: seq<nat>)
    requires Ok(r) && r.breaker.enabled && id in r.devices && OneWindow(r.breaker, times)
    requires r.devices[id].failures == 0 && !r.devices[id].quarantined
    ensures var d := Calls(r, id, times).devices[id];
            && d.failures == |times|
            && (times != [] ==> d.firstFailure == times[0] && !d.connected)
            && (d.quarantined <==> |times| >= r.breaker.threshold)
            && (d.quarantined ==> d.quarantinedAt == times[|times| - 1])
  {
    if times != [] {
      var n := |times| - 1;
      var before := times[..n];
      assert forall i | 0 <= i < n :: before[i] == times[i];
      assert OneWindow(r.breaker, before) by {
        forall i | 0 <= i < |before|
          ensures before[i] < before[0] + (r.breaker.window + 1) * SECOND
        {
          assert times[i] < times[0] + (r.breaker.window + 1) * SECOND;
        }
      }
      EnoughFailuresQuarantine(r, id, before);
      WholeSeconds(times[0], times[n], r.breaker.window + 1);
      WholeSeconds(times[n], times[n], r.breaker.window + 1);
    }
  }

  /** A call after the window starts a new count, at one. */
  lemma {:induction false} LateCallStartsOver(r: Registry, id: int, now: nat)
    requires Ok(r) && r.breaker.enabled && id in r.devices && r.devices[id].failures > 0
    requires now >= r.devices[id].firstFailure + (r.breaker.window + 1) * SECOND
    ensures var d := Disconnect(r, id, now).devices[id];
            d.failures == 1 && d.firstFailure == now && (d.quarantined <== r.breaker.threshold == 1)
  {
    WholeSeconds(r.devices[id].firstFailure, now, r.breaker.window + 1);
  }

  /** A setting below one becomes one, every other is taken as given, and no device is touched. */
  lemma {:induction false} ConfiguredAs(r: Registry, b: Breaker)
    ensures var b' := Configure(r, b).breaker;
            && b'.enabled == b.enabled
            && b'.threshold >= 1 && (b.threshold >= 1 ==> b'.threshold == b.threshold)
            && b'.window >= 1 && (b.window >= 1 ==> b'.window == b.window)
            && b'.quarantine >= 1 && (b.quarantine >= 1 ==> b'.quarantine == b.quarantine)
            && (b.threshold < 1 ==> b'.threshold == 1) && (b.window < 1 ==> b'.window == 1)
            && (b.quarantine < 1 ==> b'.quarantine == 1)
            && Configure(r, b).(breaker := r.breaker) == r
  {
  }

  /** A purged device is gone from every index, and no other device is touched. */
  lemma {:induction false} PurgeForgets(r: Registry, id: int, j: int)
    requires Ok(r) && id in r.devices && j in r.devices && j != id
    ensures var r', d := Purge(r, id), r.devices[id];
            && id !in r'.devices && id !in r'.idTo && d.addr !in r'.addrTo && !KnownUuid(r', d.stable)
            && j in r'.devices && r'.devices[j] == r.devices[j]
            && (r.devices[j].stable != 0 ==> KnownUuid(r', r.devices[j].stable))
  {
    assert DeviceOk(r, id) && DeviceOk(r, j);
  }
}
