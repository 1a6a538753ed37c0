/** The registry as it runs: maps and device records updated in place. */
module DeviceTracking {
  import opened Registry

  class DeviceTracker {
    var devicesMap: map<int, Device>
    var addrToDeviceId: map<string, int>
    var deviceIdToAddr: map<int, string>
    var uuidToDeviceId: map<nat, int>
    var nextDeviceId: nat
    var breaker: Breaker

    function State(): Registry
      reads this
    {
      Registry(devicesMap, addrToDeviceId, deviceIdToAddr, uuidToDeviceId, nextDeviceId, breaker)
    }

    constructor ()
      ensures State() == EMPTY
    {
      devicesMap, addrToDeviceId, deviceIdToAddr, uuidToDeviceId := map[], map[], map[], map[];
      nextDeviceId, breaker := 0, DEFAULT_BREAKER;
    }

    method RegisterDevice(addr: string, uuid: nat, now: nat) returns (id: int)
      modifies this
      ensures (State(), id) == Register(old(State()), addr, uuid, now)
    {
      if uuid != 0 && uuid in uuidToDeviceId && uuidToDeviceId[uuid] in devicesMap {
        id := Reconnect(addr, uuid, now);
      } else if addr in addrToDeviceId {
        id := Rejoin(addr, uuid, now);
      } else {
        id := nextDeviceId;
        nextDeviceId := nextDeviceId + 1;
        addrToDeviceId := addrToDeviceId[addr := id];
        deviceIdToAddr := deviceIdToAddr[id := addr];
        if uuid != 0 {
          uuidToDeviceId := uuidToDeviceId[uuid := id];
        }
        devicesMap := devicesMap[id := Device(addr, true, uuid, 0, 0, false, 0)];
      }
    }

    /** Lets a device out of a quarantine that is over; false while it lasts. */
    method LeaveQuarantine(id: int, now: nat) returns (ok: bool)
      requires id in devicesMap
      modifies this`devicesMap
      ensures ok == !Rejected(breaker, old(devicesMap)[id], now)
      ensures devicesMap == if ok then old(devicesMap)[id := Readmitted(old(devicesMap)[id])] else old(devicesMap)
    {
      var device := devicesMap[id];
      assert devicesMap[id := device] == devicesMap;
      if device.quarantined {
        if Seconds(device.quarantinedAt, now) < breaker.quarantine {
          return false;
        }
        devicesMap := devicesMap[id := device.(quarantined := false, failures := 0)];
      }
      return true;
    }

    /** A known uuid: the device keeps its id and moves to the new address. */
    method Reconnect(addr: string, uuid: nat, now: nat) returns (id: int)
      requires uuid in uuidToDeviceId && uuidToDeviceId[uuid] in devicesMap
      modifies this
      ensures (State(), id) == ByUuid(old(State()), addr, uuid, now)
    {
      id := uuidToDeviceId[uuid];
      var ok := LeaveQuarantine(id, now);
      if !ok {
        return -1;
      }
      var oldAddr := devicesMap[id].addr;
      if oldAddr != "" && oldAddr != addr {
        addrToDeviceId := addrToDeviceId - {oldAddr};
      }
      devicesMap := devicesMap[id := devicesMap[id].(connected := true, addr := addr, stable := uuid)];
      assert devicesMap == old(devicesMap)[id := devicesMap[id]];
      uuidToDeviceId := uuidToDeviceId[uuid := id];
      assert uuidToDeviceId == old(uuidToDeviceId);
      addrToDeviceId := addrToDeviceId[addr := id];
      deviceIdToAddr := deviceIdToAddr[id := addr];
    }

    /** A known address. */
    method Rejoin(addr: string, uuid: nat, now: nat) returns (id: int)
      requires addr in addrToDeviceId
      modifies this
      ensures (State(), id) == ByAddr(old(State()), addr, uuid, now)
    {
      id := addrToDeviceId[addr];
      if id in devicesMap {
        var ok := LeaveQuarantine(id, now);
        if !ok {
          return -1;
        }
        devicesMap := devicesMap[id := devicesMap[id].(connected := true, addr := addr)];
        if uuid != 0 {
          devicesMap := devicesMap[id := devicesMap[id].(stable := uuid)];
          uuidToDeviceId := uuidToDeviceId[uuid := id];
        }
        assert devicesMap == old(devicesMap)[id := devicesMap[id]];
      }
    }

    method DisconnectDevice(id: int, now: nat)
      modifies this
      ensures State() == Disconnect(old(State()), id, now)
    {
      if id !in devicesMap {
        return;
      }
      var device := devicesMap[id].(connected := false);
      if breaker.enabled {
        if device.failures == 0 {
          device := device.(firstFailure := now);
        }
        device := device.(failures := device.failures + 1);
        if Seconds(device.firstFailure, now) > breaker.window {
          device := device.(failures := 1, firstFailure := now);
        }
        if device.failures >= breaker.threshold {
          device := device.(quarantined := true, quarantinedAt := now);
        }
      }
      devicesMap := devicesMap[id := device];
    }

    method PurgeDevice(id: int)
      modifies this
      ensures State() == Purge(old(State()), id)
    {
      if id !in devicesMap {
        return;
      }
      var device := devicesMap[id];
      addrToDeviceId := addrToDeviceId - {device.addr};
      deviceIdToAddr := deviceIdToAddr - {id};
      if device.stable != 0 {
        uuidToDeviceId := uuidToDeviceId - {device.stable};
      }
      devicesMap := devicesMap - {id};
    }

    method SetCircuitBreakerConfig(config: Breaker)
      modifies this
      ensures State() == Configure(old(State()), config)
    {
      breaker := config;
      if breaker.threshold < 1 {
        breaker := breaker.(threshold := 1);
      }
      if breaker.window < 1 {
        breaker := breaker.(window := 1);
      }
      if breaker.quarantine < 1 {
        breaker := breaker.(quarantine := 1);
      }
    }
  }
}
