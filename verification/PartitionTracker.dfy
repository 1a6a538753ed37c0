/** The tracker as it runs: containers updated in place, one method call at a time. */
module PartitionTracking {
  import opened Sequences
  import opened Keys
  import opened Tracker

  class PartitionTracker {
    var heap: seq<Info>
    var partitionsSet: set<nat>
    var partitionMap: map<Key, nat>
    var devicePartitions: map<int, seq<nat>>
    var partitionToDevice: map<Key, int>

    function State(): Tracker
      reads this
    {
      Tracker(heap, partitionsSet, partitionMap, devicePartitions, partitionToDevice)
    }

    /** Shared pointers never dangle. */
    ghost predicate Valid()
      reads this
    {
      Wf(State())
    }

    constructor ()
      ensures Valid() && State() == EMPTY
    {
      heap, partitionsSet, partitionMap, devicePartitions, partitionToDevice := [], {}, map[], map[], map[];
    }

    method AddPartition(deviceId: int, key: Key, oid: int, devId: int)
      requires Valid()
      modifies this
      ensures Valid() && State() == Add(old(State()), deviceId, key, oid, devId)
    {
      var info := |heap|;
      heap := heap + [Info(key, oid, deviceId, Idle, devId)];
      devicePartitions := devicePartitions[deviceId := ListAt(devicePartitions, deviceId) + [info]];
      partitionsSet := partitionsSet + {info};
      partitionMap := partitionMap[key := info];
      partitionToDevice := partitionToDevice[key := deviceId];
    }

    /** find_if over one device list. */
    method Find(parts: seq<nat>, key: Key) returns (i: nat)
      requires Valid() && Within(parts, |heap|)
      ensures i == FindKey(heap, parts, key)
    {
      i := 0;
      while i < |parts| && heap[parts[i]].key != key
        invariant i <= |parts|
        invariant FindKey(heap, parts, key) == i + FindKey(heap, parts[i..], key)
      {
        assert parts[i..][1..] == parts[i + 1..];
        i := i + 1;
      }
    }

    method RemovePartition(deviceId: int, key: Key)
      requires Valid()
      modifies this
      ensures Valid() && State() == Remove(old(State()), deviceId, key)
    {
      if deviceId in devicePartitions {
        var parts := devicePartitions[deviceId];
        var i := Find(parts, key);
        if i != |parts| {
          partitionsSet := partitionsSet - {parts[i]};
          partitionMap := partitionMap - {key};
          partitionToDevice := partitionToDevice - {key};
          EraseAt(deviceId, i);
        }
      }
    }

    /** Erases entry i of a device list, and the list with its last entry. */
    method EraseAt(deviceId: int, i: nat)
      requires Valid() && deviceId in devicePartitions && i < |devicePartitions[deviceId]|
      modifies this`devicePartitions
      ensures Valid()
      ensures devicePartitions == SetList(old(devicePartitions), deviceId, DropAt(old(devicePartitions)[deviceId], i))
    {
      var parts := DropAt(devicePartitions[deviceId], i);
      if parts == [] {
        devicePartitions := devicePartitions - {deviceId};
      } else {
        devicePartitions := devicePartitions[deviceId := parts];
      }
    }

    method RemovePartitionByKey(key: Key)
      requires Valid()
      modifies this
      ensures Valid() && State() == RemoveByKey(old(State()), key)
    {
      if key !in partitionToDevice {
        return;
      }
      var deviceId := partitionToDevice[key];
      partitionToDevice := partitionToDevice - {key};
      if key in partitionMap {
        partitionsSet := partitionsSet - {partitionMap[key]};
        partitionMap := partitionMap - {key};
      }
      if deviceId in devicePartitions {
        var parts := devicePartitions[deviceId];
        var i := Find(parts, key);
        if i != |parts| {
          EraseAt(deviceId, i);
        }
      }
    }

    /** remove_if over one device list. */
    method RemoveIf(parts: seq<nat>, key: Key) returns (kept: seq<nat>)
      requires Valid() && Within(parts, |heap|)
      ensures kept == Without(heap, parts, key)
    {
      kept := [];
      var i := 0;
      while i < |parts|
        invariant i <= |parts|
        invariant Within(parts[i..], |heap|)
        invariant Without(heap, parts, key) == kept + Without(heap, parts[i..], key)
      {
        assert parts[i..][1..] == parts[i + 1..];
        if heap[parts[i]].key != key {
          kept := kept + [parts[i]];
        }
        i := i + 1;
      }
    }

    /** Takes the key off the list its reverse index names. */
    method TakeOff(key: Key)
      requires Valid()
      modifies this`devicePartitions
      ensures Valid() && devicePartitions == Detach(old(State()), key)
    {
      if key in partitionToDevice {
        var owner := partitionToDevice[key];
        if owner in devicePartitions {
          var kept := RemoveIf(devicePartitions[owner], key);
          devicePartitions := SetList(devicePartitions, owner, kept);
        }
      }
    }

    method ReassignPartitionToDevice(key: Key, target: int) returns (ok: bool)
      requires Valid()
      modifies this
      ensures Valid() && (State(), ok) == Reassign(old(State()), key, target)
    {
      if key !in partitionMap {
        return false;
      }
      var info := partitionMap[key];
      TakeOff(key);
      var kept := RemoveIf(ListAt(devicePartitions, target), key);
      devicePartitions := devicePartitions[target := kept + [info]];
      partitionToDevice := partitionToDevice[key := target];
      heap := heap[info := heap[info].(owner := target, devId := target)];
      return true;
    }

    /** Walks a list, moving records from one state to another in place. */
    method RestateList(parts: seq<nat>, from: PartitionState, to: PartitionState, orphan: bool)
      requires Valid() && Within(parts, |heap|) && from != to
      modifies this`heap
      ensures Valid() && heap == Restate(old(heap), Elements(parts), from, to, orphan)
    {
      var i := 0;
      ghost var done: set<nat> := {};
      RestateNone(heap, from, to, orphan);
      while i < |parts|
        invariant i <= |parts| && Valid() && done == Elements(parts[..i])
        invariant heap == Restate(old(heap), done, from, to, orphan)
      {
        var p := parts[i];
        assert parts[..i + 1] == parts[..i] + [p];
        RestateNext(old(heap), done, p, from, to, orphan);
        if heap[p].state == from {
          heap := heap[p := heap[p].(state := to, owner := if orphan then -1 else heap[p].owner)];
        }
        done := done + {p};
        i := i + 1;
      }
      assert parts[..|parts|] == parts;
    }

    method MarkDevicePartitionsFailed(deviceId: int)
      requires Valid()
      modifies this
      ensures Valid() && State() == MarkDeviceFailed(old(State()), deviceId)
    {
      if deviceId in devicePartitions {
        RestateList(devicePartitions[deviceId], Running, Idle, true);
      }
    }

    method MarkDevicePartitionsRunning(deviceId: int)
      requires Valid()
      modifies this
      ensures Valid() && State() == MarkDeviceRunning(old(State()), deviceId)
    {
      if deviceId in devicePartitions {
        RestateList(devicePartitions[deviceId], Idle, Running, false);
      }
    }

    method MarkPartition(key: Key, s: PartitionState)
      requires Valid()
      modifies this
      ensures Valid() && State() == Mark(old(State()), key, s)
    {
      if key in partitionMap {
        var info := partitionMap[key];
        heap := heap[info := heap[info].(state := s)];
      }
    }

    /** Visits the set in whatever order it yields, claiming what is idle. */
    method ClaimIdlePartitions() returns (claimed: seq<nat>)
      requires Valid()
      modifies this
      ensures Valid() && State() == Claim(old(State()))
      ensures NoRepeat(claimed) && Elements(claimed) == IdleOnes(old(State()))
    {
      claimed := [];
      var rest := partitionsSet;
      ghost var seen: set<nat> := {};
      assert heap == Restate(heap, seen, Idle, Running, false);
      while rest != {}
        invariant rest + seen == partitionsSet && rest !! seen
        invariant heap == Restate(old(heap), seen, Idle, Running, false)
        invariant NoRepeat(claimed)
        invariant forall p :: p in claimed <==> p in seen && p < |old(heap)| && old(heap)[p].state == Idle
        invariant State() == old(State()).(heap := heap)
      {
        var p :| p in rest;
        rest := rest - {p};
        seen := seen + {p};
        if heap[p].state == Idle {
          heap := heap[p := heap[p].(state := Running)];
          claimed := claimed + [p];
        }
      }
      assert seen == partitionsSet;
    }

    method RedistributeFailedDevicePartitions(failed: int, mapping: map<Key, int>)
      requires Valid()
      modifies this
      ensures Valid() && State() == Redistribute(old(State()), failed, mapping)
    {
      if failed !in devicePartitions {
        return;
      }
      var moving := SelectIdle(devicePartitions[failed]);
      if moving == [] {
        return;
      }
      HandAllOver(moving, mapping);
      devicePartitions := devicePartitions - {failed};
    }

    method HandAllOver(moving: seq<nat>, mapping: map<Key, int>)
      requires Valid() && Within(moving, |heap|)
      modifies this
      ensures Valid() && State() == HandAll(old(State()), moving, mapping)
    {
      var i := 0;
      while i < |moving|
        invariant i <= |moving| && Within(moving, |heap|) && Valid()
        invariant HandAll(old(State()), moving, mapping) == HandAll(State(), moving[i..], mapping)
      {
        assert moving[i..][0] == moving[i] && moving[i..][1..] == moving[i + 1..];
        HandOver(moving[i], mapping);
        i := i + 1;
      }
    }

    /** Lists a record with the device it is mapped to, if any. */
    method HandOver(p: nat, mapping: map<Key, int>)
      requires Valid() && p < |heap|
      modifies this
      ensures Valid() && State() == Hand(old(State()), p, mapping)
    {
      var key := heap[p].key;
      if key in mapping {
        var target := mapping[key];
        heap := heap[p := heap[p].(owner := target, state := Idle)];
        devicePartitions := devicePartitions[target := ListAt(devicePartitions, target) + [p]];
        partitionToDevice := partitionToDevice[key := target];
      }
    }

    method SelectIdle(parts: seq<nat>) returns (moving: seq<nat>)
      requires Valid() && Within(parts, |heap|)
      ensures moving == IdleOf(heap, parts)
    {
      moving := [];
      var i := 0;
      while i < |parts|
        invariant i <= |parts|
        invariant IdleOf(heap, parts) == moving + IdleOf(heap, parts[i..])
      {
        assert parts[i..][1..] == parts[i + 1..];
        if heap[parts[i]].state == Idle {
          moving := moving + [parts[i]];
        }
        i := i + 1;
      }
    }
  }
}
