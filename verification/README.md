# Morphling in Dafny

Morphling multiplies matrices on devices that come and go. A server cuts A·Bᵀ into tiles,
tracks which device works on which tile, sends requests, writes the replies into an output,
counts them down and wakes whoever waits for the product. This project models that core and
the parts around it, and proves what they promise over every input, every run or every
reachable state.

`dafny verify dfyconfig.toml` checks the whole project. Automatic induction is switched off
on every lemma, so each proof is its own body. Code that changes state step by step is a
class or a method with loops, proved against a specification function; the laws are then
proved about those functions and about runs of them.

## The main results

- **The wait returns the product.** In every run of dispatches, sweeps, replies, connects and
  closes, `WaitMatMul` on an id that a dispatch returned ends only with the whole A·Bᵀ in the
  output (`ProtocolRuns.WaitReturnsProduct`). The counter is exactly the number of tiles not
  yet written and counted, the underflow clamp never fires, and no tile is lost or in two
  places at once.
- **No dead end.** After every run, if one device is connected, there are further steps that
  complete every operation dispatched so far, with its product (`Progress.AlwaysCompletable`).
- **Any number of sweeps at a time.** Every event loop runs sweeps of its own. With what each sweep
  holds told apart, every guarded run of any number of sweeps is a run of the protocol
  (`Sweeps.RunSimulates`), so its waits return the product too.
- **Where the promise stops.** The guard on a close (no sweep holds a tile homed there) is exact for
  the invariant (`ProtocolInvariant.CloseExactly`, `CloseUnregisteredExactly`), and it is needed for
  the promise itself, whether the sweep has already assigned the tile or not: the close puts the
  tile back to idle, another sweep claims and sends it, the first sweep sends it again, it is
  counted twice, and the wait can end on an incomplete output (`CloseRace.HeldTileCountsTwice`,
  `OverlappingCloseFails`). Only a give-back that comes before any other sweep's claim avoids this
  (`CloseRace.GivenBackAfterClose`), and the code does not enforce that order.
- **The tiling is exact.** For every geometry, block size, ragged edge and arrival order, the
  column-major GEMM calls and the row copies give A·Bᵀ, each cell from exactly one tile, on
  tensors of any rank.
- **The tracker's four indexes mean one table** from keys to records after any sequence of its
  operations (`TrackerMeaning.RunMeans`); each operation keeps the indexes in agreement if and only
  if a condition on its arguments holds.
- **The measurement session** fires its callback at most once, ends well exactly when every entry
  of the product is accepted (`SessionVerdict.VerdictExactly`), reports the figures its round trips
  give, and the two orders of reply and reference are equivalent exactly when no reply is stashed
  yet.
- **Fast forms refine simple ones**: the byte-bounded cache, which evicts no more than it must, the
  device block cache, zero-copy serialization, stream framing, and block-wise priority I/O under the
  checkpoint store.
- **What callers get back** is told from their own calls: the id a registration answers, with the
  exact conditions of its two failures (`RegistryAnswers.RegisterAnswers`), what a greedy run charges
  (`GreedyCharges.ChargedForNewBlocks`), and what a histogram holds (`HistogramTotals`).
- **Promises that fail have their exact condition.** The registry's address index survives every
  step of a run if and only if no known device listed under the empty address returns from
  another one. The transfer scheduler runs on for ever if and only if no low-priority request
  without blocks was accepted, so a store of a tensor without bytes breaks it. The device drops a
  request if and only if two requests wait for one tile and only one of them can be completed.
  Against a reference of numbers, a verified product is close to it if and only if it holds no NaN.
- **Scheduling, percentiles, intervals**: load levelling is optimal, greedy placement meets its
  bound, percentile estimates are monotone exactly when the buckets end where the range ends (up
  to one truncated unit), and violation time is the measure of a union.

## How the modules fit

| part | modules |
|---|---|
| tiling | `Sequences`, `Nonlinear`, `Tiling`, `Shapes` |
| tile tracker | `Keys`, `Tracker`, `TrackerLaws`, `TrackerRuns`, `TrackerMeaning`, `TrackerView`, `PartitionTracking` |
| the protocol | `OperationId`, `Protocol`, `ProtocolInvariant`, `ProtocolSteps`, `ProtocolDispatch`, `ProtocolRuns`, `ProxySweep`, `Progress`, `Sweeps`, `CloseRace`, `ProxyServing` |
| counter records | `Sorting`, `CounterBalance`, `CounterLog` |
| measurement session | `Session`, `SessionLaws`, `SessionVerdict`, `MeasurementSessions` |
| device registry | `Registry`, `RegistryAnswers`, `DeviceTracking` |
| caches | `Lru`, `LruEviction`, `LruCaches`, `DeviceCache`, `DeviceRecency`, `DeviceBlocks`, `DeviceDrops`, `ProxyClient` |
| wire | `Bytes`, `Wire`, `WireRefusals`, `WireBuffers`, `Framing` |
| checkpoint | `Aio`, `AioLaws`, `AioOrder`, `Checkpoint`, `TensorHandles` |
| scheduling and statistics | `Scheduling`, `GreedyScheduling`, `GreedyCharges`, `Histogram`, `HistogramTotals`, `HistogramEstimates`, `HistogramBucketing`, `Intervals`, `Violations` |

## Premises

- Tensors are contiguous float32 with positive inner dimension; B is 2-D or has A's leading
  shape. Offsets count elements, not bytes. The element type and its dot product are
  parameters: tiles never split the inner dimension, so no sum is reassociated. All that is
  asked of them is `Lawful`: multiplying by one changes nothing and a dot product does not
  depend on operand order.
- Each dispatch uses a version of its own. A closed link delivers nothing.
- A close is one step, and it does not fall inside the handler of a reply from the same connection:
  both run on that connection's loop. In the protocol's runs no connection closes while a sweep
  holds a tile homed there (for an unregistered connection: homed at -1). The code does not ensure
  that; `CloseRace` shows what happens otherwise.
- No device with an open link is taken over by another connection with its UUID.
- `CheckFailedPartitions` is never scheduled (csrc/backend/proxy_svr.cpp:724-729), so
  `HandleDeviceFailure` is not a step.
- The clock does not run backwards. The breaker counts calls of `DisconnectDevice`; one lost
  connection makes two of them (csrc/backend/proxy_svr.cpp:655 and 756).
- Protobuf is an abstract invertible codec. The serialization laws carry the condition that null
  matrix pointers have size zero where it matters, and say so as an if-and-only-if.
- A checkpoint handle is fresh, has one file and one client thread beside the scheduler's.
- FLOPS, percentages and device times are reals. Entries of the measured product are numbers,
  infinities or NaN, and numbers are compared without rounding. Sizes and counters do not overflow
  64 bits.

Where code and comments disagree the code is followed: the header of the measurement session
says the callback always fires, but sequences without a FLOPS probe set DONE before `Finish`,
which then skips it (csrc/backend/device_measurement_session.cpp:252-253 and 292-293).

## Model

| member | source | states |
|---|---|---|
| `Tiling.ExactlyOneTile` | csrc/backend/matrix_partition.cpp:205-247 | every output cell is covered by one legal tile and by no other |
| `Tiling.TilesAreTheLegalOnes` | csrc/backend/matrix_partition.cpp:205-247 | the nested loops list exactly the legal tiles, each once |
| `Tiling.RowBlockInBounds` | csrc/backend/matrix_partition.cpp:155-203 | a tile's row block, ragged at the edge, lies inside A |
| `Tiling.ColBlockInBounds` | csrc/backend/matrix_partition.cpp:155-203 | a tile's column block lies inside B, also when one 2-D B serves every pivot |
| `Tiling.CalculateMatrixPartition` | csrc/backend/matrix_partition.cpp:155-203 | the cut blocks hold whole rows, as many as the clipped tile has lines |
| `Tiling.DeviceCallReady` | csrc/backend/proxy_cli.cpp:270-288 | the GEMM arguments built from two blocks stay inside the three buffers, whatever the buffer held |
| `Tiling.DeviceBlockEntry` | csrc/backend/proxy_cli.cpp:270-288 | the column-major, transposed, swapped-operand call gives row-major entry (i, j) = row i of the row block · row j of the column block |
| `Tiling.TileAnswerIsResult` | csrc/backend/proxy_cli.cpp:352-390 | a device's answer to a tile is that tile of the reference product, ragged edges included |
| `Tiling.IndexPutMatrixBlock` | csrc/backend/matrix_partition.cpp:30-61 | the row-by-row copy loop makes the target what the cell-wise specification says, and touches nothing else |
| `Tiling.PutTileCell` | csrc/backend/matrix_partition.cpp:30-61 | after a write-back a covered cell holds the product's entry and every other cell its old value |
| `Tiling.PutTileDone` | csrc/backend/matrix_partition.cpp:30-61 | writing one tile completes it and undoes no other |
| `Tiling.AnswerHeight` | csrc/backend/proxy_svr.cpp:415-417 | a tile's height is its length divided by the width sent with it |
| `Tiling.AllTilesDone` | csrc/backend/matrix_partition.cpp:30-247 | an output with every tile in place is the product |
| `Tiling.ProductUnique` | csrc/backend/matrix_partition.cpp:63-99 | the reference product leaves no cell free |
| `Tiling.TiledProduct` | csrc/backend/matrix_partition.cpp:30-247 | for every geometry, block size and order of arrivals (repeats allowed) that covers all tiles, cut, compute and write back give A·Bᵀ |
| `Shapes.CartesianProduct` | csrc/backend/server_base.h:42-69 | the loops list every index vector of the shape once, in row-major order; the empty list gives nothing |
| `Shapes.EnumeratesAll` | csrc/backend/server_base.h:42-69 | such a list holds every index vector at its row-major position and nowhere else |
| `Shapes.PartitionMatrices` | csrc/backend/matrix_partition.cpp:205-247 | the loops over rows, columns and pivots yield the blocks of exactly the geometry's tiles, in order |
| `Shapes.TensorsAreOperands` | csrc/backend/matrix_partition.cpp:205-220 | compatible contiguous tensors are operands of the flattened geometry |
| `Shapes.OutputFitsGeometry` | csrc/backend/matrix_partition.cpp:63-99 | the output is refused exactly when leading shapes differ, and otherwise has A's leading shape, A's rows and B's rows as its last two dimensions, and as many elements as the geometry has cells |
| `Shapes.ProductOfTensors` | csrc/backend/matrix_partition.cpp:30-247 | a flat product is the batched product: element [v, i, j] of C is row [v, i] of A · row j of the B it multiplies |
| `Keys.RenderInjective` | csrc/backend/server_base.h:156-160 | two tiles with the same partition key string are the same tile |
| `TrackerLaws.AddAgrees` | csrc/backend/partition_tracker.cpp:19-34 | adding keeps the four indexes in agreement if and only if the key is new |
| `TrackerLaws.RemoveAgrees` | csrc/backend/partition_tracker.cpp:36-62 | removal from a device keeps agreement and drops the key exactly when it lives there |
| `TrackerLaws.RemoveByKeyAgrees` | csrc/backend/partition_tracker.cpp:64-107 | removal by key keeps agreement and drops that key only |
| `TrackerLaws.ReassignAgrees` | csrc/backend/partition_tracker.cpp:109-148 | reassignment keeps agreement, succeeds exactly for tracked keys and moves that key only |
| `TrackerLaws.MarkAgrees` | csrc/backend/partition_tracker.cpp:177-235 | marking one tile keeps agreement |
| `TrackerLaws.RestateAgrees` | csrc/backend/partition_tracker.cpp:150-175 | changing the states of any tiles keeps agreement |
| `TrackerLaws.ClearDeviceAgrees` | csrc/backend/partition_tracker.cpp:411-429 | clearing a device keeps agreement and drops exactly the keys homed there |
| `TrackerLaws.UnsafeStrands` | csrc/backend/partition_tracker.cpp:336-409 | redistribution outside its safe case leaves the indexes in disagreement |
| `TrackerLaws.RedistributeAgrees` | csrc/backend/partition_tracker.cpp:336-409 | redistribution keeps agreement if and only if the failed device has no idle tile (then nothing moves), or all its tiles are idle, mapped, and mapped elsewhere |
| `TrackerRuns.ApplyAgrees` | csrc/backend/partition_tracker.cpp:19-429 | any tracker operation keeps agreement if and only if its own condition holds |
| `TrackerRuns.RunAgrees` | csrc/backend/partition_tracker.cpp:19-429 | the indexes agree in every state of every run of permitted operations |
| `TrackerRuns.RunListsOnce` | csrc/backend/partition_tracker.cpp:19-429 | in every run a tracked key sits once, in the list its reverse index names, and in no other |
| `TrackerRuns.ClaimTakesIdle` | csrc/backend/partition_tracker.cpp:294-305 | a claim takes exactly the idle tiles, sets them running and changes nothing else |
| `TrackerRuns.RedistributeKeepsStates` | csrc/backend/partition_tracker.cpp:336-409 | redistribution makes no tile idle |
| `TrackerRuns.OnlyPutsBack` | csrc/backend/partition_tracker.cpp:19-429 | a tile becomes idle only through the operations that put it back |
| `TrackerRuns.FailedTouchesOwn` | csrc/backend/partition_tracker.cpp:150-175 | failing a device leaves tiles homed elsewhere as they were |
| `TrackerRuns.MarkTouchesOne` | csrc/backend/partition_tracker.cpp:177-235 | marking a tile leaves every other tile as it was |
| `TrackerRuns.ClaimsAreExclusive` | csrc/backend/partition_tracker.cpp:294-305 | two claims in a run share a key only if a step in between put it back to idle |
| `TrackerMeaning.ApplyChanges` | csrc/backend/partition_tracker.cpp:19-429 | every operation on agreeing indexes is one plain change of a table from keys to records (operation, owner, state, device id, home), redistribution outside its safe case included |
| `TrackerMeaning.RunMeans` | csrc/backend/partition_tracker.cpp:19-429 | in every state of every permitted run the four indexes mean the table those changes make |
| `TrackerMeaning.ReassignChanges` | csrc/backend/partition_tracker.cpp:109-148 | reassignment changes owner, device id and home of that key alone, and reports whether the key was in the table |
| `TrackerMeaning.RedistributeChanges` | csrc/backend/partition_tracker.cpp:336-409 | redistribution moves exactly the idle records homed at the failed device that have a new one, and keeps their device id |
| `PartitionTracking.PartitionTracker.AddPartition` | csrc/backend/partition_tracker.cpp:19-34 | the whole new state |
| `PartitionTracking.PartitionTracker.RemovePartition` | csrc/backend/partition_tracker.cpp:36-62 | the whole new state, through a search loop over the device's list |
| `PartitionTracking.PartitionTracker.RemovePartitionByKey` | csrc/backend/partition_tracker.cpp:64-107 | the whole new state |
| `PartitionTracking.PartitionTracker.ReassignPartitionToDevice` | csrc/backend/partition_tracker.cpp:109-148 | the whole new state and the returned flag |
| `PartitionTracking.PartitionTracker.MarkDevicePartitionsFailed` | csrc/backend/partition_tracker.cpp:150-175 | running tiles of the device become idle and ownerless, in a loop over its list |
| `PartitionTracking.PartitionTracker.MarkPartition` | csrc/backend/partition_tracker.cpp:177-235 | the four single-tile marks, ignored for unknown keys |
| `PartitionTracking.PartitionTracker.MarkDevicePartitionsRunning` | csrc/backend/partition_tracker.cpp:237-255 | idle tiles of the device become running |
| `PartitionTracking.PartitionTracker.ClaimIdlePartitions` | csrc/backend/partition_tracker.cpp:294-305 | returns each idle tile once and sets exactly those running |
| `PartitionTracking.PartitionTracker.RedistributeFailedDevicePartitions` | csrc/backend/partition_tracker.cpp:336-409 | the whole new state, unmapped tiles included, and no dangling record, in the unsafe case as well |
| `OperationId.PerformConsistent` | csrc/backend/operation_id.h:20-29 | each atomic access of each caller's loop keeps ids dense, held once, and exhausted only at the limit |
| `OperationId.IdsUnique` | csrc/backend/operation_id.h:20-29 | under every interleaving of the compare-and-swap loops, spurious failures included, no id is handed out twice |
| `OperationId.RetryExactly` | csrc/backend/operation_id.h:20-29 | under every interleaving a caller goes round again only after a spurious failure or because an id was handed out since it looked; otherwise it returns the next id, or -1 when there is none |
| `OperationId.AloneReturns` | csrc/backend/operation_id.h:20-29 | from every reachable state a caller left alone returns after at most two exchanges |
| `ProtocolDispatch.DispatchInv` | csrc/backend/proxy_svr.cpp:844-884 | a dispatch keeps the protocol invariant |
| `ProtocolDispatch.AddTileInv` | csrc/backend/proxy_svr.cpp:889-907 | tracking one tile of a dispatch keeps it, with other threads in between |
| `ProtocolInvariant.ClaimInv` | csrc/backend/proxy_svr.cpp:1052-1058 | a sweep's claim keeps it |
| `ProtocolInvariant.AssignInv` | csrc/backend/proxy_svr.cpp:1079-1090 | assigning a claimed tile keeps it |
| `ProtocolInvariant.SendInv` | csrc/backend/proxy_svr.cpp:1096-1113 | sending a claimed tile on an open link keeps it |
| `ProtocolInvariant.ReleaseInv` | csrc/backend/proxy_svr.cpp:1066-1107 | giving a claimed tile back keeps it |
| `ProtocolSteps.ComputeInv` | csrc/backend/proxy_cli.cpp:352-390 | a device turning a request into a reply keeps it |
| `ProtocolSteps.DeliverInv` | csrc/backend/proxy_svr.cpp:415-428 | writing a reply's block keeps it |
| `ProtocolSteps.RetireInv` | csrc/backend/proxy_svr.cpp:489-490 | taking the tile off the tracker keeps it |
| `ProtocolSteps.CountInv` | csrc/backend/proxy_svr.cpp:940-955 | counting the tile keeps it, and finds a positive count |
| `ProtocolInvariant.CloseInv` | csrc/backend/proxy_svr.cpp:623-657 | a close that meets no claimed tile and no half-handled reply keeps it |
| `ProtocolInvariant.ReclaimableBreaks` | csrc/backend/proxy_svr.cpp:646-648 | putting a claimed tile back to idle breaks the invariant |
| `ProtocolInvariant.HalfHandledBreaks` | csrc/backend/proxy_svr.cpp:646-648 | so does closing inside the handler of a reply |
| `ProtocolInvariant.CloseExactly` | csrc/backend/proxy_svr.cpp:623-657 | closing a registered device keeps the invariant if and only if no claimed tile is homed there and no reply from it is half handled |
| `ProtocolInvariant.CloseUnregisteredExactly` | csrc/backend/proxy_svr.cpp:632-648 | closing an unregistered connection keeps it if and only if no claimed tile is still homed at -1 |
| `ProtocolRuns.StepInv` | csrc/backend/proxy_svr.cpp:355-1117 | every step of the protocol keeps the invariant |
| `ProtocolRuns.RunInv` | csrc/backend/proxy_svr.cpp:355-1117 | the invariant holds in every reachable state |
| `ProtocolRuns.WaitReturnsProduct` | csrc/backend/proxy_svr.cpp:844-955 | in every run, a wait on a returned id ends only with the whole A·Bᵀ in its output |
| `ProtocolRuns.WaitOnUnusedId` | csrc/backend/proxy_svr.cpp:922-931 | a wait on an id no dispatch returned ends at once: the promise is for returned ids |
| `ProtocolRuns.ClampNeverFires` | csrc/backend/proxy_svr.cpp:940-955 | in every run a decrement finds a positive counter |
| `ProtocolRuns.CounterIsPending` | csrc/backend/proxy_svr.cpp:844-955 | in every run a counter is the number of the operation's tiles not yet written and counted |
| `ProtocolRuns.NoTileLost` | csrc/backend/proxy_svr.cpp:623-657 | in every run an unfinished tile is idle with no message anywhere, or has exactly one request or reply, on the open link its reverse index names, or is in one thread's hands; a finished one is in the output |
| `Sweeps.MoveSimulates` | csrc/backend/proxy_svr.cpp:1052-1117 | with several sweeps at a time, each holding pointers to the records it claimed and reading the owner off the shared record when it sends, every guarded move is a step of the protocol, and no two sweeps hold the same tile |
| `Sweeps.RunSimulates` | csrc/backend/proxy_svr.cpp:1052-1117 | every guarded run of any number of sweeps is a run of the protocol |
| `Sweeps.WaitReturnsProduct` | csrc/backend/proxy_svr.cpp:922-931 | so in every such run a wait on a returned id ends only with the whole A·Bᵀ |
| `Progress.CanAnswer` | csrc/backend/proxy_cli.cpp:270-390 | every request of a tile has an answer, whatever the device's buffer held |
| `Progress.CanComplete` | csrc/backend/proxy_svr.cpp:355-1117 | from any reachable state with a connected device, an operation with a positive count has steps that complete one tile and change no other count |
| `Progress.AlwaysCompletable` | csrc/backend/proxy_svr.cpp:355-1117 | after every run, with one device connected, further steps complete every dispatched operation with its product |
| `CloseRace.HeldTileCountsTwice` | csrc/backend/proxy_svr.cpp:623-657 | from every state in which a sweep holds a tile, assigned or not, homed at a connection that closes, with another device connected, the sweeps' own later moves can take two off the count while writing that tile only |
| `CloseRace.WaitEndsEarly` | csrc/backend/proxy_svr.cpp:922-931 | with two tiles to go, the wait then ends on an output that is not the product |
| `CloseRace.OverlappingCloseFails` | csrc/backend/proxy_svr.cpp:632-648 | such a run exists from the initial state for every two-tile operation, both with the tile assigned to the device that closes and with an unassigned tile and an unregistered connection |
| `CloseRace.TwoTileOperation` | csrc/backend/matrix_partition.cpp:205-247 | and such operations exist, over any element type |
| `CloseRace.GivenBackAfterClose` | csrc/backend/proxy_svr.cpp:1096-1108 | if all held tiles homed at a closing device are given back before anything else happens, in particular before any other sweep claims, the invariant is restored |
| `ProxyServing.ProxyServer.DispatchMatMulAsync` | csrc/backend/proxy_svr.cpp:844-920 | dispatching is a run of protocol steps; -1 exactly when ids ran out or there are no tiles, and a returned id is one a wait may use |
| `ProxyServing.ProxyServer.SendIdlePartitions` | csrc/backend/proxy_svr.cpp:1052-1117 | a sweep, also one that starts while others hold tiles, is a run of protocol steps that keeps none of the tiles it claimed: every idle tile is on its target's open link or idle again, for any assignment a policy returns, and the tiles others hold are untouched |
| `ProxyServing.ProxyServer.SendInLoop` | csrc/backend/proxy_svr.cpp:511-612 | the request put on the link carries the tile's blocks |
| `ProxyServing.ProxyServer.HandleMatMul` | csrc/backend/proxy_svr.cpp:355-495 | handling a reply is write, retire, count, in that order |
| `ProxyServing.ProxyServer.WriteResultBlock` | csrc/backend/proxy_svr.cpp:933-938 | the output changes in the tile's cells only, the height being recovered from the length |
| `ProxyServing.ProxyServer.IncRspCbCount` | csrc/backend/proxy_svr.cpp:940-955 | the clamped decrement and its log record |
| `ProxyServing.ProxyServer.ConnectionClosed` | csrc/backend/proxy_svr.cpp:623-657 | for every close, registered or not and whatever sweeps hold: the whole new state; the invariant is kept if and only if no sweep holds a tile homed there and no reply from there is half handled, and then it is a protocol step |
| `ProxyServing.ProxyServer.WaitMatMul` | csrc/backend/proxy_svr.cpp:922-931 | for every id: refused out of range, waiting while the count is positive, the empty tensor every id starts with if no dispatch took it, and otherwise the whole product |
| `CounterBalance.ResponseCountersAreBalanced` | scripts/multi_coordinator_scaling_analysis.py:52-66 | true exactly when every record is a single step and each operation's previous values are 1..n, each once, with at least one record |
| `CounterLog.RunLog` | csrc/backend/proxy_svr.cpp:940-955 | in every run an operation's records count down from its tile count to its current count |
| `CounterLog.DecrementExactly` | csrc/backend/proxy_svr.cpp:940-955 | a decrement takes its count off, or all there is, touches no other counter and logs what it did |
| `CounterLog.CompletedRunIsBalanced` | scripts/multi_coordinator_scaling_analysis.py:52-66 | the records of any run whose operations (at least one) have all completed pass the balance check |
| `SessionLaws.TerminalAbsorbs` | csrc/backend/device_measurement_session.cpp:363-386 | no event leaves a terminal phase or fires the callback there |
| `SessionLaws.StaleChangesNothing` | csrc/backend/device_measurement_session.cpp:225-361 | a reply that does not parse, has another id or comes in another phase changes nothing |
| `SessionLaws.IdsGrow` | csrc/backend/device_measurement_session.cpp:104-223 | probe ids only grow along a run |
| `SessionLaws.LateReplyIsStale` | csrc/backend/device_measurement_session.cpp:225-361 | in every run a reply to an earlier probe changes nothing once a later probe is pending |
| `SessionLaws.RunGood` | csrc/backend/device_measurement_session.cpp:71-403 | in every run the answered probes are the enabled ones in order, up to the pending one, and timer, stash and reference agree with the phase |
| `SessionLaws.CallbackAtMostOnce` | csrc/backend/device_measurement_session.cpp:363-378 | the callback fires at most once, and only in a terminal phase |
| `SessionLaws.CallbackExactlyOnce` | csrc/backend/device_measurement_session.cpp:252-378 | in a terminal phase it has fired exactly once, except for DONE after probes none of which is FLOPS, where it has not fired |
| `SessionLaws.DoneMeansAnswered` | csrc/backend/device_measurement_session.cpp:225-378 | DONE means every enabled probe was answered in order and FLOPS verified; the callback's flag says DONE |
| `SessionLaws.TimerOrReference` | csrc/backend/device_measurement_session.cpp:298-403 | a pending session with a timeout has its timer armed or waits for the reference with a reply stashed |
| `SessionLaws.EitherOrder` | csrc/backend/device_measurement_session.cpp:146-361 | reference then reply and reply then reference reach the same state, measured FLOPS and verdict |
| `SessionLaws.SecondReplyMatters` | csrc/backend/device_measurement_session.cpp:298-361 | with a reply stashed, a second reply makes the order matter: DONE one way, FAILED the other |
| `SessionLaws.OrderIrrelevantExactly` | csrc/backend/device_measurement_session.cpp:146-361 | in every run the order is irrelevant if and only if no FLOPS reply is stashed |
| `SessionLaws.OrderDoesNotShow` | csrc/backend/device_measurement_session.cpp:146-361 | nor does it show in anything that happens afterwards |
| `SessionLaws.VerifiedExactly` | csrc/backend/device_measurement_session.cpp:343-354 | against a reference of numbers, a product passes if and only if it has its size and each entry is a number within tolerance or a NaN |
| `SessionLaws.NaNsPass` | csrc/backend/device_measurement_session.cpp:343-360 | a reply of NaNs ends the session verified, whatever the reference is |
| `SessionVerdict.VerdictExactly` | csrc/backend/device_measurement_session.cpp:193-209 | in every run, where a reference and a product meet, whichever comes last, the session ends DONE, with the profile verified and the callback told so, if and only if their sizes agree and for each entry one of the two is a NaN, or they differ by no more than tolerance + tolerance·abs(expected), or the expected one is infinite (which only a negative tolerance refuses); otherwise it ends FAILED |
| `SessionVerdict.DoneMeansAccepted` | csrc/backend/device_measurement_session.cpp:146-361 | with FLOPS asked for, every run that is DONE had an event at which a reference and a product met and every entry was accepted |
| `SessionVerdict.WrongSizeFails` | csrc/backend/device_measurement_session.cpp:325-331 | in every run a FLOPS reply of another size fails the session |
| `SessionVerdict.PhaseExactly` | csrc/backend/device_measurement_session.cpp:71-296 | in every run a start or an echo reply leads to the next probe asked for, to DONE when there is none, and to FAILED exactly for a second start, a failed send or a reference that fails at once |
| `SessionVerdict.EndExactly` | csrc/backend/device_measurement_session.cpp:298-386 | in every run the other events end a session exactly at a verdict, a wrong size, a failed reference or a timeout |
| `SessionVerdict.EchoFigures` | csrc/backend/device_measurement_session.cpp:225-288 | in every run the latency is half the round trip of the latency reply taken, and the bandwidth, both ways, is the payload over the net time of the bandwidth reply taken, each without its fraction; zero before |
| `SessionVerdict.FlopsFigure` | csrc/backend/device_measurement_session.cpp:318-357 | in every run that is DONE the FLOPS figure is 2·dim³ over the net time of the reply that was judged, without its fraction |
| `SessionVerdict.LastGivenIsCalled` | csrc/backend/device_measurement_session.cpp:71-378 | the callback called is the one given to the last start, with the outcome, the phase and the profile at the end |
| `SessionVerdict.TimerLeftExactly` | csrc/backend/device_measurement_session.cpp:146-223 | a session ends with its timer running if and only if its reference failed while the FLOPS probe was being launched and the send succeeded |
| `MeasurementSessions.MeasurementSession.Begin` | csrc/backend/device_measurement_session.cpp:71-102 | the whole new state, a second start and an empty configuration included |
| `MeasurementSessions.MeasurementSession.OnProbeLatencyResponse` | csrc/backend/device_measurement_session.cpp:225-256 | the whole new state; true exactly when the probe was answered |
| `MeasurementSessions.MeasurementSession.OnProbeBandwidthResponse` | csrc/backend/device_measurement_session.cpp:258-296 | the whole new state; true exactly when the probe was answered |
| `MeasurementSessions.MeasurementSession.Verify` | csrc/backend/device_measurement_session.cpp:343-354 | the comparison loop accepts exactly when sizes agree and no entry exceeds its tolerance, as floating-point comparison decides for numbers, infinities and NaN |
| `MeasurementSessions.MeasurementSession.OnProbeFlopsResponse` | csrc/backend/device_measurement_session.cpp:298-361 | the whole new state, stashing when the reference is outstanding; the verdict entry by entry is `SessionVerdict.VerdictExactly` |
| `MeasurementSessions.MeasurementSession.ReferenceDone` | csrc/backend/device_measurement_session.cpp:146-223 | the whole new state when the reference arrives or fails; the verdict entry by entry is `SessionVerdict.VerdictExactly` |
| `MeasurementSessions.MeasurementSession.TimerFired` | csrc/backend/device_measurement_session.cpp:380-386 | the whole new state |
| `Lru.Overflow` | csrc/core/lru.h:78-88 | evicts the shortest oldest prefix that makes room, or everything |
| `Lru.PutOk` | csrc/core/lru.h:64-94 | a put keeps keys distinct and the byte limit, unless the one entry left is itself too large, and holds the new entry; what it evicts is `LruEviction.PutEvictsLeast` |
| `Lru.TouchOk` | csrc/core/lru.h:96-106 | a get keeps both and loses nothing |
| `Lru.RunOk` | csrc/core/lru.h:56-122 | in every run, entries held plus values given to the deleter are exactly the values stored |
| `Lru.HoldsMostRecent` | csrc/core/lru.h:56-122 | in every run the cache holds the most recently used keys, in order of use |
| `Lru.CapHoldsMostRecent` | csrc/core/lru.h:10-54 | the capacity-bounded cache holds exactly the last used keys, as many as fit |
| `LruCaches.FixSizeLruCache.Put` | csrc/core/lru.h:64-94 | list, map and byte count refine the recency-ordered sequence through replacement, eviction loop and insertion; what it evicts is `LruEviction.PutEvictsLeast` |
| `LruCaches.FixSizeLruCache.Evict` | csrc/core/lru.h:78-88 | the eviction loop drops the shortest oldest prefix and calls the deleter once for each entry |
| `LruCaches.FixSizeLruCache.Get` | csrc/core/lru.h:96-106 | found exactly when held, with its value; a hit moves the entry to the back |
| `LruCaches.FixCapLruCache.Put` | csrc/core/lru.h:15-30 | refines the capacity-bounded sequence |
| `LruCaches.FixCapLruCache.Get` | csrc/core/lru.h:32-42 | found exactly when held, with its value; a hit moves the entry to the back |
| `LruEviction.PutEvictsLeast` | csrc/core/lru.h:65-94 | a put replaces its key's entry and evicts the oldest others, where keeping any evicted one together with everything newer would exceed the limit; when all fit nothing is evicted |
| `LruEviction.RunEvictsLeast` | csrc/core/lru.h:65-94 | so does every store of every run |
| `LruEviction.HoldsLastStored` | csrc/core/lru.h:65-94 | in every run each entry of the byte-bounded cache is the last one stored for its key |
| `LruEviction.CapHoldsLastStored` | csrc/core/lru.h:15-30 | in every run each entry of the capacity-bounded cache is the last one stored for its key |
| `DeviceBlocks.BlocksByKey` | csrc/backend/matrix_partition.cpp:155-203 | tiles of one operation with the same row (column) have the same row (column) block, and none is empty |
| `DeviceBlocks.BlocksOfTile` | csrc/backend/server_base.h:140-146 | every tile's blocks are functions of its row key and its column key alone, over all operations in flight |
| `DeviceCache.RunOk` | csrc/backend/proxy_cli.cpp:791-1012 | for every order of requests, omissions and evictions, cached blocks and blocks given to GEMM are those assigned to their keys, and no request waits with both its blocks cached |
| `DeviceBlocks.RunAsCut` | csrc/backend/proxy_cli.cpp:791-1012 | with requests for tiles of any operations, every request given to GEMM carries the very partition the server's tiling cut for its tile, whatever was omitted or evicted |
| `DeviceCache.AtMostOnce` | csrc/backend/proxy_cli.cpp:791-877 | each request reaches GEMM or the waiting list at most once, never both |
| `DeviceCache.OnlyArrivals` | csrc/backend/proxy_cli.cpp:791-877 | nothing is computed that did not arrive |
| `DeviceCache.NoneDropped` | csrc/backend/proxy_cli.cpp:791-877 | if partition keys differ, every request was computed or still waits |
| `DeviceCache.NoneDroppedExactly` | csrc/backend/proxy_cli.cpp:849-877 | in every run, every request was computed once or still waits if and only if no request found two waiting for one tile of which only one could be completed |
| `DeviceRecency.DeviceIsLru` | csrc/backend/proxy_cli.cpp:791-1005 | for every list of requests the device's cache is the byte-bounded LRU cache of these operations: each request stores the unknown blocks it brings at four bytes an entry and uses its two blocks, and then every waiting request uses its own |
| `DeviceRecency.DeviceHoldsMostRecent` | csrc/backend/proxy_cli.cpp:791-1005 | so it keeps its limit, holds the most recently used blocks, and for each key the last one stored |
| `DeviceDrops.RepeatedKeyDrops` | csrc/backend/proxy_cli.cpp:869-876 | a run of five requests in which one is erased by its key without having been computed |
| `ProxyClient.ProxyCli.Store` | csrc/backend/proxy_cli.cpp:906-966 | the whole new cache; known keys, empty blocks and non-positive inner dimensions are skipped |
| `ProxyClient.ProxyCli.FillPartition` | csrc/backend/proxy_cli.cpp:968-1005 | a cached block replaces whatever the request carries, other blocks stay, and only used keys become recent |
| `ProxyClient.ProxyCli.CheckCachedPartition` | csrc/backend/proxy_cli.cpp:849-877 | the loop computes exactly the waiting requests that became complete, in order, and keeps the rest |
| `ProxyClient.ProxyCli.Handle` | csrc/backend/proxy_cli.cpp:791-847 | the whole new state for one arriving request |
| `Wire.PackedSize` | csrc/backend/matrix_partition.cpp:330-501 | the copied matrix bytes fill the announced size if and only if null pointers have size zero |
| `Wire.ZeroCopyIsCopying` | csrc/backend/matrix_partition.cpp:848-918 | the zero-copy segments joined are the copying serializer's buffer if and only if null pointers have size zero |
| `Wire.PrefixIsLength` | csrc/backend/matrix_partition.cpp:330-501 | the big-endian prefix is the length of what follows it |
| `Wire.SpansFollow` | csrc/backend/matrix_partition.cpp:503-592 | the reader's matrix spans are consecutive and fill the tensor part |
| `Wire.RoundTrip` | csrc/backend/matrix_partition.cpp:503-592 | reading a written frame recovers every field and every matrix, within the reader's limits |
| `WireRefusals.ParseExactly` | csrc/backend/matrix_partition.cpp:503-592 | the reader's answer on every buffer with a header: a message size of zero or above 100 MiB, a matrix size above 1 GiB, sizes beyond the buffer, an unreadable message or another kind of message is refused, in that order; otherwise the fields and the matrices one behind the other |
| `WireRefusals.EveryBufferIsWritten` | csrc/backend/matrix_partition.cpp:503-592 | every buffer of sixteen bytes and more has such a header, with sizes that fit its fields |
| `WireRefusals.TooSmallExactly` | csrc/backend/matrix_partition.cpp:503-592 | a buffer is refused as too small if and only if it has fewer than sixteen bytes |
| `WireBuffers.SerializeProto` | csrc/backend/matrix_partition.cpp:330-501 | the buffer writes produce the frame |
| `WireBuffers.SerializeZeroCopy` | csrc/backend/matrix_partition.cpp:848-918 | the segment list joined is the frame |
| `WireBuffers.DeserializeProto` | csrc/backend/matrix_partition.cpp:503-592 | agrees with the parser on every buffer, each refusal included |
| `WireBuffers.SerializationBuffer.WriteUInt32` | csrc/backend/serialization_buffer.cpp:101-107 | appends the value in network or host order |
| `WireBuffers.SerializationBuffer.ReadUInt32` | csrc/backend/serialization_buffer.cpp:136-141 | reads back the value at the offset and moves past it |
| `WireBuffers.ScatterGatherBuffer.GetTotalSize` | csrc/backend/scatter_gather_buffer.cpp:43-49 | the loop adds up to the length of the joined segments |
| `Bytes.BigRoundTrip` | csrc/backend/serialization_buffer.cpp:101-141 | a value that fits is recovered from its network-order bytes |
| `Framing.CutSound` | csrc/backend/proxy_svr.cpp:107-145 | the receive loop takes off whole frames and leaves an incomplete one |
| `Framing.SplittingDoesNotMatter` | csrc/backend/proxy_svr.cpp:107-145 | what is dispatched and kept depends only on the bytes so far, not on how they arrived |
| `Framing.DispatchesWholeFrames` | csrc/backend/proxy_svr.cpp:107-145 | at every moment exactly the whole frames received are dispatched, in order, and a proper prefix of the next is kept |
| `Framing.DispatchesAll` | csrc/backend/proxy_svr.cpp:107-145 | once the stream has arrived, exactly its frames were dispatched and nothing is left |
| `Framing.StreamRoundTrip` | csrc/backend/proxy_svr.cpp:107-204 | a stream of serialized partitions, split anyhow, is dispatched and parsed back to the partitions |
| `Framing.Connection.RequestCb` | csrc/backend/proxy_svr.cpp:107-145 | the peek, compare, drain loop does what the cut says, and ends as the buffer shrinks |
| `Registry.RunOk` | csrc/backend/device_tracker.cpp:54-255 | in every run ids stay below the next one, a device's UUID resolves to it, both id indexes have the same keys, the breaker's values are at least one and a quarantined device is not connected |
| `Registry.StableUuidsUnique` | csrc/backend/device_tracker.cpp:54-171 | in every run a nonzero UUID belongs to one live device and resolves to it |
| `Registry.IndexedExactly` | csrc/backend/device_tracker.cpp:54-255 | a step keeps every address resolving to a live device that stores it, and every id's address current, if and only if it is not the return, from another address, of a known device listed under the empty one |
| `Registry.RunIndexedExactly` | csrc/backend/device_tracker.cpp:54-255 | the address index is right after every step of a run if and only if no step of it is such a return |
| `Registry.NamedRunIndexed` | csrc/backend/device_tracker.cpp:54-171 | so it is right in every run in which nobody joins with a UUID from the empty address |
| `Registry.EmptyAddressLingers` | csrc/backend/device_tracker.cpp:78-81 | the shortest run that loses it |
| `Registry.NeverReused` | csrc/backend/device_tracker.cpp:52-240 | in every run an id that is gone never comes back |
| `Registry.FailuresBacked` | csrc/backend/device_tracker.cpp:177-212 | in every run a device's failure count is backed by as many disconnect calls since the window opened |
| `Registry.QuarantineNeedsFailures` | csrc/backend/device_tracker.cpp:177-212 | quarantine starts only at a disconnect call, with at least the threshold of calls within one window |
| `RegistryAnswers.RegisterAnswers` | csrc/backend/device_tracker.cpp:54-171 | in every run registration answers -1 if and only if the device that the UUID names, or else the address, is in quarantine; an id without a device if and only if only the address is known and its device is gone; and otherwise the id its UUID had, or its address, or the next, of a device now connected, at that address, with that UUID, to which both resolve, with no other device changed |
| `RegistryAnswers.IndexedIsNotStale` | csrc/backend/device_tracker.cpp:100-140 | while the address index is right no address is stale |
| `RegistryAnswers.StaleHappens` | csrc/backend/device_tracker.cpp:78-240 | the shortest run to a stale address |
| `RegistryAnswers.ConnectedExactly` | csrc/backend/device_tracker.cpp:54-212 | in every run a device is connected if and only if it joined and has not been disconnected since |
| `RegistryAnswers.EnoughFailuresQuarantine` | csrc/backend/device_tracker.cpp:177-212 | from a clean record, disconnect calls within one window count one each, and the quarantine starts with the call that reaches the threshold |
| `RegistryAnswers.LateCallStartsOver` | csrc/backend/device_tracker.cpp:177-212 | a call after the window starts the count anew |
| `RegistryAnswers.PurgeForgets` | csrc/backend/device_tracker.cpp:214-240 | a purge takes the device out of every index it is named in and touches no other device |
| `RegistryAnswers.ConfiguredAs` | csrc/backend/device_tracker.cpp:242-255 | each setting is taken as given, or one if it is below one, and nothing else changes |
| `DeviceTracking.DeviceTracker.RegisterDevice` | csrc/backend/device_tracker.cpp:54-171 | the whole new state and the id, for a known UUID, a known address and a newcomer; what the id means is `RegistryAnswers.RegisterAnswers` |
| `DeviceTracking.DeviceTracker.DisconnectDevice` | csrc/backend/device_tracker.cpp:177-212 | the whole new state, window and threshold included |
| `DeviceTracking.DeviceTracker.PurgeDevice` | csrc/backend/device_tracker.cpp:214-240 | the whole new state |
| `DeviceTracking.DeviceTracker.SetCircuitBreakerConfig` | csrc/backend/device_tracker.cpp:242-255 | the whole new state, each value raised to at least one |
| `Scheduling.LeastFirstIsLevel` | csrc/backend/sched_policy.cpp:237-282 | whoever received work ends at most one above the least loaded |
| `Scheduling.LeastFirstIsBest` | csrc/backend/sched_policy.cpp:237-282 | no assignment of as many tiles has a smaller maximum load |
| `Scheduling.RedistributeByLoad` | csrc/backend/sched_policy.cpp:237-282 | the loops always choose a least loaded device and keep the loads current |
| `Scheduling.RedistributeInTurn` | csrc/backend/sched_policy.cpp:64-91 | shares differ by at most one |
| `GreedyScheduling.PlaceEven` | csrc/backend/sched_policy.cpp:127-165 | placing a tile where it finishes first keeps device times within one uncached tile cost |
| `GreedyScheduling.GreedyBound` | csrc/backend/sched_policy.cpp:97-172 | every device's time is the sum of its charges and at most the average plus the largest uncached tile cost |
| `GreedyScheduling.FindEarliest` | csrc/backend/sched_policy.cpp:127-158 | the loop finds a device that finishes the tile first, cached blocks costing nothing; the times it compares are those of `GreedyCharges.ChosenIsDoneFirst` |
| `GreedyScheduling.AssignPartitionsToDevices` | csrc/backend/sched_policy.cpp:97-172 | every choice of the loop is a device that finishes first at that moment; no device, no assignment; what each is charged is `GreedyCharges.ChargedForNewBlocks` |
| `GreedyCharges.ChargedForNewBlocks` | csrc/backend/sched_policy.cpp:127-165 | in every assignment the n-th charge goes to the n-th choice and is the largest of the upload time, the compute time, and the bytes of those of the tile's two blocks that no earlier tile placed on that device used, over a megabyte |
| `GreedyCharges.HeldExactly` | csrc/backend/sched_policy.cpp:134-139 | a device holds a block if and only if an earlier tile placed on it used that block |
| `GreedyCharges.ChosenIsDoneFirst` | csrc/backend/sched_policy.cpp:127-165 | in every greedy assignment each tile goes to the first device that is done with it earliest, counting the prices paid there so far and the blocks not yet sent there |
| `Histogram.IdxInside` | csrc/core/stats.cpp:166-199 | a value in range falls in the bucket whose bounds hold it |
| `Histogram.AddedOk` | csrc/core/stats.cpp:26-52 | adding keeps each bucket's sum between its bounds times its count; the totals are `HistogramTotals.BucketTotals` |
| `HistogramTotals.BucketTotals` | csrc/core/stats.cpp:26-52 | after any list of values each bucket's count and sum are the weight and the weighted sum of the values meant for it: below the range, from its end on, or in the bucket's span |
| `HistogramTotals.MeantOnce` | csrc/core/stats.cpp:166-199 | a value is meant for exactly one bucket, the one the index computes |
| `HistogramTotals.WholeWeight` | csrc/core/stats.cpp:26-52 | after any list of values the overall count is their whole weight, and the buckets' counts add up to it |
| `HistogramTotals.Extremes` | csrc/core/stats.cpp:26-52 | after any list of 64-bit values the extremes are those of the values, and the sentinels of an empty one |
| `Histogram.NoFallBack` | csrc/core/stats.cpp:81-131 | the fallback and the saturating branches of the estimate are unreachable |
| `Histogram.ReachedIsSelected` | csrc/core/stats.cpp:133-164 | for percentiles from zero on, the first bucket whose running share exceeds the percentile is the one it selects |
| `Histogram.EstimateInRange` | csrc/core/stats.cpp:81-131 | an estimate lies in the selected bucket's interpolation range |
| `HistogramEstimates.AvgExactly` | csrc/core/stats.h:23-26 | a bucket's average is its sum over its count, cut off toward zero |
| `HistogramEstimates.EstimateExactly` | csrc/core/stats.cpp:81-131 | the estimate is, cut off toward zero, the point at that percentile on the line from the range's low end to the average over the first half of the bucket's share, and from the average to the high end over the second |
| `Histogram.EstimateMono` | csrc/core/stats.cpp:81-164 | estimates grow with the percentile when the buckets end where the range ends, up to one truncated unit |
| `Histogram.NotTightIsNotMono` | csrc/core/stats.cpp:81-164 | for every other configuration two values make a later percentile's estimate smaller |
| `Histogram.MonotoneExactlyWhenTight` | csrc/core/stats.cpp:10-164 | a configuration's estimates are always monotone if and only if its buckets end where its range ends (the bucket size divides the range), or one unit later, where truncation hides it (the end then being positive) |
| `HistogramBucketing.HistogramBuckets.AddValue` | csrc/core/stats.cpp:26-52 | the whole new state; over any list of values: `HistogramTotals.BucketTotals` |
| `HistogramBucketing.HistogramBuckets.GetPercentileBucketIdx` | csrc/core/stats.cpp:133-164 | the cumulative loop finds the bucket of every percentile below one, with its percentile bounds, and runs past the last bucket from one on |
| `HistogramBucketing.HistogramBuckets.GetPercentileEstimate` | csrc/core/stats.cpp:81-131 | the estimate of the bucket found; zero when empty; a read past the last bucket if and only if there are values and the percentile is one or more |
| `Intervals.MeasureUnion` | scripts/analyze_violations.py:270-302 | sort, merge and add up give the number of time points in at least one interval |
| `Intervals.MergeSorted` | scripts/analyze_violations.py:288-302 | the merge leaves disjoint intervals in order that cover the same points |
| `Violations.Bisect` | scripts/analyze_violations.py:202-217 | the bisection loop finds the insertion point the recursive definition gives |
| `Violations.SlotOfMeans` | scripts/analyze_violations.py:202-217 | a call belongs to the last slot that starts no later than it |
| `Violations.AssignGemmsToSteps` | scripts/analyze_violations.py:202-217 | each slot gets exactly its calls, in order |
| `Violations.DetectViolations` | scripts/analyze_violations.py:219-268 | one summary for each pair of consecutive slots over the limit with late calls, with the late calls, count, largest and total overshoot |
| `Violations.SummaryMeans` | scripts/analyze_violations.py:219-268 | every summary is that of two consecutive slots over the limit: it lists each call that starts in the first and ends past the start of the second, as often as it was made, with their number, the sum of their overshoots and the largest one |
| `Violations.SummaryGiven` | scripts/analyze_violations.py:219-268 | every such pair with such a call has a summary |
| `Violations.CoveredExactly` | scripts/analyze_violations.py:202-302 | a nanosecond is counted if and only if some late call of an oversubscribed pair of slots runs over it past the boundary |
| `Violations.ComputeViolationTime` | scripts/analyze_violations.py:270-302 | the number of nanoseconds in at least one reported interval |
| `Violations.TotalViolationTime` | scripts/analyze_violations.py:202-302 | assignment, detection and merging together give the measure of that union |
| `Aio.BlocksInRow` | csrc/checkpoint/archer_prio_aio_handle.cpp:180-210 | the blocks of a transfer follow each other, none is empty, and the last ends at its size |
| `Aio.OffsetInOneBlock` | csrc/checkpoint/archer_prio_aio_handle.cpp:180-210 | every byte of a transfer is in exactly one block |
| `Aio.PrepIocbs` | csrc/checkpoint/archer_prio_aio_handle.cpp:180-210 | the loop produces those blocks |
| `AioLaws.AcceptOk` | csrc/checkpoint/archer_prio_aio_handle.cpp:169-178 | accepting a request of any size keeps counters, queues and the record of blocks run in agreement |
| `AioLaws.ScheduleOk` | csrc/checkpoint/archer_prio_aio_handle.cpp:121-167 | so does a turn that can be taken, with its priority and one block at a time for low priority |
| `AioLaws.CompleteMeansAllRan` | csrc/checkpoint/archer_prio_aio_handle.cpp:121-210 | in every run, requests of every size included, a request counted complete has had each of its blocks run exactly once |
| `AioOrder.ServedInTurn` | csrc/checkpoint/archer_prio_aio_handle.cpp:121-167 | in every run a turn moves a request only when every earlier one of its priority is finished, and one of low priority only when all of high priority are; a high-priority request runs whole with its blocks in order, a low-priority one runs one block, the last it has left |
| `AioOrder.RunInOrder` | csrc/checkpoint/archer_prio_aio_handle.cpp:121-178 | in every run each queue holds only its priority, in the order of arrival, and nothing but the first low-priority request is begun |
| `AioLaws.AcceptServable` | csrc/checkpoint/archer_prio_aio_handle.cpp:143-154 | accepting a request keeps every queued low-priority request servable if and only if it has a block or is of high priority |
| `AioLaws.StuckBreaks` | csrc/checkpoint/archer_prio_aio_handle.cpp:143-154 | a low-priority request without blocks breaks the scheduler after the turns that bring it to the front |
| `AioLaws.NeverBreaksExactly` | csrc/checkpoint/archer_prio_aio_handle.cpp:121-178 | a run keeps all later turns defined if and only if it accepted no low-priority request without blocks |
| `Checkpoint.WriteOutWrites` | csrc/checkpoint/archer_prio_aio_handle.cpp:70-110 | a finished write left its buffer at its offset and the rest of the file as it was; the scheduler can go on if and only if the buffer was not empty |
| `Checkpoint.ReadFetches` | csrc/checkpoint/archer_prio_aio_handle.cpp:35-68 | a finished read of either priority brought the file's bytes and changed no file; the scheduler can go on if and only if there was something to read or the priority was high |
| `Checkpoint.StoreKeeps` | csrc/checkpoint/archer_tensor_handle.cpp:75-110 | a store keeps extents apart and every other id's bytes; the scheduler can go on if and only if the tensor has bytes |
| `Checkpoint.StepExactly` | csrc/checkpoint/archer_tensor_handle.cpp:75-128 | an operation succeeds and leaves a running scheduler if and only if it stores bytes, of the old size if the id is known, or reads a known id |
| `Checkpoint.RunExactly` | csrc/checkpoint/archer_tensor_handle.cpp:75-128 | a run succeeds if and only if each of its operations is permitted by what was last stored before it |
| `Checkpoint.EmptyTensorBreaks` | csrc/checkpoint/archer_tensor_handle.cpp:75-110 | storing a tensor without bytes breaks the scheduler at once |
| `Checkpoint.ReadsLastStored` | csrc/checkpoint/archer_tensor_handle.cpp:118-128 | after any sequence of stores and reads that succeeds, reading an id gives the bytes last stored under it |
| `Checkpoint.ExtentsDisjoint` | csrc/checkpoint/archer_tensor_handle.cpp:75-110 | the aligned extents of different ids share no byte |
| `TensorHandles.PrioAioContext.Turn` | csrc/checkpoint/archer_prio_aio_handle.cpp:121-167 | one turn of the scheduling loop does what the specification says |
| `TensorHandles.TensorHandle.Wait` | csrc/checkpoint/archer_prio_aio_handle.cpp:35-110 | the wait ends, after exactly the turns the request needs, with none of its blocks pending |
| `TensorHandles.TensorHandle.StoreTensor` | csrc/checkpoint/archer_tensor_handle.cpp:75-110 | the whole new state, and refusal where the specification refuses |
| `TensorHandles.TensorHandle.ReadTensor` | csrc/checkpoint/archer_tensor_handle.cpp:118-128 | the buffer and the new state; an unknown id changes nothing |

## Left out

- Fairness and time: `Progress.AlwaysCompletable` says completing steps exist after every run, not that a scheduler takes them.
- libevent, sockets, timers, threads, thread pinning and pools: only open and closed links, delivered messages and one-at-a-time steps remain.
- CUDA, MKL, cuBLAS, pinned and pooled memory, pointer lifetimes and allocation failure: blocks are values and GEMM is its definition.
- Protobuf encoding and the message schema beyond the fields a partition carries.
- Device registration, profile and probe messages on the wire: they repeat the partition's framing with fewer fields.
- Logging, virtual-time lines, throughput statistics and performance logs.
- `HandleDeviceFailure`, `CheckFailedPartitions` and `RephrasePartitions`: no callback reaches them.
- `UpdateMatrixBlock`: the server's write path uses the row copies of `IndexPutMatrixBlock`.
- Dispatch gate (the queueing of a dispatch while no device is connected, csrc/backend/proxy_svr.cpp:820-842), draining devices and buffer pools.
- Assignment by the round-robin and load-balanced policies at dispatch: only their redistribution is on the protocol's path; the protocol takes any assignment.
- Restart of a checkpoint handle from an existing index: the constructor does not restore the file offset.
- Launch, training, plotting, trace and report scripts, and configuration parsing.
- Sweeps.MoveSimulates: reading the owner, looking up its connection and putting the request on the link are one step; between them the code can still lose the connection, in which case `SendInLoop` sends nothing.
- OperationId.IdsUnique: the compare-and-swap loop is given one atomic access at a time so that callers interleave; a caller left alone ends (`OperationId.AloneReturns`), but that one caller's loop ends under endless contention is not stated.
- ProxyClient.ProxyCli.Store: the block is a value, so the copy into a pinned buffer and its release by the deleter are not modelled.
- Histogram.EstimateInRange: percentages are reals and the estimate truncates a real, so floating-point rounding is not modelled.
- GreedyScheduling.GreedyBound: device times are reals, so floating-point rounding is not modelled.
- LruCaches.FixCapLruCache.Put: the capacity is positive; at capacity zero the source reads the front of an empty list.
