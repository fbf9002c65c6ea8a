# flyd-sim lifecycle engine and fault overlay, in Dafny

This project models two parts of the flyd simulator.

- **The machine lifecycle engine** (`apps/flyd-sim/internal/server/server.go`).
  - `CreateMachine` saves a `pending` record at version 1 and starts boot completion.
  - `GetMachine` reads through a cache of `*Machine` objects.
  - `StartMachine` and `StopMachine` run `performAction` under a per-id operation lock. Start and stop are idempotent. A start or stop that changes the status bumps the cached object's version by one, and the stored version only if the save succeeds. Any other action string is the "unknown action" error and changes nothing.
  - `transitionToRunning` runs after create. It re-reads the store and saves the machine `running`.
- **The fault-injection overlay of the HTTP handler** (`apps/flyd-sim/internal/api/rest.go`).
  - Each region has a partition flag and a latency.
  - `/chaos/partition`, `/chaos/heal` and `/chaos/latency` change them.
  - `/create` and `/get` check them, in the order the handlers do.

Layout:

- `Models.dfy`: the machine record, its status, the engine's errors and the published events.
- `Lifecycle.dfy`: the state machine of one record, as pure functions.
  - `Apply` is an explicit action, `Boot` is boot completion, and `ActionEffect` is the whole of `performAction` after its lookup.
  - Serialised histories of steps in which every save succeeds, with lemmas about their versions and statuses.
  - Histories whose steps carry their save outcome, run over a pair of records (the cache entry and the stored record). Here the stored version can skip: it grows by at least one per write, not exactly one.
- `Engine.dfy`: the engine as classes.
  - `Store` holds saved values. `MachineRef` is the heap object behind `*models.Machine`. `OpLocks` is the lock registry, `BootQueue` holds the started boot goroutines, and `Publisher` is the NATS publisher.
  - `Server` holds a cache of references to `MachineRef` objects.
  - Each operation is proved against the `Lifecycle` functions. This includes the aliasing: `performAction` writes the cached object before it saves. After a failed save the cache therefore shows the new status and version, while the store keeps the old record.
- `Faults.dfy`: the overlay as a value, the three chaos commands (`Exec`) and lemmas about command histories.
- `Api.dfy`: the `Handler` class.
  - Its chaos endpoints are proved against `Faults.Exec`.
  - `/create` and `/get` are guard sequences in front of `Engine.Server`.
  - A reply is a status code with its message, or the fields of the 200 body. The sleep before a slow reply becomes a returned delay.
- `Scenarios.dfy`: whole runs from an empty store.
  - The create/boot/stop sequence of `apps/flyd-sim/tests/fsm_test.go`.
  - The two races between an explicit action and boot completion.
  - The divergence of cache and store after a failed save.
  - A failed stop followed by a start, which skips a stored version.
  - Partitions and latency seen through the handler.

Some behaviour of the code is not what a reader of its comments and tests might expect. The model follows the code:

- Boot completion does not check for `pending`. A stop that takes the id's lock before the boot goroutine does is undone, and the machine ends `running`. (A stop issued while boot completion sleeps waits for the lock, since the sleep happens with the lock held, and then stops the running machine.) Boot completion also bumps the version of a machine an explicit start already brought to `running` (`Lifecycle.StopDuringBootIsUndone`, `Lifecycle.StartDuringBootWritesTwice`).
- Boot completion publishes `machine.running` even when its save failed.
- Start and stop do not look at `terminated`. A terminated machine is started or stopped like any other.
- `/get` checks the partition only after the lookup. A 503 for a partitioned region has already read the store and filled the cache (`Scenarios.PartitionedGetFillsCache`).
- A failed save leaves the cached object changed. The next successful action builds on that object, so the stored version skips: Running at version 2, a stop whose save fails, then a start, gives Running at version 4 after one write (`Lifecycle.FailedSaveSkipsVersion`, `Scenarios.FailedStopThenStart`). After a failed stop of a pending machine, boot completion saves `running` under the version the cache showed for `stopped` (`Lifecycle.FailedSaveThenBootReusesVersion`).
- `/create` publishes `machine.created` itself after the engine has already published it. When the handler and the server share one connected publisher, the event is delivered twice.

## Model

| member | source | states |
|---|---|---|
| Lifecycle.ParseAction | apps/flyd-sim/internal/server/server.go:130-143 | "start" and "stop" select the two actions; any other string is unknown (each direction of each case) |
| Lifecycle.Apply | apps/flyd-sim/internal/server/server.go:130-146 | the action does nothing exactly when the record already has the target status; otherwise the target status, version + 1, the new update time, identity fields kept |
| Lifecycle.Boot | apps/flyd-sim/internal/server/server.go:177-184 | boot gives up exactly on a terminated record; otherwise the record is running at version + 1 whatever its status was, with the identity fields kept |
| Lifecycle.Created | apps/flyd-sim/internal/server/server.go:69-78 | the record CreateMachine builds: the given id, name and region, status pending, version 1, empty metadata, created and updated at the same clock reading |
| Lifecycle.ActionEffect | apps/flyd-sim/internal/server/server.go:130-164 | an unknown action changes nothing; an action whose target is the current status replies "already running"/"already stopped" and changes nothing; otherwise the cached record is the `Apply` result (target status, version + 1) whether or not the save succeeds, the reply is "ok" or the save error, and the store receives the record exactly when the save succeeds |
| Lifecycle.RunVersion | apps/flyd-sim/internal/server/server.go:121-198 | over any serialised history in which every save succeeds, the version grows by exactly the number of steps that write |
| Lifecycle.RunKeepsIdentity | apps/flyd-sim/internal/server/server.go:121-198 | no history changes id, name, region, creation time or metadata |
| Lifecycle.ExplicitWritesAreStatusChanges | apps/flyd-sim/internal/server/server.go:130-145 | with start and stop only, a step writes a new version exactly when it changes the status |
| Lifecycle.ExplicitHistoryVersion | apps/flyd-sim/internal/server/server.go:121-165 | start and stop calls serialised by the lock, all of whose saves succeed, leave the version increased by the number of status changes |
| Lifecycle.LastActionWins | apps/flyd-sim/internal/server/server.go:121-165 | after any history ending in an explicit action, the status is that action's target |
| Lifecycle.StopDuringBootIsUndone | apps/flyd-sim/internal/server/server.go:121-198 | a stop that runs before boot completion is undone: the record ends running at version 3 |
| Lifecycle.StartDuringBootWritesTwice | apps/flyd-sim/internal/server/server.go:121-198 | a start before boot completion makes boot write version 3 although the status changed only once |
| Lifecycle.Name | apps/flyd-sim/internal/server/server.go:107-119 | the action string StartMachine and StopMachine pass parses back to their action |
| Lifecycle.Perform | apps/flyd-sim/internal/server/server.go:121-198 | one serialised performAction or transitionToRunning step on the cache entry and the stored record: after an explicit action reads see its target status whether or not the save succeeded, and the identity fields are kept; the store changes only by a write, and a write leaves cache and store equal; a boot that does not write changes nothing, and one that writes stores Running at the next version |
| Lifecycle.SavedStepIsNext | apps/flyd-sim/internal/server/server.go:121-198 | a step whose save succeeds keeps the cache entry equal to the stored record (or absent) and does to the store what `Next` does |
| Lifecycle.SavedHistoryIsRun | apps/flyd-sim/internal/server/server.go:121-198 | with every save successful, cache and store never disagree, the store follows `Run` and its writes are `WriteCount` |
| Lifecycle.SavedHistoryVersion | apps/flyd-sim/internal/server/server.go:121-198 | with every save successful, the stored version grows by exactly one per store write |
| Lifecycle.StepRaisesStored | apps/flyd-sim/internal/server/server.go:121-198 | any step, save failed or not, keeps the cached version at or above the stored one and raises the stored version by at least one per write |
| Lifecycle.StoredVersionBound | apps/flyd-sim/internal/server/server.go:121-198 | in every history, failed saves included, the stored version never decreases and grows by at least the number of store writes |
| Lifecycle.TwoSteps | apps/flyd-sim/internal/server/server.go:121-198 | a two-step history is one step after the other, and its writes add up |
| Lifecycle.FailedSaveSkipsVersion | apps/flyd-sim/internal/server/server.go:125-154 | from Running at version v, a stop whose save fails and then a start write the store once and leave it Running at v + 2 |
| Lifecycle.FailedSaveThenBootReusesVersion | apps/flyd-sim/internal/server/server.go:125-190 | a failed stop of a pending machine shows it Stopped at v + 1; boot completion then shows it Running at v + 1 as well |
| Engine.MachineRef.Advance | apps/flyd-sim/internal/server/server.go:135-146 | the field writes of a change: the new status, version + 1, the update time, nothing else |
| Engine.Store.GetMachine | apps/flyd-sim/internal/storage/badger_store.go:58-76 | a read failure, NotFound for a missing id, or a new object holding the stored record |
| Engine.Store.SaveMachine | apps/flyd-sim/internal/storage/badger_store.go:48-56 | the object's record is stored under its id exactly when the save succeeds |
| Engine.OpLocks.Acquire | apps/flyd-sim/internal/server/server.go:219-224 | the id's lock is registered (lazily, never removed) and held; it must not already be held |
| Engine.OpLocks.Release | apps/flyd-sim/internal/server/server.go:226-233 | releasing an id never registered is a no-op; otherwise the lock is no longer held and the registry is unchanged |
| Engine.BootQueue.Spawn | apps/flyd-sim/internal/server/server.go:95 | `go s.transitionToRunning(m.ID)`: the id joins the started boot goroutines that have not run yet |
| Engine.Publisher.Publish | apps/flyd-sim/internal/nats/publisher.go:35-40 | fails while not connected; otherwise the event is delivered |
| Engine.Server.PublishEvent | apps/flyd-sim/internal/server/server.go:235-244 | with no publisher the event is dropped; otherwise it is delivered exactly when the publisher is connected, and a failure is ignored |
| Engine.Server.constructor | apps/flyd-sim/internal/server/server.go:36-51 | a new server over an existing store: empty cache, no lock registered, no boot started |
| Engine.Server.ObjectWriteShowsInCache | apps/flyd-sim/internal/server/server.go:135-146 | writing the fields of the object cached under its id changes what the cache shows under that id only |
| Engine.Server.CacheStore | apps/flyd-sim/internal/server/server.go:152-154 | the cache maps the object's id to the object, and shows its record there |
| Engine.Server.GetMachineCached | apps/flyd-sim/internal/server/server.go:200-217 | a hit returns the cached object itself; a miss returns a new object with the store's record and caches it; a store error is returned and leaves the cache unchanged |
| Engine.Server.SaveThenCache | apps/flyd-sim/internal/server/server.go:148-190 | the store and the cache receive the object's record together, and only if the save succeeds |
| Engine.Server.CreateMachine | apps/flyd-sim/internal/server/server.go:61-97 | an empty name, then an empty region, then a failed save is an error that writes nothing, starts no boot and publishes nothing; otherwise a pending record at version 1 with empty metadata is stored, its boot is started, machine.created is published and the id is returned pending; the cache is not written |
| Engine.Server.GetMachine | apps/flyd-sim/internal/server/server.go:99-105 | the id, status and region that the read-through lookup yields, or its error |
| Engine.Server.ActOn | apps/flyd-sim/internal/server/server.go:130-164 | the switch of performAction on the cached object has exactly the effect `Lifecycle.ActionEffect` gives |
| Engine.Server.CommitChange | apps/flyd-sim/internal/server/server.go:135-164 | the cached object shows the change before the save; the store receives it and the event is published only if the save succeeds; a failed save is the error returned |
| Engine.Server.PerformLocked | apps/flyd-sim/internal/server/server.go:125-164 | a failed lookup is returned and changes nothing; otherwise the looked-up record goes through `Lifecycle.ActionEffect` (`ActionDone`) |
| Engine.Server.PerformAction | apps/flyd-sim/internal/server/server.go:121-165 | the same, under the id's lock, which is registered and released again |
| Engine.Server.StartMachine | apps/flyd-sim/internal/server/server.go:107-112 | an empty id is refused before any lock, cache, store or publisher access; otherwise performAction with "start" |
| Engine.Server.StopMachine | apps/flyd-sim/internal/server/server.go:114-119 | an empty id is refused before any lock, cache, store or publisher access; otherwise performAction with "stop" |
| Engine.Server.BootLocked | apps/flyd-sim/internal/server/server.go:171-197 | re-reads the store, not the cache; a read error or a terminated record changes nothing; otherwise the `Lifecycle.Boot` record is stored and cached only if the save succeeds, and machine.running is published either way |
| Engine.Server.BootComplete | apps/flyd-sim/internal/server/server.go:167-198 | one started boot goroutine runs under the id's lock with the effect of `BootLocked` and leaves the boot queue |
| Faults.Partitioned | apps/flyd-sim/internal/api/rest.go:196-200 | a region never configured reads as not partitioned |
| Faults.Latency | apps/flyd-sim/internal/api/rest.go:202-206 | a region never configured reads as latency 0 |
| Faults.Delay | apps/flyd-sim/internal/api/rest.go:119-121 | there is a delay exactly when the region's latency is positive, and it is that latency |
| Faults.Rejection | apps/flyd-sim/internal/api/rest.go:129-194 | an empty region is refused first, then a negative latency; every other command is accepted |
| Faults.Exec | apps/flyd-sim/internal/api/rest.go:129-194 | a refused command changes nothing; an accepted one changes only its region: partition raises the flag and keeps the latency, heal makes the region look never configured, a latency (0 included) is set and the flag kept; latencies stay non-negative |
| Faults.ExecAllKeepsNonNegative | apps/flyd-sim/internal/api/rest.go:180-186 | no history of chaos commands ever stores a negative latency |
| Faults.RegionIsolation | apps/flyd-sim/internal/api/rest.go:129-194 | what a region looks like after a history depends only on its earlier state and the commands that name it |
| Faults.PartitionPersists | apps/flyd-sim/internal/api/rest.go:139-162 | a partition holds through any history without a heal of that region |
| Faults.HealForgets | apps/flyd-sim/internal/api/rest.go:149-206 | after a heal, the region is indistinguishable from one never configured for as long as no command names it |
| Faults.AboutNone | apps/flyd-sim/internal/api/rest.go:129-194 | a history with no command naming the region has nothing about it |
| Faults.PartitionIdempotent | apps/flyd-sim/internal/api/rest.go:139-141 | partitioning twice is partitioning once |
| Faults.HealUndoesPartition | apps/flyd-sim/internal/api/rest.go:139-162 | partition followed by heal leaves the overlay as heal alone would |
| Api.Handler.constructor | apps/flyd-sim/internal/api/rest.go:25-43 | a new handler has no region partitioned or slowed |
| Api.Handler.IsPartitioned | apps/flyd-sim/internal/api/rest.go:196-200 | the region's flag, false for a region never configured |
| Api.Handler.GetLatencyMs | apps/flyd-sim/internal/api/rest.go:202-206 | the region's latency, 0 for a region never configured |
| Api.Handler.HandlePartition | apps/flyd-sim/internal/api/rest.go:129-147 | 400 "region required" for an empty region; otherwise the overlay is `Exec` of the partition and the reply names the region |
| Api.Handler.HandleHeal | apps/flyd-sim/internal/api/rest.go:149-168 | 400 "region required" for an empty region; otherwise the overlay is `Exec` of the heal and the reply names the region |
| Api.Handler.HandleLatency | apps/flyd-sim/internal/api/rest.go:170-194 | 400 for an empty region, then for a negative latency; otherwise the overlay is `Exec` of the latency and the reply echoes it |
| Api.Handler.HandleCreate | apps/flyd-sim/internal/api/rest.go:49-97 | 400 for a body that does not decode, then for an empty name or region, then 503 for a partitioned region, none of them reaching the engine; an engine error is 500; otherwise the engine's effect, a second machine.created on the handler's publisher, whose failure does not change the reply, and the new id, pending |
| Api.Handler.HandleGet | apps/flyd-sim/internal/api/rest.go:99-127 | 400 for an empty id and 404 for a failed lookup, neither changing the cache; once the lookup succeeds the cache holds the record and the reply is 503 for a partitioned region, else the id and status after the region's `Delay` |
| Scenarios.CreateBootStop | apps/flyd-sim/tests/fsm_test.go:15-48 | after create and boot completion the machine reads running; a stop succeeds and it then reads stopped |
| Scenarios.StopDuringBoot | apps/flyd-sim/internal/server/server.go:107-198 | a stop that wins the lock before boot completion succeeds, yet the store ends with the machine running at version 3 |
| Scenarios.StartDuringBoot | apps/flyd-sim/internal/server/server.go:107-198 | a start that wins the lock before boot completion makes boot write version 3 of a running machine |
| Scenarios.FailedSaveDivergence | apps/flyd-sim/internal/server/server.go:125-154 | a stop whose save fails is an error, yet later reads see the machine stopped while the store still has it running at version 2 |
| Scenarios.FailedStopThenStart | apps/flyd-sim/internal/server/server.go:107-165 | after create and boot, a stop whose save fails and then a start leave the store Running at version 4 |
| Scenarios.PartitionThenHeal | apps/flyd-sim/internal/api/rest.go:49-168 | /create in a partitioned region is 503 and stores nothing; after a heal the same request creates the machine |
| Scenarios.PartitionedGetFillsCache | apps/flyd-sim/internal/api/rest.go:99-117 | a /get refused with 503 for a partitioned region has already filled the cache |
| Scenarios.LatencyDelaysGet | apps/flyd-sim/internal/api/rest.go:113-194 | a latency of 250 ms on the region delays the /get reply by 250 ms |
| Scenarios.HealedGetIsImmediate | apps/flyd-sim/internal/api/rest.go:113-168 | after a heal, a /get in a previously slowed region is not delayed |

## Left out

- Concurrency. Goroutines, `sync.Mutex`, `sync.RWMutex` and `sync.Map` are not modelled as such. Each operation is one atomic step, and the per-id lock is a set of held ids that a step must find free. The cache mutex and the handler's mutex are left out.
- Reads that race with writers. `GetMachine` takes no operation lock, and `getMachineCached` drops the cache lock between its miss, its store read and its unconditional cache write (server.go:200-217). The model makes that read path one atomic step, so it does not capture this interleaving. From a store holding Running v2 and an empty cache, a get misses and reads Running v2. A stop then saves and caches Stopped v3. The get then writes its Running v2 object over that cache entry. Afterwards a start replies "already running" while the store holds Stopped v3, and a stop saves Stopped v3 again: a successful write with no version increase. A get that reads Pending v1 just before boot completion saves, and writes the cache after it, leaves Pending v1 cached over a stored Running v2 in the same way.
- The 500 ms sleep in `transitionToRunning` and the sleep before a slow `/get`. The first is dropped. It happens with the id's lock held, so a start or stop of that id waits until boot completion has finished; that is why boot completion can be one atomic step, `BootComplete`. The second sleep is the `delayMs` field of the reply.
- `uuid.NewString()`. Its value is the parameter `freshId`, which must be non-empty and not yet in the store.
- Wall-clock time. It is the parameter `now`, an abstract reading. The `time` field of the published events is left out.
- Store I/O and JSON encoding. Badger and `encoding/json` are a map of records, with a read-outcome and a save-outcome parameter. A read failure other than a missing key is `ReadFailed`.
- NATS. The connection is the publisher's `connected` field. `NewPublisher`, `Close`, reconnection and the subject name are not modelled. What reached NATS is a ghost event log.
- The gRPC and HTTP encodings. These include the decoding of request bodies: a body that does not decode is `None` for `/create`, and the decoded region and latency are parameters for the chaos endpoints. The `/ping` endpoint and the server's `Ping` are also left out.
- Prometheus counters (`machineCreated`, `machineActions`) and `apps/flyd-sim/internal/api/metrics.go`: metrics export only.
- Process wiring in `apps/flyd-sim/cmd/server/main.go`, `apps/flyd-sim/main.go` and `apps/flyd-sim/rest.go`: sockets and signals.
- Engine.MachineRef.Advance: `Version` is an `int64` in Go, and its overflow after 2^63 - 1 writes is not modelled. Versions are unbounded integers.
- Engine.OpLocks.Acquire: blocking on a held lock is not modelled. The caller must find the lock free, which is how the model serialises operations on one id.
- Engine.OpLocks.Release: Go aborts when a registered mutex that is not locked is unlocked. That case is excluded by its precondition rather than modelled.
- Engine.Server.BootComplete: when boot completion runs is chosen by the caller. It may run while no other operation on that id is in progress.
- Lifecycle.RunVersion: `Run` and its steps assume every save succeeds, and that reads are atomic with respect to writers (see the line on reads that race with writers). With failed saves the exact law does not hold. The general statement is `Lifecycle.StoredVersionBound` (at least one per write), and `Lifecycle.FailedSaveSkipsVersion` shows a skip.
- Lifecycle.ExplicitHistoryVersion: it is stated for histories whose saves all succeed and whose reads are atomic, for the same reasons. After a failed save the stored version can grow with no status change.
- Lifecycle.Perform: read failures are not steps of its histories. A failed read changes neither the cache nor the store (`Engine.Server.GetMachineCached`, `Engine.Server.BootLocked`).
- Lifecycle.SavedHistoryVersion: the exact law also assumes reads are atomic with respect to writers. A get racing with a stop or with boot completion can put a stale object in the cache, and the next write then repeats a version.
- Faults.Delay: the source sleeps for `time.Duration(delay) * time.Millisecond` (rest.go:120), an `int64` count of nanoseconds. A latency above about 9.2e12 ms, which `handleLatency` accepts, overflows it, and the source then sleeps a wrapped and often negative duration. The model returns the full latency as the delay.
- Lifecycle.StoredVersionBound: the lower bound also assumes reads are atomic with respect to writers. With the racing get described above, a successful write can repeat the stored version.
