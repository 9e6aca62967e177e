# Seej world kernel: model and proofs

Seej is an event-sourced world kernel. A pure simulation turns commands into events; a second,
strict implementation replays events; a binary write-ahead log stores them; a runtime ties snapshot,
metadata mirror and log together so that a crashed process can rebuild its world. The promise at the
centre of the repository is "recovery is replay". This project models those layers in Dafny and
proves the promise for every run.

Reading order:

| files | content |
|---|---|
| `SyTypes`, `SyApi`, `Arithmetic`, `SortedKeys`, `LittleEndian` | shared values, command validation, quotients and remainders, `BTreeMap` iteration order, byte integers |
| `Pcg32`, `Pcg32Period`, `Pcg32Output` | the generator, its full period, its draws bit by bit |
| `World`, `Sim`, `Replay`, `LiveReplay` | the state, the live step, the replay step, and their agreement |
| `TickLaw`, `CommandLaws`, `ReplayLaws` | what a tick, a command and a replayed event do, said without their code |
| `History`, `Conservation`, `Lifecycle` | whole runs: invariants, restart transparency, conservation, death and identity |
| `Wal`, `WalLaws`, `MockEventLog`, `LogRefinement` | the byte log, its laws, the list log, and the refinement between them |
| `Snapshot`, `CanonicalHash`, `Schedule`, `Checkpoints` | snapshot validation, canonical encoding, the scheduled runner, its checkpoints |
| `Runtime`, `CrashProtocol`, `CrashSafety`, `RecoveryTheorems`, `NodeFutures`, `PersistenceLaws` | the persistent runtime, crashes as a transition system, the invariant, the recovery theorems, whole processes after a crash, when saves and loads succeed |

The source's objects are classes (`World`, `Simulation`, `Pcg32Rng`, `UnlimitedClock`,
`FileEventLog`, `MockLog`, `StateHasher`, `WorldStore`, `PersistentSimulation`) whose methods update
fields in place and run the source's loops. Each method is proved equal to a function on values, and
the properties are lemmas about those functions; the laws say what those functions compute without
naming the parts they are made of.

What the main results say:

* **Recovery is replay.** In every state reachable by commands, saves (snapshot, metadata and
  in-memory cursor as separate steps), crashes between any two steps or inside an append, restarts
  and loads, loading a world that has a snapshot succeeds and yields exactly the world of the
  uninterrupted run of the commands whose batches are complete in the log, up to the cursor fields
  `snapshot_tick` and `last_event_id`. A command cut off by a crash is recovered whole or not at all.
  The recovered process is the surviving one up to the cursor: same log bytes and cells, and for every
  list of further commands the same answers, event ids and refusals included.
* **A tick is its law.** Which entities draw, which draws hit, what a hit costs, who is buried and which
  events are emitted are stated without the loops; likewise every command, every replayed event, every
  record of the log, every save and load.
* **Live equals replay.** The tick loop and the event applier are two programs; replaying the events
  of any accepted command on the world before it gives the world after it in every field.
* **The byte log is the list log.** Any sequence of appends, batches, truncations and reopenings
  leaves the file log answering every query like the in-memory list.
* **Torn writes never harm the log**, with nothing assumed of the checksum: repair cuts exactly the torn
  bytes. They can harm the runtime in one case. If the torn record is the genesis one and the log lives
  in the directory of the world, that directory is left behind, and every later process refuses to
  create the world (`NodeFutures.TornGenesisIsRetriedIff`, `NodeFutures.DirectoryBlocksCreation`).
* **The validator is exact, the canonical encoding is injective, the generator has period 2^64.**

## Modelling assumptions

* One writer per world, and one world per disk in the crash protocol.
* Strings are UTF-8 byte sequences. Integer widths are ranges on `int`; wrapping and saturating
  operators are written out. `Tick::next` and `EventId::next` saturate. Entity-id and event-id
  counters wrap as in a release build (a debug build panics there); theorems over runs assume the
  counters have room (`Roomy`, `RoomFor`, `CountersAllow`, `Admissible`).
* The `f32` constants 0.01 and 0.005 are the exact reals nearest to them in binary32; the draws
  compare exact multiples of 2^-24 with them, so no rounding is involved.
* The checksum is an arbitrary function. The JSON codecs are arbitrary functions with a round-trip
  law; truncation also needs that one event serializes no longer than a batch holding it.
* A snapshot or metadata write replaces its cell atomically. An append completes durably, fails
  cleanly while encoding (payload over 16 MiB), or crashes leaving a byte prefix of the record.
* Recovery is promised once a first snapshot exists. Before that a load reports a missing world and
  `CreateWorld` refuses the orphan log, which is proved too.
* Error messages are dropped; error kinds are kept. A float in a property value is its raw bits.

Where code and documentation disagree: `seej/docs/phase1/PERSISTENCE.md:190-198` says the log
rewritten by `truncate_after` has new event ids. The ids are assigned again, but when the rewrite succeeds
they come out equal to the old ones exactly when the kept events were numbered from one, which is what the runtime demands of
a recoverable log (`LogRefinement.TruncationKeepsIdsIffContiguous`).

## Model

| member | source | states |
|---|---|---|
| RecoveryTheorems.RecoveryIsReplay | seej/server/crates/sy_infra/src/runtime.rs:118-178 | In every reachable state, running or crashed at any point, loading any world with a snapshot succeeds and installs exactly the world of the uninterrupted run of the commands complete in the log, up to the cursor, generator and clock in step; the events returned are exactly the log after the cursor |
| RecoveryTheorems.CrashedCommandIsWholeOrAbsent | seej/server/crates/sy_infra/src/store/wal.rs:448-472 | A crash after any number of bytes of an append: recovery after any restart yields the world with the command if its record is complete, and the world without it otherwise |
| RecoveryTheorems.RecoveredFutureIsUninterrupted | seej/server/crates/sy_infra/src/runtime.rs:118-126 | For every future command sequence the recovered simulation gives the same results and events as the process that was never interrupted, and the same world up to the cursor |
| NodeFutures.CrashIsInvisible | seej/server/crates/sy_infra/src/runtime.rs:48-126 | Kill a process with a saved world between any two steps or inside an append, restart and load: it is, up to the cursor, the process that went on (with the command accepted exactly when its record was complete), with equal log bytes and cells, and every list of further commands gets equal answers and leaves equal log bytes and cells |
| NodeFutures.TornGenesisIsRetriedIff | seej/server/crates/sy_infra/src/runtime.rs:48-75 | After a crash inside the genesis append nothing is recovered, and the same `CreateWorld` succeeds exactly when the log does not live in the directory of the world; otherwise it is refused with a storage error and nothing changes |
| NodeFutures.DirectoryBlocksCreation | seej/server/crates/sy_infra/src/store/filesystem.rs:170-214 | Once the directory of a world exists, every later process of the run refuses to create that world |
| NodeFutures.ServeIgnoresCursor | seej/server/crates/sy_infra/src/runtime.rs:48-87 | Whole processes that differ only in the cursor give equal answers and write equal bytes for every list of commands |
| RecoveryTheorems.OrphanLogIsRefused | seej/server/crates/sy_infra/src/runtime.rs:48-75 | Before the first snapshot but after some command, a load reports a missing world and `CreateWorld` is refused without changing anything |
| RecoveryTheorems.MetaNeverBlocks | seej/server/crates/sy_infra/src/runtime.rs:211-237 | In every reachable state the metadata file is absent, equal to the snapshot metadata, or passes the staleness test |
| RecoveryTheorems.SaveIsInvisible | seej/server/crates/sy_infra/src/runtime.rs:89-116 | A save moves only the cursor; results and events of every later command sequence are those of the unsaved simulation |
| RecoveryTheorems.SaveNeverFails | seej/server/crates/sy_infra/src/runtime.rs:89-116 | In every reachable state with a loaded world a save succeeds: the log cursor is never behind the cursor in memory |
| RecoveryTheorems.FirstSaveIsReachable | seej/server/crates/sy_infra/src/runtime.rs:48-116 | From any empty disk, creating a world whose genesis record encodes and saving it reaches a state with a snapshot, so the recovery theorems are not vacuous |
| RecoveryTheorems.ReachableSnapshotsAreValid | seej/server/crates/sy_infra/src/snapshot.rs:141-193 | Every snapshot held in a reachable state decodes, passes validation and is a well-formed world |
| CrashSafety.RunsKeepInv | seej/server/crates/sy_infra/src/runtime.rs:48-126 | The protocol invariant holds in every state of every run from an empty disk |
| CrashSafety.NextKeepsInv | seej/server/crates/sy_infra/src/runtime.rs:48-126 | Each single step of the protocol keeps the invariant |
| CrashSafety.DoKeepsInv | seej/server/crates/sy_infra/src/runtime.rs:48-87 | A command, accepted or failing, keeps memory, log and cells equal to the ideal run of the accepted commands |
| CrashSafety.DieAppendingKeepsInv | seej/server/crates/sy_infra/src/store/wal.rs:371-390 | A crash leaving any byte prefix of a record keeps the invariant of the disk |
| CrashSafety.BootKeepsInv | seej/server/crates/sy_infra/src/store/wal.rs:88-179 | A restart on whatever a crash left restores the log invariant by repair |
| CrashSafety.LoadKeepsInv | seej/server/crates/sy_infra/src/runtime.rs:118-126 | A load, successful or not, keeps the invariant |
| CrashSafety.BeginSaveKeepsInv | seej/server/crates/sy_infra/src/runtime.rs:89-112 | Writing the snapshot keeps the invariant: what is written is the ideal saved world |
| CrashSafety.SaveMetaKeepsInv | seej/server/crates/sy_infra/src/runtime.rs:110-112 | Writing the metadata keeps the invariant |
| CrashSafety.EndSaveKeepsInv | seej/server/crates/sy_infra/src/runtime.rs:114-115 | Installing the new cursor in memory keeps the invariant |
| CrashSafety.AppendIsAtomic | seej/server/crates/sy_infra/src/store/wal.rs:182-287 | After a clean log, all bytes of a record add its batch and fewer add nothing |
| CrashProtocol.RecoveryIsExact | seej/server/crates/sy_infra/src/runtime.rs:134-178 | From the invariant: the load succeeds with the exact world and the exact replayed tail |
| CrashProtocol.TailReplays | seej/server/crates/sy_infra/src/runtime.rs:164-173 | The events after any point of a history replay from the world at that point to the final world |
| CrashProtocol.LogTailReplays | seej/server/crates/sy_infra/src/runtime.rs:164-173 | The same through the stored log: from a saved world, the numbered events after its cursor |
| CrashProtocol.EarlierMetaIsAccepted | seej/server/crates/sy_infra/src/runtime.rs:211-237 | Metadata of an earlier or equal save of the same history is equal to, or recognised as stale against, the later one; the strict cursor comparison loses nothing |
| CrashProtocol.IdealLater | seej/server/crates/sy_core/src/sim.rs:102-182 | Between two points of a history identity fields stay fixed, the tick never decreases, and the log grows by at least one event per command |
| CommandLaws.RuntimeAcceptanceLaw | seej/server/crates/sy_infra/src/runtime.rs:48-87 | The runtime accepts a command exactly when creation finds neither a directory of the world nor a logged event, the command is within the limits, the world permits it, and its numbered batch serializes to at most 16 MiB |
| CommandLaws.RuntimeEffectLaw | seej/server/crates/sy_infra/src/runtime.rs:48-87 | An accepted command appends one record of its numbered events to the old bytes, moves the counters and leaves the cells alone |
| CommandLaws.CreationRefusalLaw | seej/server/crates/sy_infra/src/runtime.rs:49-75 | Which error refuses a creation: already exists when directory, snapshot and metadata are all there, storage error otherwise |
| PersistenceLaws.SaveLaw | seej/server/crates/sy_infra/src/runtime.rs:89-116 | A save succeeds exactly when a world is loaded whose cursor the log has reached; cells and memory afterwards field by field, the snapshot stamped with tick and last id |
| PersistenceLaws.SaveIsThreeSteps | seej/server/crates/sy_infra/src/runtime.rs:89-116 | The three save steps of the crash protocol add up to this save |
| PersistenceLaws.LoadLaw | seej/server/crates/sy_infra/src/runtime.rs:118-178 | A load succeeds exactly when the snapshot is there, valid and of this world, the metadata file is absent, equal or strictly behind, and the log reads as 1..n with the announced n at least the cursor and a tail that replays; otherwise nothing changes |
| PersistenceLaws.MetaAheadIsRefused | seej/server/crates/sy_infra/src/runtime.rs:211-237 | A metadata file that differs from the snapshot and is not strictly behind it makes the load fail |
| Runtime.FailedCommandLeavesNode | seej/server/crates/sy_infra/src/runtime.rs:77-86 | A command failing in validation, execution or encoding leaves world, generator, clock, log bytes, event counter and cells as they were |
| Runtime.RangeChecksAreExact | seej/server/crates/sy_infra/src/runtime.rs:155-173 | The cursor, contiguity and coverage checks accept exactly logs numbered 1..n with n the announced cursor and at least the snapshot cursor; then the id filter drops exactly the first events, and the final coverage check cannot fail |
| Runtime.PrefixIsContiguous | seej/server/crates/sy_infra/src/runtime.rs:271-285 | The loop accepts exactly ids counting from one, saturating |
| Runtime.ReplayCoversTail | seej/server/crates/sy_infra/src/runtime.rs:287-312 | The loop accepts exactly ids counting from the cursor up to the log cursor |
| Runtime.PersistentSimulation.ProcessCommand | seej/server/crates/sy_infra/src/runtime.rs:48-87 | The new process and disk state and the answer are those of the command transition of the protocol |
| Runtime.PersistentSimulation.Commit | seej/server/crates/sy_infra/src/runtime.rs:80-86 | Append the batch; on failure restore the checkpoint and report a storage error |
| Runtime.PersistentSimulation.CheckCreate | seej/server/crates/sy_infra/src/runtime.rs:49-75 | The refusals of `CreateWorld`: complete storage, incomplete storage, nonempty log |
| Runtime.PersistentSimulation.SaveWorld | seej/server/crates/sy_infra/src/runtime.rs:89-116 | The new state is that of the three save steps of the protocol, or unchanged with an error |
| Runtime.PersistentSimulation.LoadRecoveredWorld | seej/server/crates/sy_infra/src/runtime.rs:134-178 | Exactly the recovery function, including the order of its error cases |
| Runtime.PersistentSimulation.ReplayTail | seej/server/crates/sy_infra/src/runtime.rs:150-173 | The range checks and the replay on the decoded world |
| Runtime.PersistentSimulation.LoadWorld | seej/server/crates/sy_infra/src/runtime.rs:118-126 | Installs the recovered world, or changes nothing and maps the error |
| LiveReplay.LiveReplayAgrees | seej/server/crates/sy_core/src/sim.rs:102-358 | For every accepted command on a loaded well-formed world, replaying its events on the world before gives the world after in every field, and that world is well formed |
| LiveReplay.TickReplays | seej/server/crates/sy_core/src/sim.rs:157-182 | The events of one tick, starting from the unticked world, replay to the ticked world |
| LiveReplay.TickSystemsTrack | seej/server/crates/sy_core/src/sim.rs:236-358 | The tick loop and burial pass, stopped anywhere, have emitted events that replay to the world they hold; header fields are untouched |
| LiveReplay.FirstEventCatchesUp | seej/server/crates/sy_core/src/replay.rs:41-86 | The first event of a tick finds the world one tick behind and advances it exactly as the live tick did |
| LiveReplay.GenesisReplaysAsIdentity | seej/server/crates/sy_core/src/sim.rs:132-155 | The genesis events replay as the identity on the new world |
| ReplayLaws.AcceptedEventLaw | seej/server/crates/sy_core/src/replay.rs:29-442 | Replay accepts an event exactly when its tick is the current or the next one (lifecycle events: the current one) and it describes what the world holds, stated for each kind of event |
| ReplayLaws.EffectLaw | seej/server/crates/sy_core/src/replay.rs:78-417 | What each accepted event makes of the world, field by field |
| Replay.ReplayStopsAtLongestPrefix | seej/server/crates/sy_core/src/replay.rs:444-453 | Replay ends at the result of the longest accepted prefix, and the next event is the one rejected |
| Replay.ReplayStepKeepsWellFormed | seej/server/crates/sy_core/src/replay.rs:29-417 | Every accepted event keeps the world well formed: tick agreement, ids below the counter, zone index equal to positions without duplicates |
| Replay.ReplayKeepsWellFormed | seej/server/crates/sy_core/src/replay.rs:444-453 | So does every replay, successful or not |
| Replay.MoveKeepsWellFormed | seej/server/crates/sy_core/src/replay.rs:237-288 | A move within or across zones keeps index and positions in agreement |
| Replay.ReplayConcat | seej/server/crates/sy_core/src/replay.rs:444-453 | Replays compose |
| Replay.ApplyTo | seej/server/crates/sy_core/src/replay.rs:29-34 | Clone, apply, install: an accepted event gives the specified world, a rejected one leaves the world unchanged |
| Replay.ApplyInPlace | seej/server/crates/sy_core/src/replay.rs:36-417 | The in-place applier computes the specified world or the specified error |
| Replay.ApplyEffect | seej/server/crates/sy_core/src/replay.rs:94-417 | The match on the event data after the tick is caught up |
| Replay.SpawnIn | seej/server/crates/sy_core/src/replay.rs:182-228 | Spawn replay, with its duplicate, id and zone errors and the counter update |
| Replay.MoveIn | seej/server/crates/sy_core/src/replay.rs:237-288 | Move replay, with its position and zone errors |
| Replay.ChangePropertyIn | seej/server/crates/sy_core/src/replay.rs:308-357 | Property replay, with the old-value check and the narrowing |
| Replay.DepleteIn | seej/server/crates/sy_core/src/replay.rs:362-389 | Depletion replay, with its arithmetic checks |
| Replay.DegradeIn | seej/server/crates/sy_core/src/replay.rs:392-415 | Degradation replay, with its old-value check |
| Replay.ReplayEvents | seej/server/crates/sy_core/src/replay.rs:444-453 | The loop computes the replay function: the world of the accepted prefix and its count or the error |
| TickLaw.TickLaw | seej/server/crates/sy_core/src/sim.rs:157-358 | One tick without its loops. The draw of an active resource with amount, or creature with health, is the one after as many steps as entities with smaller ids draw; it hits exactly when its 24 high bits are at most 167772 (83886 for creatures). A hit costs one unit, and life with the last; everything else stays. The generator ends after all draws; on ticks divisible by 100 exactly the dead leave map and zone lists; the events are the losses, the burials, both in ascending id order, and the closing event with the count of active entities |
| TickLaw.TickSystemsLaw | seej/server/crates/sy_core/src/sim.rs:236-358 | The same for the tick systems alone, on a world whose tick has advanced |
| TickLaw.WearLaw | seej/server/crates/sy_core/src/sim.rs:240-332 | The wear pass alone, before any burial |
| CommandLaws.AcceptanceLaw | seej/server/crates/sy_core/src/sim.rs:102-234 | A command is accepted exactly when it is within the literal limits (names of 1 to 64 bytes, 1 to 10000 ticks, zone names of at most 64 bytes) and the world permits it; each refusal carries the error stated |
| CommandLaws.SpawnLaw | seej/server/crates/sy_core/src/sim.rs:184-204 | The spawned entity has exactly the kind, position and properties of the command, is active and created at the current tick, sits under the old counter and last in its zone; the event says the same; nothing else moves |
| CommandLaws.DespawnLaw | seej/server/crates/sy_core/src/sim.rs:206-218 | Exactly the entity and its one place in its zone list go; the event gives the reason Command |
| CommandLaws.CreateZoneLaw | seej/server/crates/sy_core/src/sim.rs:220-234 | A loaded, empty zone with the id and name of the command; the event says the same |
| CommandLaws.CreateWorldLaw | seej/server/crates/sy_core/src/sim.rs:132-155 | The whole new world and its two events, down to the zone "Origin", first entity id one and the world id "world_" followed by the seed in decimal |
| CommandLaws.WithoutSkips | seej/server/crates/sy_core/src/world.rs:104-106 | Removal from a zone list keeps the order of the others |
| Sim.FailedCommandIsInvisible | seej/server/crates/sy_core/src/sim.rs:102-130 | A command that fails leaves world, generator and clock as before, also on the early exit inside `TickN` that skips the restore |
| Sim.TickManyFailsAtOnce | seej/server/crates/sy_core/src/sim.rs:116-121 | `TickN` fails only without a world, then at the first tick, before anything changed or was emitted |
| Sim.Simulation.ProcessCommand | seej/server/crates/sy_core/src/sim.rs:102-130 | New state and answer are those of the step function; no event stays pending |
| Sim.Simulation.Dispatch | seej/server/crates/sy_core/src/sim.rs:113-124 | The command match |
| Sim.Simulation.CmdCreateWorld | seej/server/crates/sy_core/src/sim.rs:132-155 | World, generator, clock and the two genesis events, or the already-exists error |
| Sim.Simulation.CmdTick | seej/server/crates/sy_core/src/sim.rs:157-182 | One tick: advance, systems, generator mirror, closing event |
| Sim.Simulation.CmdTicks | seej/server/crates/sy_core/src/sim.rs:116-121 | The `TickN` loop equals n ticks up to the first error |
| Sim.Simulation.RunTickSystems | seej/server/crates/sy_core/src/sim.rs:236-358 | The whole tick body on the live map: new world, draws, events and count |
| Sim.Simulation.WearActive | seej/server/crates/sy_core/src/sim.rs:240-332 | The loop over entities active at the start, in ascending id order |
| Sim.Simulation.DepleteOne | seej/server/crates/sy_core/src/sim.rs:263-296 | The resource arm: one draw only when the amount is positive |
| Sim.Simulation.DegradeOne | seej/server/crates/sy_core/src/sim.rs:297-328 | The creature arm: one draw only when health is positive |
| Sim.Simulation.BuryDead | seej/server/crates/sy_core/src/sim.rs:335-355 | The burial pass removes the dead in ascending id order, an event for each |
| Sim.Simulation.CmdSpawnEntity | seej/server/crates/sy_core/src/sim.rs:184-204 | Spawn with the next id, or the zone error |
| Sim.Simulation.CmdDespawnEntity | seej/server/crates/sy_core/src/sim.rs:206-218 | Despawn, or the missing-entity error |
| Sim.Simulation.CmdCreateZone | seej/server/crates/sy_core/src/sim.rs:220-234 | New zone, or the already-exists error |
| Sim.Simulation.Checkpoint | seej/server/crates/sy_core/src/sim.rs:84-91 | The checkpoint is the whole state |
| Sim.Simulation.RestoreCheckpoint | seej/server/crates/sy_core/src/sim.rs:93-99 | Restoring gives back exactly the captured state, generator increment included |
| Sim.Simulation.LoadWorldState | seej/server/crates/sy_core/src/sim.rs:43-48 | Generator and clock are derived from the installed world |
| WorldModel.AddEntityKeepsWellFormed | seej/server/crates/sy_core/src/world.rs:203-213 | Adding an entity with a fresh allocated id in an existing zone keeps the world well formed |
| WorldModel.RemoveEntityKeepsWellFormed | seej/server/crates/sy_core/src/world.rs:216-226 | Removal keeps it well formed, zone list included |
| WorldModel.AddZoneKeepsWellFormed | seej/server/crates/sy_core/src/world.rs:257-259 | A fresh empty zone keeps it well formed |
| WorldModel.NewWorld | seej/server/crates/sy_core/src/world.rs:142-174 | A new world is well formed |
| WorldModel.World.AddEntity | seej/server/crates/sy_core/src/world.rs:203-213 | The map and zone list are updated together as specified |
| WorldModel.World.RemoveEntity | seej/server/crates/sy_core/src/world.rs:216-226 | Returns the removed entity and updates map and zone list |
| WorldModel.World.AllocateEntityId | seej/server/crates/sy_core/src/world.rs:196-200 | Returns the counter and advances it, wrapping |
| WorldModel.World.AdvanceTick | seej/server/crates/sy_core/src/world.rs:291-296 | Tick, time and metadata move together |
| History.RunKeepsSound | seej/server/crates/sy_core/src/sim.rs:102-130 | Every run from a sound state ends well formed, with generator and clock equal to what the world records |
| History.RunReplays | seej/server/crates/sy_core/src/replay.rs:444-453 | The events of any command sequence, failures included, replay from the first world to the last |
| History.RestartIsTransparent | seej/server/crates/sy_core/src/sim.rs:43-48 | Two synced simulations equal up to the cursor give identical results, events, generator and clock for every future |
| History.StepIgnoresCursor | seej/server/crates/sy_core/src/sim.rs:102-130 | No command reads or writes the recovery cursor |
| History.ReplayIgnoresCursor | seej/server/crates/sy_core/src/replay.rs:444-453 | Neither does replay |
| History.RunDependsOnCommandsOnly | seej/server/crates/sy_core/src/sim.rs:132-155 | Results and final state do not depend on the generator and clock that were passed in |
| History.BatchedTicksAreTicks | seej/server/crates/sy_core/src/sim.rs:116-121 | `TickN(n)` equals n single ticks: same state, concatenated events |
| Conservation.RunConserves | seej/server/crates/sy_core/src/sim.rs:247-334 | Over every run, for every living entity: spawn amount is current amount plus all depletions, spawn health is current health plus the number of degradations, computed from the log alone |
| Conservation.ReplayConserves | seej/server/crates/sy_core/src/replay.rs:362-415 | The same for every successful replay of accountable events |
| Conservation.PostKeepsBalance | seej/server/crates/sy_core/src/replay.rs:308-415 | Any event accepted by replay keeps every account balanced exactly when a degradation takes one point and a property change leaves amount and health at the value they had after narrowing |
| Lifecycle.RunKeepsOrderly | seej/server/crates/sy_core/src/sim.rs:236-334 | Over every run a dead entity is a resource with amount zero or a creature with health zero |
| Lifecycle.TickSystemsAge | seej/server/crates/sy_core/src/sim.rs:236-358 | A tick creates no entity, changes no dead one, and on a tick divisible by 100 leaves none dead |
| Lifecycle.DeadAreGoneWithinHundredTicks | seej/server/crates/sy_core/src/sim.rs:335-355 | Over any later run a dead entity stays unchanged while no tick divisible by 100 is reached and is gone for good afterwards, so within 100 ticks |
| Lifecycle.SpawnIdsNeverReused | seej/server/crates/sy_core/src/world.rs:196-200 | Ids in spawn events of any run are strictly increasing |
| CommandLaws.AppendLaw | seej/server/crates/sy_infra/src/store/wal.rs:448-472 | A batch is written exactly when its payload, numbered, is at most 16 MiB; otherwise the log is unchanged |
| WalLaws.WrittenRecordLaw | seej/server/crates/sy_infra/src/store/wal.rs:308-351 | A batch encodes exactly when it is nonempty and at most 16 MiB, to the literal record format: magic, version, length, last id and tick, payload, checksum of all before it |
| WalLaws.AcceptedRecordLaw | seej/server/crates/sy_infra/src/store/wal.rs:182-306 | Bytes are accepted as a record exactly when they have that format and the payload decodes to a nonempty batch ending in the event of the header |
| WalLaws.RecordDecodes | seej/server/crates/sy_infra/src/store/wal.rs:182-351 | An encoded record decodes to its events at its exact size, whatever follows |
| WalLaws.TornRecordRefused | seej/server/crates/sy_infra/src/store/wal.rs:182-287 | Every proper prefix of a record is refused, for any checksum function |
| WalLaws.ChecksumCoversBytes | seej/server/crates/sy_infra/src/store/wal.rs:182-306 | The checksum is computed over a header written again from the decoded fields; for every accepted record it equals the checksum of the bytes in the file |
| WalLaws.RecordStable | seej/server/crates/sy_infra/src/store/wal.rs:182-287 | A record accepted at an offset stays accepted when the file grows or is cut at or after its end, on arbitrary bytes |
| WalLaws.ScanConcat | seej/server/crates/sy_infra/src/store/wal.rs:113-179 | Scanning past a clean file continues with whatever follows |
| WalLaws.ValidPrefixIsClean | seej/server/crates/sy_infra/src/store/wal.rs:113-179 | The valid prefix of any file scans without error to the same events |
| WalLaws.TornWriteIsRepaired | seej/server/crates/sy_infra/src/store/wal.rs:113-179 | Clean records followed by a proper prefix of another: repair keeps exactly the records, cuts exactly the torn bytes, and the next append decodes |
| WalLaws.RecordsReadBack | seej/server/crates/sy_infra/src/store/wal.rs:406-440 | Any list of encoded batches is clean and reads back in order |
| WalLaws.RepairIsIdempotent | seej/server/crates/sy_infra/src/store/wal.rs:113-179 | Reopening what a repair left gives the same log, for any bytes |
| WalLaws.AnnouncedCursorIsTail | seej/server/crates/sy_infra/src/store/wal.rs:483-489 | For any bytes, count and last tick are those of the events read back, and the announced id is the last id exactly when that is not the largest 64-bit number |
| WalLaws.LargestIdIsForgotten | seej/server/crates/sy_infra/src/store/wal.rs:483-489 | The input on which the announced cursor is wrong: a record whose event already holds the largest id is announced as an empty log |
| WalLaws.ReadOnlyAgreesIffNoTail | seej/server/crates/sy_infra/src/store/wal.rs:406-440 | A read-only open reads what a repairing open reads exactly when there is no invalid tail, fails otherwise, and leaves the file alone |
| Wal.ReadRecords | seej/server/crates/sy_infra/src/store/wal.rs:406-440 | The reading loop computes the scan |
| Wal.AssignIds | seej/server/crates/sy_infra/src/store/wal.rs:453-459 | The numbering loop of a batch |
| Wal.FileEventLog.Recover | seej/server/crates/sy_infra/src/store/wal.rs:113-179 | The recovery loop on a fresh log gives the opened state, file truncated in repair mode only |
| Wal.FileEventLog.Append | seej/server/crates/sy_infra/src/store/wal.rs:392-403 | File bytes, counters and result of one append; nothing changes when encoding fails |
| Wal.FileEventLog.AppendAll | seej/server/crates/sy_infra/src/store/wal.rs:448-472 | The same for a batch, as one record |
| Wal.FileEventLog.TruncateTo | seej/server/crates/sy_infra/src/store/wal.rs:495-528 | The rewrite loop, stopping at the first failure |
| LogRefinement.FileLogRefinesMock | seej/server/crates/sy_infra/src/store/wal.rs:392-546 | Any sequence of successful appends, batches, truncations and reopenings returns the same events as the list log and leaves the file log refining it |
| LogRefinement.RefinedLogsAnswerAlike | seej/server/crates/sy_testkit/src/mocks/mod.rs:153-195 | Refinement means equal events, last id, last tick, length and filtered reads |
| LogRefinement.StepRefines | seej/server/crates/sy_infra/src/store/wal.rs:392-546 | Each operation keeps the refinement and returns the same |
| LogRefinement.AppendRefines | seej/server/crates/sy_infra/src/store/wal.rs:448-472 | A batch that encodes appends the same numbered events to both logs |
| LogRefinement.TruncateRefines | seej/server/crates/sy_infra/src/store/wal.rs:495-528 | On a log numbered from one truncation never fails, keeps a prefix and keeps the original ids |
| LogRefinement.TruncationKeepsIdsIffContiguous | seej/server/crates/sy_infra/src/store/wal.rs:495-528 | On any readable log truncation numbers what it keeps from one again. It succeeds exactly when every renumbered event fits the record limit; otherwise it stops with an error at the first that does not, the old file gone and the events before it rewritten. The ids survive exactly when it succeeds and the kept events were numbered 1..n |
| LogRefinement.RewriteStopsAtMisfit | seej/server/crates/sy_infra/src/store/wal.rs:517-525 | Rewriting events numbered from one restores those before the first event over the record limit, and fails there if there is one |
| LogRefinement.RewriteRestores | seej/server/crates/sy_infra/src/store/wal.rs:517-525 | Rewriting such events through appends that reassign ids restores every id |
| MockEventLog.MockLog.AppendAll | seej/server/crates/sy_testkit/src/mocks/mod.rs:145-151 | Pushes the batch with consecutive ids |
| MockEventLog.MockLog.TruncateTo | seej/server/crates/sy_testkit/src/mocks/mod.rs:178-186 | Retains the ids up to the given one |
| Snapshot.ValidateSnapshot | seej/server/crates/sy_infra/src/snapshot.rs:150-193 | The loops accept exactly when counters agree, ids are valid and below the counter, and each zone list enumerates its residents without duplicates; the final leftover-zone error is never returned |
| Snapshot.ValidateEntityIds | seej/server/crates/sy_infra/src/snapshot.rs:195-231 | Accepts exactly when keys match, are nonzero and lie below the counter |
| Snapshot.ValidateIndex | seej/server/crates/sy_infra/src/snapshot.rs:246-304 | Accepts exactly when every entity sits in a zone and every zone list is a duplicate-free enumeration of its residents |
| Snapshot.GroupByZone | seej/server/crates/sy_infra/src/snapshot.rs:246-260 | The grouping loop builds exactly the residents of each zone, or finds an entity outside every zone |
| Snapshot.MatchZones | seej/server/crates/sy_infra/src/snapshot.rs:262-304 | The zone loop accepts exactly when all lists enumerate, and then nothing is left over |
| Snapshot.CollectZone | seej/server/crates/sy_infra/src/snapshot.rs:262-290 | The inner loop accepts exactly duplicate-free lists of entities positioned in the zone |
| Snapshot.ValidIffWellFormed | seej/server/crates/sy_infra/src/snapshot.rs:150-193 | Validity of a snapshot is well-formedness of its world, stamped at its own tick |
| Snapshot.SavedWorldIsValid | seej/server/crates/sy_infra/src/runtime.rs:97-100 | What a save writes for a well-formed world passes validation and differs only in the cursor |
| Snapshot.SavedWorldDecodes | seej/server/crates/sy_infra/src/snapshot.rs:135-148 | It decodes back to itself |
| Snapshot.DtoRoundTrip | seej/server/crates/sy_infra/src/snapshot.rs:90-132 | The conversions are inverse in both directions |
| Snapshot.DecodeSnapshot | seej/server/crates/sy_infra/src/snapshot.rs:141-148 | Parse, validate, convert: exactly the decoding function |
| CanonicalHash.CanonicalBytesInjective | seej/server/crates/sy_core/src/determinism.rs:15-62 | Two worlds that feed the same bytes to the hasher are equal in every persisted field |
| CanonicalHash.WorldLayout | seej/server/crates/sy_core/src/determinism.rs:15-62 | Where metadata, counters, entities and zones lie in the stream, in ascending key order |
| CanonicalHash.EntityLayout | seej/server/crates/sy_core/src/determinism.rs:34-47 | Every field of an entity at its offset, with the literal kind and state tags |
| CanonicalHash.ZoneLayout | seej/server/crates/sy_core/src/determinism.rs:50-59 | Every field of a zone at its offset |
| CanonicalHash.IdsLayout | seej/server/crates/sy_core/src/determinism.rs:55-58 | Entity ids of a zone, eight bytes each |
| CanonicalHash.MetaLayout | seej/server/crates/sy_core/src/determinism.rs:18-26 | Every field of the metadata at its offset |
| CanonicalHash.EntityUndone | seej/server/crates/sy_core/src/determinism.rs:34-47 | The bytes of an entity determine it and the bytes that follow |
| CanonicalHash.ZoneUndone | seej/server/crates/sy_core/src/determinism.rs:50-59 | The bytes of a zone determine it and the bytes that follow |
| CanonicalHash.MetaUndone | seej/server/crates/sy_core/src/determinism.rs:18-26 | The bytes of the metadata determine it and the bytes that follow |
| CanonicalHash.StateHasher.ComputeCanonicalHash | seej/server/crates/sy_core/src/determinism.rs:15-62 | The writers feed exactly the canonical bytes |
| Checkpoints.PlainCheckpointLaw | seej/server/crates/sy_core/src/determinism.rs:174-195 | When no input ticks by itself, the checkpoints of a successful run stand exactly at the last tick and the multiples of the interval, ascending, each with the digest of the canonical bytes of the world at that tick |
| Checkpoints.CheckpointLaw | seej/server/crates/sy_core/src/determinism.rs:174-195 | In general: one checkpoint for each such round, at the tick its world stands at |
| Checkpoints.RoundTickLaw | seej/server/crates/sy_core/src/determinism.rs:174-183 | After n rounds the world stands at tick n plus the ticks that inputs due by then add |
| Schedule.RunDeterministic | seej/server/crates/sy_core/src/determinism.rs:148-200 | The runner succeeds exactly when every scheduled command does; its checkpoints are the hashes of the worlds of the plain run at the due ticks |
| Schedule.AgendaRunsEachDueInputOnce | seej/server/crates/sy_core/src/determinism.rs:175-187 | What is executed is exactly the inputs due before the end, each once, and one tick per tick |
| Schedule.SortIsStable | seej/server/crates/sy_core/src/determinism.rs:171-172 | The inputs are sorted by tick, and those of one tick keep their order |
| Schedule.RunInputs | seej/server/crates/sy_core/src/determinism.rs:178-183 | The inner loop executes the inputs of the tick, in order |
| Pcg32Output.OutputBits | seej/server/crates/sy_infra/src/rng/mod.rs:83-91 | Bit i of a draw is the exclusive or of the state bits 27 and 45 places above the position rotated by the five high bits |
| Pcg32Output.XorBits | seej/server/crates/sy_infra/src/rng/mod.rs:83-91 | Exclusive or, bit by bit |
| Pcg32Output.RotationBits | seej/server/crates/sy_infra/src/rng/mod.rs:83-91 | Rotation to the right, bit by bit |
| Pcg32Output.AdvanceIsLinear | seej/server/crates/sy_infra/src/rng/mod.rs:24-61 | A step takes the state to 6364136223846793005 times itself plus twice the seed plus one, modulo 2^64 |
| Pcg32Period.FullPeriod | seej/server/crates/sy_infra/src/rng/mod.rs:56-61 | For every seed and state, n steps return to the state exactly when n is a multiple of 2^64 |
| Pcg32Period.DistinctWithinPeriod | seej/server/crates/sy_infra/src/rng/mod.rs:56-61 | No state repeats within a period |
| Pcg32Period.EveryStateVisited | seej/server/crates/sy_infra/src/rng/mod.rs:8-61 | One period visits every 64-bit state |
| Pcg32Period.IterateIsAffine | seej/server/crates/sy_infra/src/rng/mod.rs:56-61 | n steps are one affine map modulo 2^64 |
| Pcg32Period.GeoDivisibility | seej/server/crates/sy_infra/src/rng/mod.rs:24-61 | For a multiplier congruent to 1 modulo 4, its geometric sum of n terms is divisible by 2^k exactly when n is |
| Pcg32.ChanceThresholds | seej/server/crates/sy_core/src/ports/rng.rs:39-70 | The two float draws are integer comparisons: `chance(0.01)` holds exactly when the 24 high bits are at most 167772, `chance(0.005)` at most 83886 |
| Pcg32.Pcg32Rng.NextU32 | seej/server/crates/sy_infra/src/rng/mod.rs:83-91 | Output of the old state, then one step |
| Pcg32.Pcg32Rng.RestoreSeeded | seej/server/crates/sy_infra/src/rng/mod.rs:77-81 | Seed, state and derived increment are replaced together |
| LittleEndian.ByteOfLE | seej/server/crates/sy_core/src/determinism.rs:81-96 | Byte i of an encoding is the value divided by 256^i, modulo 256 |
| LittleEndian.FromToLE | seej/server/crates/sy_core/src/determinism.rs:81-96 | Little-endian integers of k bytes decode to themselves |
| LittleEndian.ToFromLE | seej/server/crates/sy_infra/src/store/wal.rs:290-306 | Every byte string is the encoding of its value, so a header written again from its fields is the header read |

## Left out

- I/O errors that return without crashing the process (a failed write, fsync or rename): the repository lists them as an open gap, and bytes may be left behind without the counter advancing.
- Several processes writing the same world, compaction, genesis specifications and command journaling: documented as future work, not promised by the code.
- `serde_json` text, CRC32 and xxHash internals: arbitrary functions here, so no error-detection or collision claim is made.
- Filesystem calls, fsync, platform rename code and directory listing: the store is a set of directories and two maps of cells.
- A crash in the middle of `truncate_after`: the rewrite is not atomic in the source and the method is deprecated; only complete calls are modelled.
- Failure of JSON serialization of a snapshot: `encode_world` is total here.
- `load_snapshot_world`, with its strict metadata comparison, is not part of this model.
- `FixedStepClock`, `server_d`, `sy_cli`, logging, configuration and mods: plumbing without hard properties.
- `range_i32`, `range_u32`, `pick`, `next_u64`, `next_f64` and `manhattan_distance`: not used by any transition rule.
- `verify_determinism`: it compares two runs of the runner, which `History.RunDependsOnCommandsOnly` covers.
- The narrowing of a property value to 32 bits in replay is modelled as the remainder modulo 2^32, without a theorem of its own: the simulation never emits that event.
- LogRefinement.FileLogRefinesMock: assumes that every append succeeds and that the event counter has room; a failing append is covered by `Runtime.FailedCommandLeavesNode`.
- Conservation.RunConserves: stated on the events the simulation emits; which other events keep the accounts is `Conservation.PostKeepsBalance`.
- Schedule.RunDeterministic: a failing command makes the source panic; here the method returns no result exactly in that case.
