/** The persistent runtime: commit to the log before accepting state, save, and recover. */
module Runtime {
  import opened SyTypes
  import opened SyApi
  import opened WorldModel
  import opened Sim
  import opened Replay
  import opened Wal
  import opened WalLaws
  import opened LogRefinement
  import opened Snapshot

  datatype Codecs = Codecs(wal: Codec, snapshot: SnapshotCodec) {
    ghost predicate Lawful() {
      wal.Lawful() && snapshot.Lawful()
    }
  }

  /** The world directories: which exist, and the snapshot and metadata cells in them. */
  datatype Cells = Cells(dirs: set<Text>, snapshots: map<Text, seq<byte>>, metas: map<Text, WorldMeta>)

  datatype StorageStatus = Absent | Complete | Incomplete

  function StatusOf(store: Cells, id: Text): StorageStatus {
    if id !in store.dirs then Absent
    else if id in store.metas && id in store.snapshots then Complete
    else Incomplete
  }

  /** A running process: simulation, log (with its file) and store. The log file lives in the
      directory `logDir`. */
  datatype Node = Node(sim: SimState, log: LogState, logDir: Text, store: Cells)

  // ------------------------------------------------------------------------
  // Commands
  // ------------------------------------------------------------------------

  /** The checks `CreateWorld` must pass before the simulation sees it. */
  function CreateRefusal(n: Node, cmd: SimCommand): Option<ApiError> {
    if !cmd.CreateWorld? then None else
    match StatusOf(n.store, WorldIdOf(cmd.seed))
    case Complete => Some(WorldAlreadyExists(WorldIdOf(cmd.seed)))
    case Incomplete => Some(StorageError)
    case Absent => if n.log.totalEvents != 0 then Some(StorageError) else None
  }

  datatype Answer<T> = Answer(node: Node, result: Result<T, ApiError>)

  /** The node once `record` of a command's events is durable. */
  function Committed(n: Node, after: SimState, appended: LogState): Node {
    Node(after, appended, n.logDir, n.store.(dirs := n.store.dirs + {n.logDir}))
  }

  /** Append the batch a command produced; keep the new state if it is durable, else restore the
      checkpoint. */
  function CommitBatch(cs: Codecs, n: Node, checkpoint: SimState, events: seq<SimEvent>): Answer<seq<SimEvent>> {
    var appended := AppendBatch(cs.wal, n.log, events);
    match appended.result
    case Err(_) => Answer(n.(sim := checkpoint), Err(StorageError))
    case Ok(persisted) => Answer(if events == [] then n else Committed(n, n.sim, appended.log), Ok(persisted))
  }

  /** `process_command`. */
  function RunCommand(cs: Codecs, n: Node, cmd: SimCommand): Answer<seq<SimEvent>> {
    var refusal := CreateRefusal(n, cmd);
    if refusal.Some? then Answer(n, Err(refusal.value)) else
    var out := Step(n.sim, cmd);
    match out.result
    case Err(e) => Answer(n.(sim := out.state), Err(e))
    case Ok(events) => CommitBatch(cs, n.(sim := out.state), n.sim, events)
  }

  /** A command that fails, in validation, execution or encoding, leaves the process and its
      files exactly as they were. */
  lemma FailedCommandLeavesNode(cs: Codecs, n: Node, cmd: SimCommand)
    requires RunCommand(cs, n, cmd).result.Err?
    ensures RunCommand(cs, n, cmd).node == n
  {
    hide Step, AppendBatch;
    if Step(n.sim, cmd).result.Err? {
      FailedCommandIsInvisible(n.sim, cmd);
    }
  }

  // ------------------------------------------------------------------------
  // Save
  // ------------------------------------------------------------------------

  /** The world a save would write: stamped with its tick and the log cursor. */
  function WorldToSave(n: Node): Result<WorldState, ApiError> {
    if n.sim.world.None? then Err(NoWorldLoaded) else
    var w := n.sim.world.value;
    if n.log.LastEventId() < w.meta.lastEventId then Err(StorageError)
    else Ok(Stamped(w, n.log.LastEventId()))
  }

  function PutSnapshot(cs: Codecs, n: Node, w: WorldState): Node {
    var id := w.meta.worldId;
    n.(store := n.store.(dirs := n.store.dirs + {id},
                         snapshots := n.store.snapshots[id := EncodeWorld(cs.snapshot, w)]))
  }

  function PutMeta(n: Node, w: WorldState): Node {
    var id := w.meta.worldId;
    n.(store := n.store.(dirs := n.store.dirs + {id}, metas := n.store.metas[id := w.meta]))
  }

  function LoadedFrom(w: WorldState): SimState {
    SimState(Some(w), Pcg32.RngState(w.meta.seed, w.rngState), w.currentTick)
  }

  function Install(n: Node, w: WorldState): Node {
    n.(sim := LoadedFrom(w))
  }

  /** `save_world`: snapshot, then metadata, then the in-memory cursor. */
  function Save(cs: Codecs, n: Node): Answer<()> {
    match WorldToSave(n)
    case Err(e) => Answer(n, Err(e))
    case Ok(w) => Answer(Install(PutMeta(PutSnapshot(cs, n, w), w), w), Ok(()))
  }

  /** The cells after both writes of a save. */
  function SavedCells(cs: Codecs, c: Cells, w: WorldState): Cells {
    var id := w.meta.worldId;
    c.(dirs := c.dirs + {id}, snapshots := c.snapshots[id := EncodeWorld(cs.snapshot, w)],
       metas := c.metas[id := w.meta])
  }

  lemma SaveWrites(cs: Codecs, n: Node, w: WorldState)
    requires WorldToSave(n) == Ok(w)
    ensures Save(cs, n) == Answer(Node(LoadedFrom(w), n.log, n.logDir, SavedCells(cs, n.store, w)), Ok(()))
  {
    hide EncodeWorld, WorldToSave;
    assert n.store.dirs + {w.meta.worldId} + {w.meta.worldId} == n.store.dirs + {w.meta.worldId};
  }

  // ------------------------------------------------------------------------
  // Recovery
  // ------------------------------------------------------------------------

  /** `is_stale_meta_from_interrupted_save`. */
  predicate StaleMeta(snapshot: WorldMeta, file: WorldMeta) {
    && snapshot.worldId == file.worldId
    && snapshot.seed == file.seed
    && snapshot.formatVersion == file.formatVersion
    && snapshot.createdTick == file.createdTick
    && file.lastEventId < snapshot.lastEventId
    && file.snapshotTick <= snapshot.snapshotTick
    && file.currentTick <= snapshot.currentTick
    && file.simTime <= snapshot.simTime
  }

  predicate MetaAccepted(store: Cells, id: Text, snapshot: WorldMeta) {
    id in store.metas ==> store.metas[id] == snapshot || StaleMeta(snapshot, store.metas[id])
  }

  /** `n` saturating increments of `start`. */
  function Saturated(start: u64, n: nat): u64 {
    if start + n <= U64_MAX then start + n else U64_MAX
  }

  /** Ids count up from `start`, saturating. */
  ghost predicate CountsFrom(events: seq<SimEvent>, start: u64) {
    forall i :: 0 <= i < |events| ==> events[i].id == Saturated(start, i)
  }

  ghost predicate CoversTail(cursor: EventId, last: EventId, replayed: seq<SimEvent>) {
    CountsFrom(replayed, SatNext(cursor)) && Saturated(SatNext(cursor), |replayed|) == SatNext(last)
  }

  datatype Recovered = Recovered(world: WorldState, replayed: seq<SimEvent>)

  /** The checks and the replay made after the snapshot is accepted. */
  ghost function RecoverFrom(cs: Codecs, log: LogState, w: WorldState): Result<Recovered, SimError> {
    match ReadAll(cs.wal, log)
    case Err(e) => Err(e)
    case Ok(events) =>
      var cursor, durable := w.meta.lastEventId, LastIdOf(events);
      if log.LastEventId() != durable then Err(CorruptedState)
      else if !CountsFrom(events, 1) then Err(CorruptedState)
      else if durable < cursor then Err(CorruptedState)
      else
        var replayed := After(events, cursor);
        if !CoversTail(cursor, durable, replayed) then Err(CorruptedState) else
        var run := ReplayFrom(w, replayed);
        if run.failure.Some? then Err(CorruptedState) else Ok(Recovered(run.world, replayed))
  }

  /** `load_recovered_world`. */
  ghost function LoadRecovered(cs: Codecs, store: Cells, log: LogState, id: Text): Result<Recovered, SimError> {
    if !WorldIdValid(id) then Err(InvalidOperation)
    else if id !in store.snapshots then Err(NotFound)
    else
      match DecodeWorld(cs.snapshot, store.snapshots[id])
      case Err(e) => Err(e)
      case Ok(w) =>
        if w.meta.worldId != id then Err(CorruptedState)
        else if !MetaAccepted(store, id, w.meta) then Err(CorruptedState)
        else RecoverFrom(cs, log, w)
  }

  /** `load_world`. */
  ghost function Load(cs: Codecs, n: Node, id: Text): Answer<seq<SimEvent>> {
    match LoadRecovered(cs, n.store, n.log, id)
    case Err(e) => Answer(n, Err(if e == NotFound then WorldNotFound(id) else StorageError))
    case Ok(r) => Answer(Install(n, r.world), Ok(r.replayed))
  }

  /** The range checks accept exactly the logs numbered one to n with n the announced cursor and
      at least the snapshot cursor. Then the id filter drops exactly the first events up to the
      cursor, and the final coverage check cannot fail. */
  lemma RangeChecksAreExact(events: seq<SimEvent>, announced: EventId, cursor: EventId)
    requires |events| < U64_MAX
    ensures announced == LastIdOf(events) && CountsFrom(events, 1) && cursor <= LastIdOf(events)
       <==> Contiguous(events, 0) && announced == |events| && cursor <= |events|
    ensures Contiguous(events, 0) && cursor <= |events| ==>
      After(events, cursor) == events[cursor..] && CoversTail(cursor, LastIdOf(events), After(events, cursor))
  {
    if Contiguous(events, 0) {
      assert CountsFrom(events, 1);
      AfterDrops(events, cursor, 0);
    }
    if CountsFrom(events, 1) {
      assert Contiguous(events, 0);
    }
  }

  // ------------------------------------------------------------------------
  // The loops of the checks
  // ------------------------------------------------------------------------

  /** Advance an expected id over the events: the loop of both range checks. */
  method CountIds(events: seq<SimEvent>, start: u64) returns (expected: u64, ok: bool)
    ensures ok <==> CountsFrom(events, start)
    ensures ok ==> expected == Saturated(start, |events|)
  {
    expected := start;
    for i := 0 to |events|
      invariant forall j :: 0 <= j < i ==> events[j].id == Saturated(start, j)
      invariant expected == Saturated(start, i)
    {
      if events[i].id != expected {
        return expected, false;
      }
      expected := SatNext(expected);
    }
    ok := true;
  }

  /** `validate_wal_prefix_is_contiguous`. */
  method PrefixIsContiguous(events: seq<SimEvent>) returns (ok: bool)
    ensures ok <==> CountsFrom(events, 1)
  {
    var _, counted := CountIds(events, 1);
    ok := counted;
  }

  /** `validate_replay_covers_wal_tail`. */
  method ReplayCoversTail(cursor: EventId, last: EventId, replayed: seq<SimEvent>) returns (ok: bool)
    ensures ok <==> CoversTail(cursor, last, replayed)
  {
    var expected, counted := CountIds(replayed, SatNext(cursor));
    ok := counted && expected == SatNext(last);
  }

  // ------------------------------------------------------------------------
  // The runtime object
  // ------------------------------------------------------------------------

  class WorldStore {
    var cells: Cells

    constructor (c: Cells)
      ensures cells == c
    {
      cells := c;
    }

    method SaveSnapshot(id: Text, data: seq<byte>)
      modifies this
      ensures cells == old(cells).(dirs := old(cells).dirs + {id}, snapshots := old(cells).snapshots[id := data])
    {
      cells := cells.(dirs := cells.dirs + {id}, snapshots := cells.snapshots[id := data]);
    }

    method SaveMeta(meta: WorldMeta)
      modifies this
      ensures cells == old(cells).(dirs := old(cells).dirs + {meta.worldId},
                                   metas := old(cells).metas[meta.worldId := meta])
    {
      cells := cells.(dirs := cells.dirs + {meta.worldId}, metas := cells.metas[meta.worldId := meta]);
    }
  }

  class PersistentSimulation {
    const sim: Simulation
    const eventLog: FileEventLog
    const store: WorldStore
    const logDir: Text
    const codecs: Codecs

    ghost function Footprint(): set<object>
      reads this, sim, sim.Footprint(), eventLog
    {
      {this, eventLog, eventLog.path, store} + sim.Footprint()
    }

    ghost predicate Valid()
      reads this, sim, sim.Footprint(), eventLog
    {
      sim.Valid() && eventLog.codec == codecs.wal
    }

    ghost function State(): Node
      reads Footprint()
    {
      Node(sim.State(), eventLog.State(), logDir, store.cells)
    }

    constructor (s: Simulation, l: FileEventLog, st: WorldStore, dir: Text, cs: Codecs)
      requires s.Valid() && l.codec == cs.wal
      ensures Valid() && sim == s && eventLog == l && store == st && logDir == dir && codecs == cs
    {
      sim, eventLog, store, logDir, codecs := s, l, st, dir, cs;
    }

    method ProcessCommand(cmd: SimCommand) returns (r: Result<seq<SimEvent>, ApiError>)
      requires Valid()
      modifies Footprint()
      ensures Valid()
      ensures Answer(State(), r) == RunCommand(codecs, old(State()), cmd)
    {
      hide Step, CommitBatch, CreateRefusal;
      var refusal := CheckCreate(cmd);
      if refusal.Some? {
        return Err(refusal.value);
      }
      var checkpoint := sim.Checkpoint();
      var events := sim.ProcessCommand(cmd);
      if events.Err? {
        return Err(events.error);
      }
      r := Commit(events.value, checkpoint);
    }

    method Commit(events: seq<SimEvent>, checkpoint: SimState) returns (r: Result<seq<SimEvent>, ApiError>)
      requires Valid()
      modifies Footprint()
      ensures Valid()
      ensures Answer(State(), r) == CommitBatch(codecs, old(State()), checkpoint, events)
    {
      hide AppendBatch;
      var persisted := eventLog.AppendAll(events);
      if persisted.Err? {
        AppendFailureKeepsLog(codecs.wal, old(eventLog.State()), events);
        sim.RestoreCheckpoint(checkpoint);
        return Err(StorageError);
      }
      if events != [] {
        store.cells := store.cells.(dirs := store.cells.dirs + {logDir});
      } else {
        AppendNothing(codecs.wal, old(eventLog.State()));
      }
      r := Ok(persisted.value);
    }

    /** Storage and log checks before a world may be created. */
    method CheckCreate(cmd: SimCommand) returns (refusal: Option<ApiError>)
      requires Valid()
      ensures refusal == CreateRefusal(State(), cmd)
    {
      if cmd.CreateWorld? {
        var id := WorldIdOf(cmd.seed);
        match StatusOf(store.cells, id) {
          case Absent =>
          case Complete => return Some(WorldAlreadyExists(id));
          case Incomplete => return Some(StorageError);
        }
        if eventLog.totalEvents != 0 {
          return Some(StorageError);
        }
      }
      refusal := None;
    }

    method SaveWorld() returns (r: Result<(), ApiError>)
      requires Valid()
      modifies Footprint()
      ensures Valid()
      ensures Answer(State(), r) == Save(codecs, old(State()))
    {
      if sim.world == null {
        return Err(NoWorldLoaded);
      }
      var w := sim.world.Snapshot();
      var last := if eventLog.nextEventId > 1 then eventLog.nextEventId - 1 else 0;
      if last < w.meta.lastEventId {
        return Err(StorageError);
      }
      var meta := w.meta.(currentTick := w.currentTick, simTime := w.simTime,
                          snapshotTick := w.currentTick, lastEventId := last);
      w := w.(meta := meta);
      assert w == Stamped(old(sim.world.State()), last);
      hide Stamped, EncodeWorld, Save;
      SaveWrites(codecs, old(State()), w);
      store.SaveSnapshot(w.meta.worldId, EncodeWorld(codecs.snapshot, w));
      store.SaveMeta(w.meta);
      sim.LoadWorldState(w);
      r := Ok(());
    }

    method LoadRecoveredWorld(id: Text) returns (r: Result<Recovered, SimError>)
      requires Valid()
      ensures r == LoadRecovered(codecs, store.cells, eventLog.State(), id)
    {
      hide Scan, ReplayFrom, CountsFrom, CoversTail, DecodeWorld;
      if !WorldIdValid(id) {
        return Err(InvalidOperation);
      }
      if id !in store.cells.snapshots {
        return Err(NotFound);
      }
      var decoded := DecodeSnapshot(codecs.snapshot, store.cells.snapshots[id]);
      if decoded.Err? {
        return Err(decoded.error);
      }
      var w := decoded.value;
      if w.meta.worldId != id {
        return Err(CorruptedState);
      }
      if id in store.cells.metas {
        var meta := store.cells.metas[id];
        if w.meta != meta && !StaleMeta(w.meta, meta) {
          return Err(CorruptedState);
        }
      }
      r := ReplayTail(w);
    }

    method ReplayTail(w: WorldState) returns (r: Result<Recovered, SimError>)
      requires Valid()
      ensures r == RecoverFrom(codecs, eventLog.State(), w)
    {
      hide Scan, ReplayFrom, CountsFrom, CoversTail;
      var announced := if eventLog.nextEventId > 1 then eventLog.nextEventId - 1 else 0;
      var all := eventLog.ReadAllEvents();
      if all.Err? {
        return Err(all.error);
      }
      var events := all.value;
      var durable := LastIdOf(events);
      if announced != durable {
        return Err(CorruptedState);
      }
      var contiguous := PrefixIsContiguous(events);
      if !contiguous {
        return Err(CorruptedState);
      }
      if durable < w.meta.lastEventId {
        return Err(CorruptedState);
      }
      var replayed := After(events, w.meta.lastEventId);
      var covered := ReplayCoversTail(w.meta.lastEventId, durable, replayed);
      if !covered {
        return Err(CorruptedState);
      }
      var world := new World.FromState(w);
      var applied := ReplayEvents(world, replayed);
      if applied.Err? {
        return Err(CorruptedState);
      }
      var result := world.Snapshot();
      r := Ok(Recovered(result, replayed));
    }

    method LoadWorld(id: Text) returns (r: Result<seq<SimEvent>, ApiError>)
      requires Valid()
      modifies Footprint()
      ensures Valid()
      ensures Answer(State(), r) == Load(codecs, old(State()), id)
    {
      hide LoadRecovered;
      var loaded := LoadRecoveredWorld(id);
      if loaded.Err? {
        return Err(if loaded.error == NotFound then WorldNotFound(id) else StorageError);
      }
      sim.LoadWorldState(loaded.value.world);
      r := Ok(loaded.value.replayed);
    }
  }

  lemma AppendFailureKeepsLog(c: Codec, l: LogState, events: seq<SimEvent>)
    requires AppendBatch(c, l, events).result.Err?
    ensures AppendBatch(c, l, events).log == l
  {
    hide EncodeRecord;
  }

  lemma AppendNothing(c: Codec, l: LogState)
    ensures AppendBatch(c, l, []).log == l
  {
  }
}
