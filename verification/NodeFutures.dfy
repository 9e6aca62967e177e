/** Whole processes after a crash: what a recovered process answers and writes from then on,
    compared with the process that did not crash; and the one crash that is not invisible. */
module NodeFutures {
  import opened SyTypes
  import opened SyApi
  import opened Pcg32
  import opened Sim
  import opened History
  import opened Wal
  import opened WalLaws
  import opened Snapshot
  import opened Runtime
  import opened CrashProtocol
  import opened CrashSafety
  import opened RecoveryTheorems

  // ------------------------------------------------------------------------
  // Processes up to the cursor
  // ------------------------------------------------------------------------

  /** A process after a list of commands, and its answers. */
  datatype Served = Served(node: Node, answers: seq<Result<seq<SimEvent>, ApiError>>)

  function Serve(cs: Codecs, n: Node, cmds: seq<SimCommand>): Served
    decreases |cmds|
  {
    if cmds == [] then Served(n, []) else
    var before := Serve(cs, n, cmds[..|cmds| - 1]);
    var answer := RunCommand(cs, before.node, cmds[|cmds| - 1]);
    Served(answer.node, before.answers + [answer.result])
  }

  /** The process with another recovery cursor in memory: same log bytes, same cells. */
  function Reseated(n: Node, tick: Tick, id: EventId): Node {
    n.(sim := Moved(n.sim, tick, id))
  }

  lemma CommandIgnoresCursor(cs: Codecs, n: Node, cmd: SimCommand, tick: Tick, id: EventId)
    requires n.sim.world.Some?
    ensures var answer := RunCommand(cs, n, cmd);
      && answer.node.sim.world.Some?
      && RunCommand(cs, Reseated(n, tick, id), cmd) == Answer(Reseated(answer.node, tick, id), answer.result)
  {
    hide Step, AppendBatch;
    StepIgnoresCursor(n.sim, cmd, tick, id);
    StepKeepsWorldLoaded(n.sim, cmd);
  }

  lemma {:induction false} ServeIgnoresCursor(cs: Codecs, n: Node, cmds: seq<SimCommand>, tick: Tick, id: EventId)
    requires n.sim.world.Some?
    ensures var served := Serve(cs, n, cmds);
      && served.node.sim.world.Some?
      && Serve(cs, Reseated(n, tick, id), cmds) == Served(Reseated(served.node, tick, id), served.answers)
    decreases |cmds|
  {
    hide RunCommand, Reseated;
    if cmds == [] {
    } else {
      ServeIgnoresCursor(cs, n, cmds[..|cmds| - 1], tick, id);
      CommandIgnoresCursor(cs, Serve(cs, n, cmds[..|cmds| - 1]).node, cmds[|cmds| - 1], tick, id);
    }
  }

  // ------------------------------------------------------------------------
  // Directories
  // ------------------------------------------------------------------------

  function DiskIn(s: System): Disk {
    match s.process
    case Up(n, _) => DiskOf(n)
    case Down(d) => d
  }

  /** No step removes a directory or moves the log, and the log's directory exists once a batch is
      complete. */
  lemma DirectoriesStay(cs: Codecs, s: System, a: Action)
    requires Enabled(cs, s, a)
    ensures var disk, disk' := DiskIn(s), DiskIn(Next(cs, s, a));
      && disk'.logDir == disk.logDir && disk.store.dirs <= disk'.store.dirs
      && (Next(cs, s, a).history != s.history ==> disk'.logDir in disk'.store.dirs)
  {
    hide Step, AppendBatch, OpenLog, LoadRecovered, EncodeRecord, EncodeWorld, Stamped;
    if a.Do? && Step(s.process.node.sim, a.cmd).result.Ok? {
      StepEmits(s.process.node.sim, a.cmd);
    }
  }

  lemma {:induction false} DirectoriesStayAlong(cs: Codecs, states: seq<System>, actions: seq<Action>, i: nat, j: nat)
    requires IsRun(cs, states, actions) && i <= j < |states|
    ensures DiskIn(states[j]).logDir == DiskIn(states[i]).logDir
    ensures DiskIn(states[i]).store.dirs <= DiskIn(states[j]).store.dirs
    decreases j - i
  {
    hide Enabled, Next, DiskIn;
    if i == j {
    } else {
      DirectoriesStayAlong(cs, states, actions, i, j - 1);
      DirectoriesStay(cs, states[j - 1], actions[j - 1]);
    }
  }

  lemma {:induction false} LogDirectoryExists(cs: Codecs, states: seq<System>, actions: seq<Action>, i: nat)
    requires IsRun(cs, states, actions) && i < |states|
    requires exists dir, rng, clock :: states[0] == Start(dir, rng, clock)
    ensures states[i].history != [] ==> DiskIn(states[i]).logDir in DiskIn(states[i]).store.dirs
  {
    hide Enabled, Next, DiskIn;
    if i == 0 {
    } else {
      LogDirectoryExists(cs, states, actions, i - 1);
      DirectoriesStay(cs, states[i - 1], actions[i - 1]);
    }
  }

  lemma ReachableLogDirectoryExists(cs: Codecs, s: System)
    requires Reachable(cs, s) && s.history != []
    ensures DiskIn(s).logDir in DiskIn(s).store.dirs
  {
    hide IsRun, Start, DiskIn;
    var states, actions, i: nat :| Passes(cs, states, actions, i, s);
    LogDirectoryExists(cs, states, actions, i);
  }

  // ------------------------------------------------------------------------
  // A crash leaves the log of an uncrashed process
  // ------------------------------------------------------------------------

  lemma SameFileSameLog(cs: Codecs, l: LogState, h: seq<SimCommand>)
    requires Possible(h) && LogHolds(cs, l, h)
    ensures OpenLog(cs.wal, l.file, Repair) == l
  {
    hide Run, Scan, IdealLog, Possible;
    BootedLogHolds(cs, l.file, h);
    if l.file.Some? {
      assert l.file.value[..|l.file.value|] == l.file.value;
    }
  }

  lemma LoggedFileExists(cs: Codecs, l: LogState, h: seq<SimCommand>)
    requires Possible(h) && LogHolds(cs, l, h) && h != []
    ensures l.file == Some(l.Bytes())
  {
    hide Run, IdealLog, Possible, ParseRecord;
    IdealWorld(h);
    IdealLogShape(h);
    ScanNothing(cs.wal);
  }

  lemma TornLogIsRestored(cs: Codecs, l: LogState, h: seq<SimCommand>, events: seq<SimEvent>, written: nat)
    requires cs.Lawful() && Possible(h) && LogHolds(cs, l, h) && h != []
    requires EncodeRecord(cs.wal, events).Ok? && written < |EncodeRecord(cs.wal, events).value|
    ensures OpenLog(cs.wal, Some(l.Bytes() + EncodeRecord(cs.wal, events).value[..written]), Repair) == l
  {
    hide Run, Scan, IdealLog, EncodeRecord, OpenLog, Possible;
    LoggedFileExists(cs, l, h);
    SameFileSameLog(cs, l, h);
    TornWriteIsRepaired(cs.wal, l.Bytes(), events, written, events);
  }

  /** A load on a dead disk that carries the log and cells of a process with the ideal world gives
      back that process, up to the cursor. */
  lemma RecoversTo(cs: Codecs, s: System, n: Node, rng: RngState, clock: Tick, id: Text)
    requires cs.Lawful() && Inv(cs, s) && s.process.Down?
    requires n.sim.world.Some? && SimHolds(n.sim, s.history) && LogHolds(cs, n.log, s.history)
    requires OpenLog(cs.wal, s.process.disk.file, Repair) == n.log
    requires s.process.disk.logDir == n.logDir && s.process.disk.store == n.store
    requires id in n.store.snapshots
    ensures var recovered := Load(cs, Booted(cs, s.process.disk, rng, clock), id).node;
      && recovered.sim.world.Some?
      && var meta := recovered.sim.world.value.meta;
         recovered == Reseated(n, meta.snapshotTick, meta.lastEventId)
  {
    hide Run, Scan, IdealLog, SnapshotHolds, MetaHolds, LogHolds, LoadRecovered, OpenLog;
    PossibleHistory(cs, s);
    OnlyOwnSnapshot(cs, n.store, s, id);
    RecoveryIsExact(cs, n.log, n.store, s);
    IdealSynced(s.history);
  }

  // ------------------------------------------------------------------------
  // The theorem
  // ------------------------------------------------------------------------

  /** The process a crash is compared with: the one that went on. If the record of the command in
      progress is complete, that process has accepted it; otherwise it has not begun it. */
  function Survivor(cs: Codecs, n: Node, a: Action): Node {
    if a.DieAppending? && PendingRecord(cs, n, a.cmd).Ok? && a.written == |PendingRecord(cs, n, a.cmd).value|
    then RunCommand(cs, n, a.cmd).node
    else n
  }

  /** The survivor holds the log, the cells and the ideal world of the crashed disk. */
  lemma SurvivorMatchesDisk(cs: Codecs, s: System, a: Action)
    requires cs.Lawful() && Reachable(cs, s) && Enabled(cs, s, a) && (a.Die? || a.DieAppending?)
    requires s.process.node.sim.world.Some? && s.history != []
    ensures var n := Survivor(cs, s.process.node, a); var s' := Next(cs, s, a); var disk := s'.process.disk;
      && n.sim.world.Some? && SimHolds(n.sim, s'.history) && LogHolds(cs, n.log, s'.history)
      && OpenLog(cs.wal, disk.file, Repair) == n.log && disk.logDir == n.logDir && disk.store == n.store
  {
    hide Run, Step, Scan, IdealLog, SnapshotHolds, MetaHolds, LogHolds, SimHolds, Possible, Reachable;
    hide OpenLog, EncodeRecord, Numbered;
    ReachableHoldsInv(cs, s);
    var n := s.process.node;
    ReachableLogDirectoryExists(cs, s);
    if a.DieAppending? && a.written == |PendingRecord(cs, n, a.cmd).value| {
      CompleteAppendIsCommand(cs, s, a.cmd);
    } else if a.DieAppending? {
      TornLogIsRestored(cs, n.log, s.history, Numbered(Step(n.sim, a.cmd).result.value, n.log.nextEventId), a.written);
      assert n.store.dirs + {n.logDir} == n.store.dirs;
    } else {
      SameFileSameLog(cs, n.log, s.history);
    }
  }

  /** Dying with the record complete leaves the disk of the accepted command. */
  lemma CompleteAppendIsCommand(cs: Codecs, s: System, cmd: SimCommand)
    requires cs.Lawful() && Inv(cs, s) && s.process.Up? && s.process.node.sim.world.Some?
    requires PendingRecord(cs, s.process.node, cmd).Ok?
    requires Enabled(cs, s, DieAppending(cmd, |PendingRecord(cs, s.process.node, cmd).value|))
    ensures var n := RunCommand(cs, s.process.node, cmd).node;
      var s' := Next(cs, s, DieAppending(cmd, |PendingRecord(cs, s.process.node, cmd).value|));
      && n.sim.world.Some? && SimHolds(n.sim, s'.history) && LogHolds(cs, n.log, s'.history)
      && OpenLog(cs.wal, s'.process.disk.file, Repair) == n.log
      && s'.process.disk.logDir == n.logDir && s'.process.disk.store == n.store
  {
    hide Run, Step, Scan, IdealLog, SnapshotHolds, MetaHolds, LogHolds, SimHolds, Possible;
    hide OpenLog, EncodeRecord, Numbered, Advanced;
    var n, record := s.process.node, PendingRecord(cs, s.process.node, cmd).value;
    StepKeepsWorldLoaded(n.sim, cmd);
    StepEmits(n.sim, cmd);
    assert record[..|record|] == record;
    DoKeepsInv(cs, s, cmd);
    SameFileSameLog(cs, RunCommand(cs, n, cmd).node.log, s.history + [cmd]);
  }

  /** A crash is invisible to whoever uses the process. Kill it between any two steps, or inside an
      append, restart it and load its world: it is the surviving process up to the cursor, with the
      same log bytes and cells, and for every list of further commands it gives the same answers,
      event ids and refusals included, and again ends with the same log bytes and cells. */
  lemma CrashIsInvisible(cs: Codecs, s: System, a: Action, rng: RngState, clock: Tick, id: Text,
                         future: seq<SimCommand>)
    requires cs.Lawful() && Reachable(cs, s) && Enabled(cs, s, a) && (a.Die? || a.DieAppending?)
    requires s.process.node.sim.world.Some? && id in s.process.node.store.snapshots
    ensures var recovered := Load(cs, Booted(cs, Next(cs, s, a).process.disk, rng, clock), id).node;
      var survivor := Survivor(cs, s.process.node, a);
      && recovered.sim.world.Some?
      && var meta := recovered.sim.world.value.meta;
         var after := Serve(cs, survivor, future);
         && recovered == Reseated(survivor, meta.snapshotTick, meta.lastEventId)
         && Serve(cs, recovered, future)
            == Served(Reseated(after.node, meta.snapshotTick, meta.lastEventId), after.answers)
  {
    hide Load, Booted, Next, Enabled, Survivor, Serve, Reseated, Reachable, RunCommand;
    CrashedProcessIsSurvivor(cs, s, a, rng, clock, id);
    var survivor := Survivor(cs, s.process.node, a);
    var recovered := Load(cs, Booted(cs, Next(cs, s, a).process.disk, rng, clock), id).node;
    var meta := recovered.sim.world.value.meta;
    ServeIgnoresCursor(cs, survivor, future, meta.snapshotTick, meta.lastEventId);
  }

  lemma CrashedProcessIsSurvivor(cs: Codecs, s: System, a: Action, rng: RngState, clock: Tick, id: Text)
    requires cs.Lawful() && Reachable(cs, s) && Enabled(cs, s, a) && (a.Die? || a.DieAppending?)
    requires s.process.node.sim.world.Some? && id in s.process.node.store.snapshots
    ensures s.process.Up? && Next(cs, s, a).process.Down?
    ensures var recovered := Load(cs, Booted(cs, Next(cs, s, a).process.disk, rng, clock), id).node;
      var survivor := Survivor(cs, s.process.node, a);
      && survivor.sim.world.Some? && recovered.sim.world.Some?
      && var meta := recovered.sim.world.value.meta;
         recovered == Reseated(survivor, meta.snapshotTick, meta.lastEventId)
  {
    hide Load, Booted, Next, Survivor, Reseated, Reachable, RunCommand, Inv, SimHolds, LogHolds, OpenLog, PendingRecord;
    SnapshotMeansHistory(cs, s, a, id);
    SurvivorMatchesDisk(cs, s, a);
    CrashKeepsInv(cs, s, a);
    SnapshotsSurvive(cs, s, a, id);
    RecoversTo(cs, Next(cs, s, a), Survivor(cs, s.process.node, a), rng, clock, id);
  }

  lemma SnapshotMeansHistory(cs: Codecs, s: System, a: Action, id: Text)
    requires cs.Lawful() && Reachable(cs, s) && Enabled(cs, s, a) && (a.Die? || a.DieAppending?)
    requires id in s.process.node.store.snapshots
    ensures s.history != []
  {
    hide Run, Scan, IdealLog, SnapshotHolds, MetaHolds, LogHolds, SimHolds, Possible, Reachable, PendingRecord;
    ReachableHoldsInv(cs, s);
    OnlyOwnSnapshot(cs, s.process.node.store, s, id);
  }

  lemma CrashKeepsInv(cs: Codecs, s: System, a: Action)
    requires cs.Lawful() && Reachable(cs, s) && Enabled(cs, s, a) && (a.Die? || a.DieAppending?)
    ensures Inv(cs, Next(cs, s, a)) && Next(cs, s, a).process.Down?
  {
    hide Inv, Reachable, PendingRecord;
    ReachableHoldsInv(cs, s);
    NextKeepsInv(cs, s, a);
  }

  lemma SnapshotsSurvive(cs: Codecs, s: System, a: Action, id: Text)
    requires Enabled(cs, s, a) && (a.Die? || a.DieAppending?) && id in s.process.node.store.snapshots
    ensures id in Survivor(cs, s.process.node, a).store.snapshots
  {
    hide Step, AppendBatch, PendingRecord;
  }

  // ------------------------------------------------------------------------
  // The torn genesis
  // ------------------------------------------------------------------------

  lemma FirstCreationHasNoHistory(cs: Codecs, s: System, cmd: SimCommand)
    requires cs.Lawful() && Reachable(cs, s) && s.process.Up? && cmd.CreateWorld?
    requires PendingRecord(cs, s.process.node, cmd).Ok?
    ensures s.history == [] && s.process.node.sim.world.None?
    ensures s.process.node.log.nextEventId == 1 && WorldIdOf(cmd.seed) !in s.process.node.store.dirs
  {
    hide Run, Scan, IdealLog, SnapshotHolds, MetaHolds, SimHolds, Reachable, EncodeRecord, Numbered, WorldIdOf, Sound;
    ReachableHoldsInv(cs, s);
    PossibleHistory(cs, s);
    IdealWorld(s.history);
    IdealLogShape(s.history);
  }

  /** A disk without history holds no cell, and boots with an empty log. */
  lemma EmptyHistoryBoots(cs: Codecs, s: System)
    requires cs.Lawful() && Inv(cs, s) && s.process.Down? && s.history == []
    ensures s.process.disk.store.snapshots == map[] && s.process.disk.store.metas == map[]
    ensures var log := OpenLog(cs.wal, s.process.disk.file, Repair); log.totalEvents == 0 && log.nextEventId == 1
  {
    hide Run, Scan, OpenLog;
    BootedLogHolds(cs, s.process.disk.file, []);
    IdealLogShape([]);
    IdealWorld([]);
  }

  /** The exception, before any world exists: when the record torn by a crash is the genesis one,
      nothing is recovered, and the command can be given again exactly when the log does not live
      in the directory of the world. The append made that directory, and it is still there. */
  lemma TornGenesisIsRetriedIff(cs: Codecs, s: System, name: Text, seed: RngSeed, written: nat,
                                rng: RngState, clock: Tick)
    requires cs.Lawful() && Reachable(cs, s) && Enabled(cs, s, DieAppending(CreateWorld(name, seed), written))
    requires written < |PendingRecord(cs, s.process.node, CreateWorld(name, seed)).value|
    ensures var s' := Next(cs, s, DieAppending(CreateWorld(name, seed), written));
      var n := Booted(cs, s'.process.disk, rng, clock);
      var retry := RunCommand(cs, n, CreateWorld(name, seed));
      && s'.history == []
      && (retry.result.Ok? <==> n.logDir != WorldIdOf(seed))
      && (WorldIdOf(seed) in n.store.dirs <==> n.logDir == WorldIdOf(seed))
      && (retry.result.Err? ==> retry == Answer(n, Err(StorageError)))
  {
    hide Step, Inv, Reachable, OpenLog, EncodeRecord, Numbered, Advanced, WorldIdOf;
    var cmd := CreateWorld(name, seed);
    var s' := Next(cs, s, DieAppending(cmd, written));
    FirstCreationHasNoHistory(cs, s, cmd);
    CrashKeepsInv(cs, s, DieAppending(cmd, written));
    EmptyHistoryBoots(cs, s');
    StepWithoutWorld(s.process.node.sim, Booted(cs, s'.process.disk, rng, clock).sim, cmd);
    StepEmits(s.process.node.sim, cmd);
  }

  /** And so it stays: once a world's directory exists, every later process of the run refuses to
      create that world. */
  lemma DirectoryBlocksCreation(cs: Codecs, states: seq<System>, actions: seq<Action>, i: nat, j: nat, n: Node,
                                name: Text, seed: RngSeed)
    requires IsRun(cs, states, actions) && i <= j < |states| && Loads(cs, states[j], n)
    requires WorldIdOf(seed) in DiskIn(states[i]).store.dirs
    ensures RunCommand(cs, n, CreateWorld(name, seed)).result.Err?
    ensures RunCommand(cs, n, CreateWorld(name, seed)).node == n
  {
    hide IsRun, OpenLog, WorldIdOf, Step, CommitBatch;
    DirectoriesStayAlong(cs, states, actions, i, j);
  }
}
