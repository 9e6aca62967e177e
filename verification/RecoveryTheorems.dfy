/** What the crash protocol promises, stated on reachable states alone. */
module RecoveryTheorems {
  import opened SyTypes
  import opened SyApi
  import opened Pcg32
  import opened WorldModel
  import opened Sim
  import opened Replay
  import opened History
  import opened Wal
  import opened Snapshot
  import opened Runtime
  import opened CrashProtocol
  import opened CrashSafety

  /** Some run from a fresh process on an empty disk passes through `s`. */
  ghost predicate Reachable(cs: Codecs, s: System) {
    exists states, actions, i: nat :: Passes(cs, states, actions, i, s)
  }

  ghost predicate Passes(cs: Codecs, states: seq<System>, actions: seq<Action>, i: nat, s: System) {
    && IsRun(cs, states, actions) && i < |states| && states[i] == s
    && exists dir, rng, clock :: states[0] == Start(dir, rng, clock)
  }

  lemma ReachableHoldsInv(cs: Codecs, s: System)
    requires cs.Lawful() && Reachable(cs, s)
    ensures Inv(cs, s)
  {
    hide Inv, IsRun, Start;
    var states, actions, i: nat :| Passes(cs, states, actions, i, s);
    RunsKeepInv(cs, states, actions, i);
  }

  /** A log node from which a load can be made: a running process, or a fresh one on a dead disk. */
  ghost predicate Loads(cs: Codecs, s: System, n: Node) {
    match s.process
    case Up(m, _) => n == m
    case Down(d) => exists rng, clock :: n == Booted(cs, d, rng, clock)
  }

  lemma LoadingNodeHolds(cs: Codecs, s: System, n: Node)
    requires cs.Lawful() && Inv(cs, s) && Loads(cs, s, n)
    ensures LogHolds(cs, n.log, s.history) && StoreHolds(cs, n.store, s)
    ensures s.process.Down? ==> n.sim.world.None?
  {
    hide Run, Scan, IdealLog, SnapshotHolds, MetaHolds, LogHolds, SimHolds, OpenLog;
    if s.process.Down? {
      BootedLogHolds(cs, s.process.disk.file, s.history);
    }
  }

  /** Crash-recovery correctness. In every reachable state, running or crashed at any point,
      loading any world that has a snapshot succeeds; it installs exactly the world of the
      uninterrupted run of the commands whose batches are complete in the log, up to the cursor,
      with generator and clock in step; and it replays exactly the log after the cursor. */
  lemma RecoveryIsReplay(cs: Codecs, s: System, n: Node, id: Text)
    requires cs.Lawful() && Reachable(cs, s) && Loads(cs, s, n) && id in n.store.snapshots
    ensures var answer := Load(cs, n, id); var ideal := Ideal(s.history).state;
      && answer.result.Ok? && ideal.world.Some? && answer.node.sim.world.Some?
      && SameUpToCursor(answer.node.sim.world.value, ideal.world.value)
      && answer.node.sim.Synced()
      && var cursor := answer.node.sim.world.value.meta.lastEventId;
         cursor <= |IdealLog(s.history)| && answer.result.value == IdealLog(s.history)[cursor..]
    ensures Accepted(s.history)
  {
    hide Run, Step, Scan, IdealLog, SnapshotHolds, MetaHolds, LogHolds, LoadRecovered, Numbered;
    ReachableHoldsInv(cs, s);
    LoadingNodeHolds(cs, s, n);
    OnlyOwnSnapshot(cs, n.store, s, id);
    RecoveryIsExact(cs, n.log, n.store, s);
  }

  /** A crash inside an append leaves the command recovered whole or not at all: whole exactly
      when its record is complete. */
  lemma CrashedCommandIsWholeOrAbsent(cs: Codecs, s: System, cmd: SimCommand, written: nat, rng: RngState,
                                      clock: Tick, id: Text)
    requires cs.Lawful() && Reachable(cs, s) && Enabled(cs, s, DieAppending(cmd, written))
    requires id in s.process.node.store.snapshots
    ensures var record := PendingRecord(cs, s.process.node, cmd).value;
      var disk := Next(cs, s, DieAppending(cmd, written)).process.disk;
      var answer := Load(cs, Booted(cs, disk, rng, clock), id);
      var recovered := if written == |record| then s.history + [cmd] else s.history;
      && answer.result.Ok? && answer.node.sim.world.Some? && Ideal(recovered).state.world.Some?
      && SameUpToCursor(answer.node.sim.world.value, Ideal(recovered).state.world.value)
  {
    hide Run, Step, Scan, IdealLog, SnapshotHolds, MetaHolds, LogHolds, LoadRecovered;
    hide Numbered, EncodeRecord, OpenLog, SimHolds;
    ReachableHoldsInv(cs, s);
    var s' := Next(cs, s, DieAppending(cmd, written));
    DieAppendingKeepsInv(cs, s, cmd, written);
    var n := Booted(cs, s'.process.disk, rng, clock);
    LoadingNodeHolds(cs, s', n);
    OnlyOwnSnapshot(cs, n.store, s', id);
    RecoveryIsExact(cs, n.log, n.store, s');
  }

  lemma LogCount(cs: Codecs, l: LogState, h: seq<SimCommand>)
    requires LogHolds(cs, l, h)
    ensures l.totalEvents == |IdealLog(h)|
  {
  }

  /** Before the first snapshot nothing is promised, and nothing is guessed: a load reports that
      the world is missing, and a fresh process refuses to create a world over a logged one. */
  lemma OrphanLogIsRefused(cs: Codecs, s: System, n: Node, id: Text, name: Text, seed: RngSeed)
    requires cs.Lawful() && Reachable(cs, s) && Loads(cs, s, n)
    requires n.store.snapshots == map[] && s.history != []
    ensures Load(cs, n, id).result == Err(if WorldIdValid(id) then WorldNotFound(id) else StorageError)
    ensures RunCommand(cs, n, CreateWorld(name, seed)) == Answer(n, Err(StorageError))
  {
    hide Run, Scan, IdealLog, SnapshotHolds, MetaHolds, LogHolds, Sound, WorldIdValid, Step, CommitBatch, Inv;
    ReachableHoldsInv(cs, s);
    LoadingNodeHolds(cs, s, n);
    PossibleHistory(cs, s);
    IdealWorld(s.history);
    IdealLogShape(s.history);
    LogCount(cs, n.log, s.history);
    assert CreateRefusal(n, CreateWorld(name, seed)) == Some(StorageError);
  }

  /** The metadata mirror never blocks recovery: it is absent, equal to the snapshot's metadata, or
      recognisably left behind by an interrupted save. */
  lemma MetaNeverBlocks(cs: Codecs, s: System, n: Node, id: Text)
    requires cs.Lawful() && Reachable(cs, s) && Loads(cs, s, n) && id in n.store.metas
    ensures id in n.store.snapshots && DecodeWorld(cs.snapshot, n.store.snapshots[id]).Ok?
    ensures var snapshot := DecodeWorld(cs.snapshot, n.store.snapshots[id]).value.meta;
      n.store.metas[id] == snapshot || StaleMeta(snapshot, n.store.metas[id])
  {
    hide Run, Scan, IdealLog, LogHolds, DecodeWorld, StaleMeta, Sound;
    ReachableHoldsInv(cs, s);
    LoadingNodeHolds(cs, s, n);
    var h := s.history;
    var j, k := s.metaAt.value, s.savedAt.value;
    EarlierMetaIsAccepted(h, j, k);
    PossiblePrefix(h, k);
    IdealWorld(h[..k]);
    SoundWorld(Ideal(h[..k]).state);
    SavedWorldDecodes(cs.snapshot, Ideal(h[..k]).state.world.value, |Ideal(h[..k]).events|);
  }

  /** After recovery the future is the one the uninterrupted process would have had: the same
      results for every command, and the same world up to the cursor. */
  lemma RecoveredFutureIsUninterrupted(cs: Codecs, s: System, n: Node, id: Text, future: seq<SimCommand>)
    requires cs.Lawful() && Reachable(cs, s) && Loads(cs, s, n) && id in n.store.snapshots
    ensures var sim := Load(cs, n, id).node.sim; var ideal := Ideal(s.history).state;
      && Results(sim, future) == Results(ideal, future)
      && Run(sim, future).events == Run(ideal, future).events
      && Run(sim, future).state.world.Some? && Run(ideal, future).state.world.Some?
      && SameUpToCursor(Run(sim, future).state.world.value, Run(ideal, future).state.world.value)
  {
    hide Run, Step, Load, Inv, Numbered, Results;
    RecoveryIsReplay(cs, s, n, id);
    ReachableHoldsInv(cs, s);
    PossibleHistory(cs, s);
    IdealSynced(s.history);
    RestartIsTransparent(Load(cs, n, id).node.sim, Ideal(s.history).state, future);
  }

  lemma PossibleHistory(cs: Codecs, s: System)
    requires Inv(cs, s)
    ensures Possible(s.history)
  {
  }

  lemma IdealSynced(h: seq<SimCommand>)
    requires Possible(h)
    ensures Ideal(h).state.Synced()
  {
    hide Run;
    IdealWorld(h);
  }

  /** A save is invisible to the simulation: only the cursor moves, so every later command gives
      the same result and the same events. */
  lemma SaveIsInvisible(cs: Codecs, n: Node, future: seq<SimCommand>)
    requires n.sim.world.Some? && Sound(n.sim) && Save(cs, n).result.Ok?
    ensures var after := Save(cs, n).node.sim;
      && after == Moved(n.sim, n.sim.world.value.currentTick, n.log.LastEventId())
      && Results(after, future) == Results(n.sim, future)
      && Run(after, future).events == Run(n.sim, future).events
  {
    hide Run, Results, ReplayFrom;
    SavedWorldIsValid(n.sim.world.value, n.log.LastEventId());
    RunIgnoresCursor(n.sim, future, n.sim.world.value.currentTick, n.log.LastEventId());
  }

  /** Every snapshot a reachable system holds passes the validator. */
  lemma ReachableSnapshotsAreValid(cs: Codecs, s: System, n: Node, id: Text)
    requires cs.Lawful() && Reachable(cs, s) && Loads(cs, s, n) && id in n.store.snapshots
    ensures var d := cs.snapshot.decode(n.store.snapshots[id]);
      d.Some? && SnapshotValid(d.value) && FromDto(d.value).WellFormed()
  {
    hide Run, Scan, IdealLog, LogHolds, Sound, SnapshotValid;
    ReachableHoldsInv(cs, s);
    LoadingNodeHolds(cs, s, n);
    var h, k := s.history, s.savedAt.value;
    PossiblePrefix(h, k);
    IdealWorld(h[..k]);
    SoundWorld(Ideal(h[..k]).state);
    var w := Ideal(h[..k]).state.world.value;
    SavedWorldIsValid(w, |Ideal(h[..k]).events|);
    DtoRoundTrip(SavedWorld(h[..k]), ToDto(SavedWorld(h[..k])));
    assert cs.snapshot.decode(cs.snapshot.encode(ToDto(SavedWorld(h[..k])))) == Some(ToDto(SavedWorld(h[..k])));
  }

  /** In every reachable state with a loaded world a save succeeds: the log never lies behind the
      cursor of the world in memory. */
  lemma SaveNeverFails(cs: Codecs, s: System)
    requires cs.Lawful() && Reachable(cs, s) && s.process.Up? && s.process.node.sim.world.Some?
    ensures Save(cs, s.process.node).result.Ok?
    ensures s.process.stage.Idle? ==> Enabled(cs, s, BeginSave)
  {
    hide Run, Scan, IdealLog, SnapshotHolds, MetaHolds, LogHolds, SimHolds, SavedWorld;
    ReachableHoldsInv(cs, s);
    SaveWritesIdeal(cs, s.process.node, s.history);
  }

  lemma StartIsReachable(cs: Codecs, dir: Text, rng: RngState, clock: Tick)
    ensures Reachable(cs, Start(dir, rng, clock))
  {
    hide Start, Next, Enabled;
    assert Passes(cs, [Start(dir, rng, clock)], [], 0, Start(dir, rng, clock));
  }

  /** Reachability is closed under every enabled step. */
  lemma ReachableNext(cs: Codecs, s: System, a: Action)
    requires Reachable(cs, s) && Enabled(cs, s, a)
    ensures Reachable(cs, Next(cs, s, a))
  {
    hide Start, Next, Enabled;
    var states, actions, i: nat :| Passes(cs, states, actions, i, s);
    var states', actions' := states[..i + 1] + [Next(cs, s, a)], actions[..i] + [a];
    assert Passes(cs, states', actions', i + 1, Next(cs, s, a));
  }

  /** The first `CreateWorld` on an empty disk is enabled and accepted. */
  lemma CreationIsAccepted(cs: Codecs, dir: Text, rng: RngState, clock: Tick, name: Text, seed: RngSeed)
    requires CommandValid(CreateWorld(name, seed))
    requires EncodeRecord(cs.wal, Numbered(CreateIn(BLANK, name, seed).events, 1)).Ok?
    ensures var start, cmd := Start(dir, rng, clock), CreateWorld(name, seed);
      && Enabled(cs, start, Do(cmd))
      && var next := Next(cs, start, Do(cmd));
         && next.process.Up? && next.process.stage.Idle? && next.history == [cmd]
         && next.process.node.sim.world == Some(NewWorld(name, seed))
  {
    hide Scan, EncodeRecord, Numbered, Advanced, WorldIdOf;
    var cmd := CreateWorld(name, seed);
    var s0 := Start(dir, rng, clock);
    assert Step(s0.process.node.sim, cmd).result == Ok(CreateIn(BLANK, name, seed).events);
  }

  /** What `BeginSave` writes is found under the id of the world. */
  lemma SavedIsFound(cs: Codecs, s: System)
    requires Enabled(cs, s, BeginSave)
    ensures var s' := Next(cs, s, BeginSave);
      s'.process.Up? && s'.history == s.history
      && s.process.node.sim.world.value.meta.worldId in s'.process.node.store.snapshots
  {
    hide EncodeWorld;
  }

  /** The states the recovery theorems speak of exist: from any empty disk, creating a world whose
      genesis record encodes and saving it leads to a reachable state with a snapshot. */
  lemma FirstSaveIsReachable(cs: Codecs, dir: Text, rng: RngState, clock: Tick, name: Text, seed: RngSeed)
    requires cs.Lawful() && CommandValid(CreateWorld(name, seed))
    requires EncodeRecord(cs.wal, Numbered(CreateIn(BLANK, name, seed).events, 1)).Ok?
    ensures var saved := Next(cs, Next(cs, Start(dir, rng, clock), Do(CreateWorld(name, seed))), BeginSave);
      && Reachable(cs, saved) && saved.process.Up? && saved.history == [CreateWorld(name, seed)]
      && WorldIdOf(seed) in saved.process.node.store.snapshots
  {
    hide Start, Next, Enabled, Reachable, Save, EncodeRecord, Numbered;
    StartIsReachable(cs, dir, rng, clock);
    CreationIsAccepted(cs, dir, rng, clock, name, seed);
    var created := Next(cs, Start(dir, rng, clock), Do(CreateWorld(name, seed)));
    ReachableNext(cs, Start(dir, rng, clock), Do(CreateWorld(name, seed)));
    SaveNeverFails(cs, created);
    ReachableNext(cs, created, BeginSave);
    SavedIsFound(cs, created);
  }
}
