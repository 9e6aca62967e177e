/** The crash-recovery protocol as a transition system: commands, saves in three steps, crashes
    between any two steps and inside an append, restarts and loads. Main result: in every
    reachable state that has a snapshot, recovery succeeds and gives exactly the world of the
    commands whose batches are complete in the log. */
module CrashProtocol {
  import opened SyTypes
  import opened SyApi
  import opened Pcg32
  import opened WorldModel
  import opened Sim
  import opened Replay
  import opened LiveReplay
  import opened History
  import opened Wal
  import opened WalLaws
  import opened LogRefinement
  import opened Snapshot
  import opened Runtime

  // ------------------------------------------------------------------------
  // The ideal run
  // ------------------------------------------------------------------------

  /** The uninterrupted run of a list of commands, from nothing. */
  function Ideal(h: seq<SimCommand>): Past {
    Run(BLANK, h)
  }

  /** The log of the ideal run: its events numbered from one. */
  function IdealLog(h: seq<SimCommand>): seq<SimEvent> {
    Numbered(Ideal(h).events, 1)
  }

  ghost predicate Accepted(h: seq<SimCommand>) {
    forall i {:trigger Ideal(h[..i])} :: 0 <= i < |h| ==> Step(Ideal(h[..i]).state, h[i]).result.Ok?
  }

  /** A history that can have happened: every command accepted, no counter exhausted. */
  ghost predicate Possible(h: seq<SimCommand>) {
    Accepted(h) && Roomy(BLANK, h) && |Ideal(h).events| < U64_MAX
  }

  /** The world a save after `h` writes. */
  function SavedWorld(h: seq<SimCommand>): WorldState
    requires Ideal(h).state.world.Some? && |Ideal(h).events| <= U64_MAX
  {
    Stamped(Ideal(h).state.world.value, |Ideal(h).events| as u64)
  }

  // ------------------------------------------------------------------------
  // The transition system
  // ------------------------------------------------------------------------

  /** What survives a crash. */
  datatype Disk = Disk(file: Option<seq<byte>>, logDir: Text, store: Cells)

  /** Where a running process is inside `save_world`. */
  datatype Stage = Idle | SnapshotDone(saved: WorldState) | MetaDone(saved: WorldState)

  datatype Process = Up(node: Node, stage: Stage) | Down(disk: Disk)

  /** A system state with its history: the commands whose batches are complete in the log, and
      how many of them the snapshot and the metadata file cover. */
  datatype System = System(process: Process, history: seq<SimCommand>, savedAt: Option<nat>, metaAt: Option<nat>)

  datatype Action =
    | Do(cmd: SimCommand)
    | DieAppending(cmd: SimCommand, written: nat)
    | BeginSave
    | SaveMeta
    | EndSave
    | Die
    | Boot(rng: RngState, clock: Tick)
    | LoadWorld(id: Text)

  function DiskOf(n: Node): Disk {
    Disk(n.log.file, n.logDir, n.store)
  }

  /** A fresh process on a disk: the log repaired, no world loaded. */
  function Booted(cs: Codecs, d: Disk, rng: RngState, clock: Tick): Node {
    Node(SimState(None, rng, clock), OpenLog(cs.wal, d.file, Repair), d.logDir, d.store)
  }

  /** The record an accepted command is about to append. */
  function PendingRecord(cs: Codecs, n: Node, cmd: SimCommand): Result<seq<byte>, SimError> {
    var out := Step(n.sim, cmd);
    if CreateRefusal(n, cmd).Some? || out.result.Err? then Err(InvalidOperation)
    else EncodeRecord(cs.wal, Numbered(out.result.value, n.log.nextEventId))
  }

  /** The counters have room for the command. */
  ghost predicate CountersAllow(n: Node, cmd: SimCommand) {
    RoomIn(n.sim, cmd) && n.log.nextEventId + |EventsOf(Step(n.sim, cmd))| <= U64_MAX
  }

  ghost predicate Enabled(cs: Codecs, s: System, a: Action) {
    match a
    case Do(cmd) => s.process.Up? && s.process.stage.Idle? && CountersAllow(s.process.node, cmd)
    case DieAppending(cmd, written) =>
      s.process.Up? && s.process.stage.Idle? && CountersAllow(s.process.node, cmd)
      && PendingRecord(cs, s.process.node, cmd).Ok? && written <= |PendingRecord(cs, s.process.node, cmd).value|
    case BeginSave => s.process.Up? && s.process.stage.Idle? && WorldToSave(s.process.node).Ok?
    case SaveMeta => s.process.Up? && s.process.stage.SnapshotDone?
    case EndSave => s.process.Up? && s.process.stage.MetaDone?
    case Die => s.process.Up?
    case Boot(_, _) => s.process.Down?
    case LoadWorld(_) => s.process.Up? && s.process.stage.Idle?
  }

  ghost function Next(cs: Codecs, s: System, a: Action): System
    requires Enabled(cs, s, a)
  {
    match a
    case Do(cmd) =>
      var answer := RunCommand(cs, s.process.node, cmd);
      s.(process := Up(answer.node, Idle),
         history := if answer.result.Ok? then s.history + [cmd] else s.history)
    case DieAppending(cmd, written) =>
      var n := s.process.node;
      var record := PendingRecord(cs, n, cmd).value;
      s.(process := Down(Disk(Some(n.log.Bytes() + record[..written]), n.logDir,
                              n.store.(dirs := n.store.dirs + {n.logDir}))),
         history := if written == |record| then s.history + [cmd] else s.history)
    case BeginSave =>
      var w := WorldToSave(s.process.node).value;
      s.(process := Up(PutSnapshot(cs, s.process.node, w), SnapshotDone(w)), savedAt := Some(|s.history|))
    case SaveMeta =>
      var w := s.process.stage.saved;
      s.(process := Up(PutMeta(s.process.node, w), MetaDone(w)), metaAt := s.savedAt)
    case EndSave => s.(process := Up(Install(s.process.node, s.process.stage.saved), Idle))
    case Die => s.(process := Down(DiskOf(s.process.node)))
    case Boot(rng, clock) => s.(process := Up(Booted(cs, s.process.disk, rng, clock), Idle))
    case LoadWorld(id) => s.(process := Up(Load(cs, s.process.node, id).node, Idle))
  }

  /** A first process on an empty disk. */
  function Start(logDir: Text, rng: RngState, clock: Tick): System {
    System(Up(Node(SimState(None, rng, clock), EMPTY_LOG, logDir, Cells({}, map[], map[])), Idle), [], None, None)
  }

  /** A run of the system: each action enabled in the state before it, and leading to the next. */
  ghost predicate IsRun(cs: Codecs, states: seq<System>, actions: seq<Action>) {
    && |states| == |actions| + 1
    && forall i :: 0 <= i < |actions| ==>
         Enabled(cs, states[i], actions[i]) && states[i + 1] == Next(cs, states[i], actions[i])
  }

  // ------------------------------------------------------------------------
  // Facts about ideal runs
  // ------------------------------------------------------------------------

  lemma PossiblePrefix(h: seq<SimCommand>, k: nat)
    requires Possible(h) && k <= |h|
    ensures Possible(h[..k])
    decreases |h| - k
  {
    hide Step, Run;
    assert forall i :: 0 <= i <= k ==> h[..k][..i] == h[..i];
    EventsOfPrefix(h, k);
  }

  lemma {:induction false} EventsOfPrefix(h: seq<SimCommand>, k: nat)
    requires k <= |h|
    ensures Ideal(h[..k]).events <= Ideal(h).events
    decreases |h|
  {
    hide Step;
    if k == |h| {
      assert h[..k] == h;
    } else {
      var front := h[..|h| - 1];
      EventsOfPrefix(front, k);
      assert front[..k] == h[..k];
    }
  }

  /** Every accepted command emits an event. */
  lemma StepEmits(s: SimState, cmd: SimCommand)
    requires Step(s, cmd).result.Ok?
    ensures Step(s, cmd).result.value != []
    ensures Step(s, cmd).state.world.Some?
  {
    hide TickSystems;
    if cmd.TickN? {
      TickManyFailsAtOnce(s, cmd.n);
      TickManyEmits(s, cmd.n);
    }
  }

  lemma {:induction false} TickManyEmits(s: SimState, n: nat)
    requires s.world.Some? && n > 0
    ensures TickManyIn(s, n).events != []
  {
    hide TickSystems;
    TickManyFailsAtOnce(s, n - 1);
  }

  /** Identity facts a step keeps, and the tick it never turns back. */
  predicate SameWorldLater(a: WorldState, b: WorldState) {
    && a.meta.worldId == b.meta.worldId && a.meta.seed == b.meta.seed
    && a.meta.formatVersion == b.meta.formatVersion && a.meta.createdTick == b.meta.createdTick
    && a.currentTick <= b.currentTick
  }

  lemma TickLater(s: SimState)
    requires s.world.Some?
    ensures var w' := TickIn(s).state.world; w'.Some? && SameWorldLater(s.world.value, w'.value)
  {
    hide TickSystems, ReplayFrom;
    TickSystemsTrack(s.world.value.AdvanceTick(), s.rng.state, s.rng.seed);
  }

  lemma {:induction false} TickManyLater(s: SimState, n: nat)
    requires s.world.Some?
    ensures var w' := TickManyIn(s, n).state.world; w'.Some? && SameWorldLater(s.world.value, w'.value)
  {
    hide TickIn;
    if n == 0 {
    } else {
      TickManyLater(s, n - 1);
      TickManyFailsAtOnce(s, n - 1);
      TickLater(TickManyIn(s, n - 1).state);
    }
  }

  lemma StepLater(s: SimState, cmd: SimCommand)
    requires s.world.Some? && Step(s, cmd).result.Ok?
    ensures var w' := Step(s, cmd).state.world; w'.Some? && SameWorldLater(s.world.value, w'.value)
  {
    hide TickIn, TickManyIn;
    match cmd {
      case TickOnce => TickLater(s);
      case TickN(n) => TickManyLater(s, n);
      case _ =>
    }
  }

  lemma CreationFixesIdentity(s: SimState, cmd: SimCommand)
    requires s.world.None? && Step(s, cmd).result.Ok?
    ensures cmd.CreateWorld? && Step(s, cmd).state.world == Some(NewWorld(cmd.worldName, cmd.seed))
  {
    hide TickManyIn;
    if cmd.TickN? {
      TickManyFailsAtOnce(s, cmd.n);
    }
  }

  /** A nonempty possible history has a sound world with a valid id, and at least as many events
      as commands. */
  lemma {:induction false} IdealWorld(h: seq<SimCommand>)
    requires Possible(h)
    ensures Sound(Ideal(h).state) && |Ideal(h).events| >= |h|
    ensures if h == [] then Ideal(h) == Past(BLANK, []) else
      Ideal(h).state.world.Some? && WorldIdValid(Ideal(h).state.world.value.meta.worldId)
    decreases |h|
  {
    hide Step, Sound, WorldIdValid;
    RunKeepsSound(BLANK, h) by { BlankIsSound(); }
    if h == [] {
    } else {
      var front, cmd := h[..|h| - 1], h[|h| - 1];
      PossiblePrefix(h, |h| - 1);
      IdealWorld(front);
      var before := Ideal(front).state;
      StepEmits(before, cmd);
      if before.world.Some? {
        StepLater(before, cmd);
      } else {
        CreationFixesIdentity(before, cmd);
      }
    }
  }

  lemma BlankIsSound()
    ensures Sound(BLANK)
  {
  }

  /** Between two points of a possible history the world is the same one, later; with no event in
      between, the points coincide. */
  lemma {:induction false} IdealLater(h: seq<SimCommand>, k: nat)
    requires Possible(h) && 0 < k <= |h|
    ensures Ideal(h[..k]).state.world.Some? && Ideal(h).state.world.Some?
    ensures SameWorldLater(Ideal(h[..k]).state.world.value, Ideal(h).state.world.value)
    ensures |Ideal(h[..k]).events| + (|h| - k) <= |Ideal(h).events|
    decreases |h|
  {
    hide Step, Run, Sound;
    PossiblePrefix(h, k);
    IdealWorld(h[..k]);
    if k == |h| {
      assert h[..k] == h;
    } else {
      var front, cmd := h[..|h| - 1], h[|h| - 1];
      PossiblePrefix(h, |h| - 1);
      IdealLater(front, k);
      assert front[..k] == h[..k];
      LastCommand(h);
      StepEmits(Ideal(front).state, cmd);
      StepLater(Ideal(front).state, cmd);
    }
  }

  /** The last command of a history is accepted, and adds its events. */
  lemma LastCommand(h: seq<SimCommand>)
    requires Accepted(h) && h != []
    ensures var before := Ideal(h[..|h| - 1]); var out := Step(before.state, h[|h| - 1]);
      out.result.Ok? && Ideal(h) == Past(out.state, before.events + out.result.value)
  {
    hide Step;
  }

  lemma {:induction false} RunSplits(s: SimState, a: seq<SimCommand>, b: seq<SimCommand>)
    ensures var left := Run(s, a); var right := Run(left.state, b);
      Run(s, a + b) == Past(right.state, left.events + right.events)
    decreases |b|
  {
    hide Step;
    if b == [] {
      assert a + b == a;
      assert Run(s, a).events + [] == Run(s, a).events;
    } else {
      var front := b[..|b| - 1];
      assert (a + b)[..|a + b| - 1] == a + front;
      RunSplits(s, a, front);
    }
  }

  lemma RoomySuffix(h: seq<SimCommand>, k: nat)
    requires Roomy(BLANK, h) && k <= |h|
    ensures Roomy(Ideal(h[..k]).state, h[k..])
  {
    hide Step, Run, RoomIn;
    forall i | 0 <= i < |h[k..]|
      ensures RoomIn(Run(Ideal(h[..k]).state, h[k..][..i]).state, h[k..][i])
    {
      RunSplits(BLANK, h[..k], h[k..][..i]);
      assert h[..k] + h[k..][..i] == h[..k + i];
    }
  }

  /** The events after a point of the history replay from its world to the final one. */
  lemma TailReplays(h: seq<SimCommand>, k: nat)
    requires Possible(h) && 0 < k <= |h|
    ensures Ideal(h[..k]).state.world.Some? && Ideal(h).state.world.Some?
    ensures Ideal(h[..k]).events <= Ideal(h).events
    ensures Replays(Ideal(h[..k]).state.world.value,
                    Ideal(h).events[|Ideal(h[..k]).events|..], Ideal(h).state.world.value)
  {
    hide Step, Run, ReplayFrom, Sound;
    PossiblePrefix(h, k);
    IdealWorld(h[..k]);
    EventsOfPrefix(h, k);
    RoomySuffix(h, k);
    RunSplits(BLANK, h[..k], h[k..]);
    assert h[..k] + h[k..] == h;
    SoundWorld(Ideal(h[..k]).state);
    RunReplays(Ideal(h[..k]).state, h[k..]);
    var tail := Run(Ideal(h[..k]).state, h[k..]).events;
    assert Ideal(h).events[|Ideal(h[..k]).events|..] == tail;
  }

  lemma SoundWorld(s: SimState)
    requires Sound(s)
    ensures s.world.Some? ==> s.world.value.WellFormed()
  {
  }

  // ------------------------------------------------------------------------
  // The invariant
  // ------------------------------------------------------------------------

  ghost predicate Savable(h: seq<SimCommand>) {
    Ideal(h).state.world.Some? && |Ideal(h).events| <= U64_MAX
  }

  /** The log of a running process holds exactly the ideal log, with matching cursors. */
  ghost predicate LogHolds(cs: Codecs, l: LogState, h: seq<SimCommand>) {
    && Clean(cs.wal, l.Bytes()) && Scan(cs.wal, l.Bytes()).events == IdealLog(h)
    && l.nextEventId == |IdealLog(h)| + 1
    && l.lastTick == TickOfLast(IdealLog(h))
    && l.totalEvents == |IdealLog(h)|
    && l.readError.None?
  }

  /** A file left by a crash reads as the ideal log, perhaps before a torn tail. */
  ghost predicate FileHolds(cs: Codecs, file: Option<seq<byte>>, h: seq<SimCommand>) {
    Scan(cs.wal, FileBytes(file)).events == IdealLog(h)
  }

  /** A cell holds what a save after the first `at` commands wrote. */
  ghost predicate SnapshotHolds(cs: Codecs, snapshots: map<Text, seq<byte>>, h: seq<SimCommand>, at: Option<nat>) {
    match at
    case None => snapshots == map[]
    case Some(k) =>
      0 < k <= |h| && Savable(h[..k])
      && snapshots == map[SavedWorld(h[..k]).meta.worldId := EncodeWorld(cs.snapshot, SavedWorld(h[..k]))]
  }

  ghost predicate MetaHolds(metas: map<Text, WorldMeta>, h: seq<SimCommand>, at: Option<nat>) {
    match at
    case None => metas == map[]
    case Some(k) =>
      0 < k <= |h| && Savable(h[..k])
      && metas == map[SavedWorld(h[..k]).meta.worldId := SavedWorld(h[..k]).meta]
  }

  ghost predicate StoreHolds(cs: Codecs, store: Cells, s: System) {
    && SnapshotHolds(cs, store.snapshots, s.history, s.savedAt)
    && MetaHolds(store.metas, s.history, s.metaAt)
    && (s.metaAt.Some? ==> s.savedAt.Some? && s.metaAt.value <= s.savedAt.value)
  }

  /** A loaded world is the ideal one up to the cursor, mirrored by generator and clock. */
  ghost predicate SimHolds(sim: SimState, h: seq<SimCommand>) {
    sim.world.Some? ==>
      && h != [] && Ideal(h).state.world.Some?
      && sim == Moved(Ideal(h).state, sim.world.value.meta.snapshotTick, sim.world.value.meta.lastEventId)
      && sim.world.value.meta.lastEventId <= |Ideal(h).events|
  }

  ghost predicate StageHolds(s: System, n: Node, stage: Stage) {
    match stage
    case Idle => true
    case SnapshotDone(w) =>
      n.sim.world.Some? && s.savedAt == Some(|s.history|) && Savable(s.history) && w == SavedWorld(s.history)
    case MetaDone(w) =>
      n.sim.world.Some? && s.savedAt == Some(|s.history|) && s.metaAt == s.savedAt
      && Savable(s.history) && w == SavedWorld(s.history)
  }

  ghost predicate Inv(cs: Codecs, s: System) {
    && Possible(s.history)
    && match s.process
       case Up(n, stage) =>
         LogHolds(cs, n.log, s.history) && SimHolds(n.sim, s.history)
         && StoreHolds(cs, n.store, s) && StageHolds(s, n, stage)
       case Down(d) => FileHolds(cs, d.file, s.history) && StoreHolds(cs, d.store, s)
  }

  // ------------------------------------------------------------------------
  // Recovery from the invariant
  // ------------------------------------------------------------------------

  lemma IdealLogShape(h: seq<SimCommand>)
    requires Possible(h)
    ensures |IdealLog(h)| == |Ideal(h).events| && Contiguous(IdealLog(h), 0)
    ensures LastIdOf(IdealLog(h)) == |IdealLog(h)|
  {
    hide Run, Numbered;
    NumberedContiguous(Ideal(h).events, 1);
  }

  /** The metadata file of an earlier or equal save is accepted beside the snapshot. */
  lemma EarlierMetaIsAccepted(h: seq<SimCommand>, j: nat, k: nat)
    requires Possible(h) && 0 < j <= k <= |h|
    ensures Savable(h[..j]) && Savable(h[..k])
    ensures var earlier, later := SavedWorld(h[..j]).meta, SavedWorld(h[..k]).meta;
      earlier.worldId == later.worldId && (earlier == later || StaleMeta(later, earlier))
  {
    hide Run, Sound;
    PossiblePrefix(h, j);
    PossiblePrefix(h, k);
    assert h[..k][..j] == h[..j];
    IdealLater(h[..k], j);
    IdealWorld(h[..j]);
    IdealWorld(h[..k]);
    SoundWorld(Ideal(h[..j]).state);
    SoundWorld(Ideal(h[..k]).state);
    if j == k {
      assert h[..j] == h[..k];
    }
  }

  lemma ReplayIgnoresIds(w: WorldState, events: seq<SimEvent>, numbered: seq<SimEvent>)
    requires |events| == |numbered|
    requires forall i :: 0 <= i < |events| ==> numbered[i].tick == events[i].tick && numbered[i].data == events[i].data
    ensures ReplayFrom(w, numbered) == ReplayFrom(w, events)
    decreases |events|
  {
    hide ApplyData;
    if events == [] {
    } else {
      assert ApplyEvent(w, numbered[0]) == ApplyEvent(w, events[0]);
      if ApplyEvent(w, events[0]).Ok? {
        ReplayIgnoresIds(ApplyEvent(w, events[0]).value, events[1..], numbered[1..]);
      }
    }
  }

  /** The log events after a save replay, from the saved world, to the current ideal world. */
  lemma LogTailReplays(h: seq<SimCommand>, k: nat)
    requires Possible(h) && 0 < k <= |h|
    ensures Savable(h[..k]) && Savable(h) && |Ideal(h[..k]).events| <= |IdealLog(h)|
    ensures var saved := SavedWorld(h[..k]); var tail := IdealLog(h)[|Ideal(h[..k]).events|..];
      ReplayFrom(saved, tail) == ReplayRun(
        Ideal(h).state.world.value.WithCursor(saved.meta.snapshotTick, saved.meta.lastEventId), |tail|, None)
  {
    hide Run, ReplayFrom, Numbered, Sound;
    PossiblePrefix(h, k);
    IdealWorld(h[..k]);
    SoundWorld(Ideal(h[..k]).state);
    TailReplays(h, k);
    IdealLogShape(h);
    var n := |Ideal(h[..k]).events|;
    var w, saved := Ideal(h[..k]).state.world.value, SavedWorld(h[..k]);
    var tail, numbered := Ideal(h).events[n..], IdealLog(h)[n..];
    NumberedIsContiguous(Ideal(h).events, 1);
    SavedWorldIsValid(w, n);
    ReplayIgnoresCursor(w, tail, w.currentTick, n);
    ReplayIgnoresIds(saved, tail, numbered);
  }

  /** What the invariant promises of a load: success, the exact world, the exact tail. */
  lemma RecoveryIsExact(cs: Codecs, log: LogState, store: Cells, s: System)
    requires cs.Lawful() && Possible(s.history) && LogHolds(cs, log, s.history) && StoreHolds(cs, store, s)
    requires s.savedAt.Some?
    ensures Savable(s.history) && Savable(s.history[..s.savedAt.value])
    ensures var saved := SavedWorld(s.history[..s.savedAt.value]);
      && saved.meta.lastEventId <= |IdealLog(s.history)|
      && LoadRecovered(cs, store, log, saved.meta.worldId) == Ok(Recovered(
           Ideal(s.history).state.world.value.WithCursor(saved.meta.snapshotTick, saved.meta.lastEventId),
           IdealLog(s.history)[saved.meta.lastEventId..]))
  {
    hide Run, ReplayFrom, Numbered, Scan, Sound, DecodeWorld, StaleMeta, WorldIdValid, CountsFrom, CoversTail, After;
    var h, k := s.history, s.savedAt.value;
    PossiblePrefix(h, k);
    IdealWorld(h[..k]);
    SoundWorld(Ideal(h[..k]).state);
    var saved := SavedWorld(h[..k]);
    var n := |Ideal(h[..k]).events|;
    SavedWorldDecodes(cs.snapshot, Ideal(h[..k]).state.world.value, n);
    SavedIdentity(h[..k]);
    if s.metaAt.Some? {
      EarlierMetaIsAccepted(h, s.metaAt.value, k);
    }
    IdealLogShape(h);
    LogTailReplays(h, k);
    RangeChecksAreExact(IdealLog(h), |IdealLog(h)| as u64, n);
  }

  lemma SavedIdentity(h: seq<SimCommand>)
    requires Savable(h)
    ensures SavedWorld(h).meta.worldId == Ideal(h).state.world.value.meta.worldId
    ensures SavedWorld(h).meta.lastEventId == |Ideal(h).events|
    ensures SavedWorld(h).meta.snapshotTick == Ideal(h).state.world.value.currentTick
  {
  }
}
