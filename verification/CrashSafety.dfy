/** Every reachable state of the crash protocol satisfies the invariant, and what follows. */
module CrashSafety {
  import opened SyTypes
  import opened SyApi
  import opened Pcg32
  import opened Sim
  import opened History
  import opened Wal
  import opened WalLaws
  import opened LogRefinement
  import opened Snapshot
  import opened Runtime
  import opened CrashProtocol

  // ------------------------------------------------------------------------
  // One more command
  // ------------------------------------------------------------------------

  /** The live simulation does what the ideal one does. */
  lemma StepMatchesIdeal(sim: SimState, h: seq<SimCommand>, cmd: SimCommand)
    requires Possible(h) && SimHolds(sim, h) && Step(sim, cmd).result.Ok?
    requires sim.world.None? ==> h == []
    ensures Step(Ideal(h).state, cmd).result == Step(sim, cmd).result
    ensures SimHolds(Step(sim, cmd).state, h + [cmd])
  {
    hide Step, Sound;
    var ideal := Ideal(h).state;
    assert (h + [cmd])[..|h|] == h;
    if sim.world.None? {
      StepWithoutWorld(BLANK, sim, cmd);
      StepEmits(sim, cmd);
      CreationFixesIdentity(sim, cmd);
      assert Ideal(h).state == BLANK;
    } else {
      var tick, id := sim.world.value.meta.snapshotTick, sim.world.value.meta.lastEventId;
      StepIgnoresCursor(ideal, cmd, tick, id);
      StepKeepsWorldLoaded(ideal, cmd);
    }
  }

  lemma {:induction false} NumberedConcat(a: seq<SimEvent>, b: seq<SimEvent>, next: u64)
    requires next + |a| <= U64_MAX
    ensures Numbered(a + b, next) == Numbered(a, next) + Numbered(b, next + |a|)
    decreases |a|
  {
    hide WrapNext;
    if a == [] {
      NumberedNothing(next);
      assert a + b == b;
      assert Numbered([], next) + Numbered(b, next) == Numbered(b, next);
    } else {
      Successor(next);
      assert (a + b)[1..] == a[1..] + b;
      NumberedConcat(a[1..], b, next + 1);
    }
  }

  lemma Successor(n: u64)
    requires n < U64_MAX
    ensures WrapNext(n) == n + 1
  {
  }

  /** The ideal run and its log after one more accepted command. */
  lemma IdealGrows(sim: SimState, h: seq<SimCommand>, cmd: SimCommand)
    requires Possible(h) && SimHolds(sim, h) && Step(sim, cmd).result.Ok?
    requires sim.world.None? ==> h == []
    requires RoomIn(sim, cmd) && |IdealLog(h)| + 1 + |Step(sim, cmd).result.value| <= U64_MAX
    ensures Possible(h + [cmd])
    ensures IdealLog(h + [cmd]) == IdealLog(h) + Numbered(Step(sim, cmd).result.value, |IdealLog(h)| + 1)
    ensures SimHolds(Step(sim, cmd).state, h + [cmd])
  {
    hide Step, Sound, Numbered;
    var h', events := h + [cmd], Step(sim, cmd).result.value;
    StepMatchesIdeal(sim, h, cmd);
    assert h'[..|h|] == h;
    IdealLogShape(h);
    NumberedConcat(Ideal(h).events, events, 1);
    IdealWorld(h);
    forall i | 0 <= i < |h'|
      ensures Step(Ideal(h'[..i]).state, h'[i]).result.Ok? && RoomIn(Run(BLANK, h'[..i]).state, h'[i])
    {
      if i < |h| {
        assert h'[..i] == h[..i] && h'[i] == h[i];
      }
    }
  }

  /** Cells written earlier are untouched by a longer history. */
  lemma StoreHoldsLonger(cs: Codecs, store: Cells, s: System, s': System, store': Cells)
    requires StoreHolds(cs, store, s)
    requires s'.history == s.history || exists cmd :: s'.history == s.history + [cmd]
    requires s'.savedAt == s.savedAt && s'.metaAt == s.metaAt
    requires store'.snapshots == store.snapshots && store'.metas == store.metas
    ensures StoreHolds(cs, store', s')
  {
    hide Run;
    assert forall k :: 0 <= k <= |s.history| ==> s'.history[..k] == s.history[..k];
  }

  /** A running log after the command's record is appended to it. */
  lemma LogGrows(cs: Codecs, l: LogState, h: seq<SimCommand>, h': seq<SimCommand>, events: seq<SimEvent>)
    requires cs.Lawful() && LogHolds(cs, l, h) && events != [] && |IdealLog(h)| + 1 + |events| <= U64_MAX
    requires IdealLog(h') == IdealLog(h) + Numbered(events, l.nextEventId)
    requires AppendBatch(cs.wal, l, events).result.Ok?
    ensures LogHolds(cs, AppendBatch(cs.wal, l, events).log, h')
  {
    hide Run, Scan, Numbered, EncodeRecord, IdealLog, AppendBatch, Clean, TickOfLast;
    AppendedFields(cs, l, events);
    AppendedRecordScans(cs.wal, l.Bytes(), Numbered(events, l.nextEventId));
    LastTickOfSum(IdealLog(h), Numbered(events, l.nextEventId));
  }

  lemma AppendedFields(cs: Codecs, l: LogState, events: seq<SimEvent>)
    requires events != [] && l.nextEventId + |events| <= U64_MAX
    requires AppendBatch(cs.wal, l, events).result.Ok?
    ensures var numbered := Numbered(events, l.nextEventId);
      && EncodeRecord(cs.wal, numbered).Ok?
      && AppendBatch(cs.wal, l, events).log == LogState(
           Some(l.Bytes() + EncodeRecord(cs.wal, numbered).value), l.nextEventId + |events|,
           TickOfLast(numbered), l.totalEvents + |events|, l.readError)
  {
    hide Numbered, EncodeRecord, Advanced;
    NumberedIsContiguous(events, l.nextEventId);
  }

  lemma LastTickOfSum(a: seq<SimEvent>, b: seq<SimEvent>)
    requires b != []
    ensures TickOfLast(a + b) == TickOfLast(b)
  {
  }

  /** A command accepted without a loaded world is the first of its history. */
  lemma CreationNeedsEmptyLog(cs: Codecs, n: Node, h: seq<SimCommand>, cmd: SimCommand)
    requires Possible(h) && LogHolds(cs, n.log, h)
    requires CreateRefusal(n, cmd).None? && Step(n.sim, cmd).result.Ok?
    ensures n.sim.world.None? ==> h == []
  {
    hide Run, Scan, Step, IdealLog, Sound;
    if n.sim.world.None? {
      CreationFixesIdentity(n.sim, cmd);
      IdealWorld(h);
      IdealLogShape(h);
    }
  }

  lemma DoKeepsInv(cs: Codecs, s: System, cmd: SimCommand)
    requires cs.Lawful() && Inv(cs, s) && Enabled(cs, s, Do(cmd))
    ensures Inv(cs, Next(cs, s, Do(cmd)))
  {
    hide Run, Step, Scan, IdealLog, Numbered, AppendBatch, SnapshotHolds, MetaHolds, LogHolds, SimHolds;
    var n := s.process.node;
    var answer := RunCommand(cs, n, cmd);
    if answer.result.Err? {
      FailedCommandLeavesNode(cs, n, cmd);
    } else {
      CreationNeedsEmptyLog(cs, n, s.history, cmd);
      LogCursor(cs, n.log, s.history);
      StepEmits(n.sim, cmd);
      IdealGrows(n.sim, s.history, cmd);
      LogGrows(cs, n.log, s.history, s.history + [cmd], Step(n.sim, cmd).result.value);
      StoreHoldsLonger(cs, n.store, s, Next(cs, s, Do(cmd)), answer.node.store);
    }
  }

  lemma LogCursor(cs: Codecs, l: LogState, h: seq<SimCommand>)
    requires LogHolds(cs, l, h)
    ensures l.nextEventId == |IdealLog(h)| + 1
  {
  }

  // ------------------------------------------------------------------------
  // Crashes
  // ------------------------------------------------------------------------

  /** After a clean log, the first bytes of one more record: all of them add the batch, fewer add
      nothing. */
  lemma AppendIsAtomic(cs: Codecs, f: seq<byte>, events: seq<SimEvent>, written: nat)
    requires cs.Lawful() && Clean(cs.wal, f) && EncodeRecord(cs.wal, events).Ok?
    requires written <= |EncodeRecord(cs.wal, events).value|
    ensures var record := EncodeRecord(cs.wal, events).value;
      Scan(cs.wal, f + record[..written]).events
        == if written == |record| then Scan(cs.wal, f).events + events else Scan(cs.wal, f).events
  {
    hide ParseRecord, EncodeRecord;
    var record := EncodeRecord(cs.wal, events).value;
    if written == |record| {
      assert record[..written] == record;
      AppendedRecordScans(cs.wal, f, events);
    } else {
      TornRecordRefused(cs.wal, events, written);
      assert Scan(cs.wal, record[..written]).events == [];
      ScanConcat(cs.wal, f, record[..written]);
      assert Scan(cs.wal, f).events + [] == Scan(cs.wal, f).events;
    }
  }

  lemma DieAppendingKeepsInv(cs: Codecs, s: System, cmd: SimCommand, written: nat)
    requires cs.Lawful() && Inv(cs, s) && Enabled(cs, s, DieAppending(cmd, written))
    ensures Inv(cs, Next(cs, s, DieAppending(cmd, written)))
  {
    hide Run, Step, Scan, IdealLog, Numbered, EncodeRecord, SnapshotHolds, MetaHolds, SimHolds;
    hide Possible, TickOfLast, RoomIn, StatusOf;
    var n := s.process.node;
    var events := Step(n.sim, cmd).result.value;
    CreationNeedsEmptyLog(cs, n, s.history, cmd);
    LogCursor(cs, n.log, s.history);
    AppendIsAtomic(cs, n.log.Bytes(), Numbered(events, n.log.nextEventId), written);
    IdealGrows(n.sim, s.history, cmd);
    var s' := Next(cs, s, DieAppending(cmd, written));
    StoreHoldsLonger(cs, n.store, s, s', s'.process.disk.store);
  }

  lemma DieKeepsInv(cs: Codecs, s: System)
    requires Inv(cs, s) && Enabled(cs, s, Die)
    ensures Inv(cs, Next(cs, s, Die))
  {
    hide Run, Scan, IdealLog, SnapshotHolds, MetaHolds, SimHolds;
  }

  // ------------------------------------------------------------------------
  // Restart
  // ------------------------------------------------------------------------

  lemma BootedLogHolds(cs: Codecs, file: Option<seq<byte>>, h: seq<SimCommand>)
    requires Possible(h) && FileHolds(cs, file, h)
    ensures LogHolds(cs, OpenLog(cs.wal, file, Repair), h)
  {
    hide Run, Scan, IdealLog;
    var f := FileBytes(file);
    IdealLogShape(h);
    ValidPrefixIsClean(cs.wal, f);
    if file.None? {
      assert f[..Scan(cs.wal, f).valid] == f;
    }
    if IdealLog(h) != [] {
      Successor(IdealLog(h)[|IdealLog(h)| - 1].id);
    }
  }

  lemma BootKeepsInv(cs: Codecs, s: System, rng: RngState, clock: Tick)
    requires Inv(cs, s) && Enabled(cs, s, Boot(rng, clock))
    ensures Inv(cs, Next(cs, s, Boot(rng, clock)))
  {
    hide Run, Scan, IdealLog, SnapshotHolds, MetaHolds, LogHolds, OpenLog;
    BootedLogHolds(cs, s.process.disk.file, s.history);
  }

  /** Installing the ideal world under some cursor up to the end of the log. */
  lemma InstalledHolds(h: seq<SimCommand>, tick: Tick, id: EventId)
    requires Possible(h) && h != [] && Savable(h) && id <= |Ideal(h).events|
    ensures SimHolds(LoadedFrom(Ideal(h).state.world.value.WithCursor(tick, id)), h)
  {
    hide Run;
    IdealWorld(h);
  }

  lemma OnlyOwnSnapshot(cs: Codecs, store: Cells, s: System, id: Text)
    requires StoreHolds(cs, store, s) && id in store.snapshots
    ensures s.savedAt.Some? && 0 < s.savedAt.value <= |s.history| && Savable(s.history[..s.savedAt.value])
    ensures id == SavedWorld(s.history[..s.savedAt.value]).meta.worldId
  {
    hide Run;
  }

  lemma LoadKeepsInv(cs: Codecs, s: System, id: Text)
    requires cs.Lawful() && Inv(cs, s) && Enabled(cs, s, LoadWorld(id))
    ensures Inv(cs, Next(cs, s, LoadWorld(id)))
  {
    hide Run, Scan, IdealLog, SnapshotHolds, MetaHolds, LogHolds, SimHolds, LoadRecovered;
    var n := s.process.node;
    if LoadRecovered(cs, n.store, n.log, id).Ok? {
      LoadedHasSnapshot(cs, n.store, n.log, id);
      OnlyOwnSnapshot(cs, n.store, s, id);
      RecoveryIsExact(cs, n.log, n.store, s);
      IdealLogShape(s.history);
      var saved := SavedWorld(s.history[..s.savedAt.value]);
      InstalledHolds(s.history, saved.meta.snapshotTick, saved.meta.lastEventId);
    }
  }

  lemma LoadedHasSnapshot(cs: Codecs, store: Cells, log: LogState, id: Text)
    requires LoadRecovered(cs, store, log, id).Ok?
    ensures id in store.snapshots
  {
    hide DecodeWorld, RecoverFrom, WorldIdValid;
  }

  // ------------------------------------------------------------------------
  // Saves
  // ------------------------------------------------------------------------

  /** What a save writes is the ideal saved world. */
  lemma SaveWritesIdeal(cs: Codecs, n: Node, h: seq<SimCommand>)
    requires Possible(h) && LogHolds(cs, n.log, h) && SimHolds(n.sim, h) && n.sim.world.Some?
    ensures Savable(h) && WorldToSave(n) == Ok(SavedWorld(h))
  {
    hide Run, Scan, Numbered, Sound;
    IdealWorld(h);
    SoundWorld(Ideal(h).state);
    IdealLogShape(h);
    SavedWorldIsValid(Ideal(h).state.world.value, |Ideal(h).events|);
  }

  lemma SameIdentity(h: seq<SimCommand>, k: nat)
    requires Possible(h) && 0 < k <= |h|
    ensures Savable(h[..k]) && Savable(h) && SavedWorld(h[..k]).meta.worldId == SavedWorld(h).meta.worldId
  {
    hide Run;
    PossiblePrefix(h, k);
    IdealLater(h, k);
    SavedIdentity(h);
    SavedIdentity(h[..k]);
  }

  lemma LoadedHistory(sim: SimState, h: seq<SimCommand>)
    requires SimHolds(sim, h) && sim.world.Some?
    ensures h != []
  {
    hide Run;
  }

  lemma BeginSaveKeepsInv(cs: Codecs, s: System)
    requires Inv(cs, s) && Enabled(cs, s, BeginSave)
    ensures Inv(cs, Next(cs, s, BeginSave))
  {
    hide Run, Scan, IdealLog, LogHolds, SimHolds, SavedWorld, EncodeWorld;
    var n, h := s.process.node, s.history;
    SaveWritesIdeal(cs, n, h);
    LoadedHistory(n.sim, h);
    assert h[..|h|] == h;
    if s.savedAt.Some? {
      SameIdentity(h, s.savedAt.value);
    }
  }

  lemma SaveMetaKeepsInv(cs: Codecs, s: System)
    requires Inv(cs, s) && Enabled(cs, s, SaveMeta)
    ensures Inv(cs, Next(cs, s, SaveMeta))
  {
    hide Run, Scan, IdealLog, LogHolds, SimHolds, SavedWorld, EncodeWorld;
    var n, h := s.process.node, s.history;
    LoadedHistory(n.sim, h);
    assert h[..|h|] == h;
    if s.metaAt.Some? {
      SameIdentity(h, s.metaAt.value);
    }
  }

  lemma EndSaveKeepsInv(cs: Codecs, s: System)
    requires Inv(cs, s) && Enabled(cs, s, EndSave)
    ensures Inv(cs, Next(cs, s, EndSave))
  {
    hide Run, Scan, IdealLog, LogHolds, SnapshotHolds, MetaHolds, Sound;
    var n, h := s.process.node, s.history;
    LoadedHistory(n.sim, h);
    IdealWorld(h);
    SoundWorld(Ideal(h).state);
    var w := Ideal(h).state.world.value;
    SavedWorldIsValid(w, |Ideal(h).events|);
    InstalledHolds(h, w.currentTick, |Ideal(h).events|);
  }

  // ------------------------------------------------------------------------
  // Every reachable state
  // ------------------------------------------------------------------------

  lemma StartHolds(cs: Codecs, logDir: Text, rng: RngState, clock: Tick)
    ensures Inv(cs, Start(logDir, rng, clock))
  {
    assert Ideal([]) == Past(BLANK, []);
    assert IdealLog([]) == [];
  }

  lemma NextKeepsInv(cs: Codecs, s: System, a: Action)
    requires cs.Lawful() && Inv(cs, s) && Enabled(cs, s, a)
    ensures Inv(cs, Next(cs, s, a))
  {
    hide Inv, Next, Enabled;
    match a {
      case Do(cmd) => DoKeepsInv(cs, s, cmd);
      case DieAppending(cmd, written) => DieAppendingKeepsInv(cs, s, cmd, written);
      case BeginSave => BeginSaveKeepsInv(cs, s);
      case SaveMeta => SaveMetaKeepsInv(cs, s);
      case EndSave => EndSaveKeepsInv(cs, s);
      case Die => DieKeepsInv(cs, s);
      case Boot(rng, clock) => BootKeepsInv(cs, s, rng, clock);
      case LoadWorld(id) => LoadKeepsInv(cs, s, id);
    }
  }

  /** The invariant holds along every run. */
  lemma {:induction false} RunsKeepInv(cs: Codecs, states: seq<System>, actions: seq<Action>, i: nat)
    requires cs.Lawful() && IsRun(cs, states, actions) && i < |states|
    requires exists dir, rng, clock :: states[0] == Start(dir, rng, clock)
    ensures Inv(cs, states[i])
  {
    hide Inv, Next, Enabled, Start;
    if i == 0 {
      var dir, rng, clock :| states[0] == Start(dir, rng, clock);
      StartHolds(cs, dir, rng, clock);
    } else {
      RunsKeepInv(cs, states, actions, i - 1);
      NextKeepsInv(cs, states[i - 1], actions[i - 1]);
    }
  }
}
