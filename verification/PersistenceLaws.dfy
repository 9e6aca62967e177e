/** What a save writes and when a load succeeds, condition by condition. */
module PersistenceLaws {
  import opened SyTypes
  import opened SyApi
  import opened WorldModel
  import opened Pcg32
  import opened Sim
  import opened Replay
  import opened Wal
  import opened WalLaws
  import opened LogRefinement
  import opened Snapshot
  import opened Runtime
  import opened CrashProtocol

  /** Letters, digits, underscore and hyphen. */
  predicate PlainId(id: Text) {
    id != [] && forall i :: 0 <= i < |id| ==>
      || ('0' as int <= id[i] <= '9' as int) || ('A' as int <= id[i] <= 'Z' as int)
      || ('a' as int <= id[i] <= 'z' as int) || id[i] == '_' as int || id[i] == '-' as int
  }

  /** A metadata file that recovery accepts beside a snapshot: none, the same, or one of the same world
      with a cursor strictly behind and no time ahead. */
  predicate MetaFits(store: Cells, id: Text, meta: WorldMeta) {
    id in store.metas ==>
      var file := store.metas[id];
      || file == meta
      || (&& (file.worldId, file.seed, file.formatVersion, file.createdTick)
             == (meta.worldId, meta.seed, meta.formatVersion, meta.createdTick)
          && file.lastEventId < meta.lastEventId
          && file.snapshotTick <= meta.snapshotTick && file.currentTick <= meta.currentTick
          && file.simTime <= meta.simTime)
  }

  /** The snapshot of the world: there, parsed, valid, and of this world. */
  ghost predicate HasSnapshot(cs: Codecs, store: Cells, id: Text, w: WorldState) {
    && PlainId(id) && id in store.snapshots
    && var parsed := cs.snapshot.decode(store.snapshots[id]);
       parsed.Some? && SnapshotValid(parsed.value) && FromDto(parsed.value) == w && w.meta.worldId == id
  }

  /** The log reads as events numbered 1..n, n announced and at least the cursor, and those after the
      cursor replay. */
  ghost predicate LogCarries(cs: Codecs, log: LogState, w: WorldState) {
    && log.readError.None?
    && var events := Scan(cs.wal, log.Bytes()).events; var cursor := w.meta.lastEventId;
       && Contiguous(events, 0) && log.LastEventId() == |events| && cursor <= |events|
       && ReplayFrom(w, events[cursor..]).failure.None?
  }

  lemma IdLaw(id: Text)
    ensures WorldIdValid(id) <==> PlainId(id)
  {
  }

  lemma MetaLaw(store: Cells, id: Text, meta: WorldMeta)
    ensures MetaAccepted(store, id, meta) <==> MetaFits(store, id, meta)
  {
  }

  lemma DecodeLaw(cs: Codecs, store: Cells, id: Text, w: WorldState)
    ensures HasSnapshot(cs, store, id, w) <==>
      && WorldIdValid(id) && id in store.snapshots
      && DecodeWorld(cs.snapshot, store.snapshots[id]) == Ok(w) && w.meta.worldId == id
  {
    hide EntityIdsValid, ZoneIdsValid, IndexValid, WorldIdValid, PlainId;
    IdLaw(id);
  }

  lemma RecoverLaw(cs: Codecs, log: LogState, w: WorldState)
    requires |Scan(cs.wal, log.Bytes()).events| < U64_MAX
    ensures RecoverFrom(cs, log, w).Ok? <==> LogCarries(cs, log, w)
    ensures RecoverFrom(cs, log, w).Ok? ==>
      var tail := Scan(cs.wal, log.Bytes()).events[w.meta.lastEventId..];
      RecoverFrom(cs, log, w) == Ok(Recovered(ReplayFrom(w, tail).world, tail))
  {
    hide Scan, ReplayFrom, After, CountsFrom, CoversTail;
    RangeChecksAreExact(Scan(cs.wal, log.Bytes()).events, log.LastEventId(), w.meta.lastEventId);
    LastOfContiguous(Scan(cs.wal, log.Bytes()).events);
  }

  lemma LastOfContiguous(events: seq<SimEvent>)
    ensures Contiguous(events, 0) ==> LastIdOf(events) == |events|
  {
  }

  /** A load succeeds exactly when the snapshot is there and valid, the metadata file fits, and the log
      carries the world; it then installs the replayed world and returns the events after the cursor.
      Otherwise nothing changes. */
  lemma LoadLaw(cs: Codecs, n: Node, id: Text)
    requires |Scan(cs.wal, n.log.Bytes()).events| < U64_MAX
    ensures Load(cs, n, id).result.Ok? <==>
      exists w :: HasSnapshot(cs, n.store, id, w) && MetaFits(n.store, id, w.meta) && LogCarries(cs, n.log, w)
    ensures Load(cs, n, id).result.Err? ==> Load(cs, n, id).node == n
    ensures forall w :: HasSnapshot(cs, n.store, id, w) && Load(cs, n, id).result.Ok? ==>
      var tail := Scan(cs.wal, n.log.Bytes()).events[w.meta.lastEventId..];
      Load(cs, n, id) == Answer(n.(sim := LoadedFrom(ReplayFrom(w, tail).world)), Ok(tail))
  {
    hide Scan, ReplayFrom, WorldIdValid, DecodeWorld, RecoverFrom, HasSnapshot, LogCarries, MetaFits, MetaAccepted;
    hide LoadedFrom;
    forall w: WorldState
      ensures HasSnapshot(cs, n.store, id, w) <==>
        && WorldIdValid(id) && id in n.store.snapshots
        && DecodeWorld(cs.snapshot, n.store.snapshots[id]) == Ok(w) && w.meta.worldId == id
    {
      DecodeLaw(cs, n.store, id, w);
    }
    if WorldIdValid(id) && id in n.store.snapshots {
      var decoded := DecodeWorld(cs.snapshot, n.store.snapshots[id]);
      if decoded.Ok? {
        MetaLaw(n.store, id, decoded.value.meta);
        RecoverLaw(cs, n.log, decoded.value);
      }
    }
  }

  /** A metadata file that differs from the snapshot's and is not strictly behind it blocks the load. */
  lemma MetaAheadIsRefused(cs: Codecs, n: Node, id: Text, w: WorldState)
    requires |Scan(cs.wal, n.log.Bytes()).events| < U64_MAX
    requires HasSnapshot(cs, n.store, id, w) && id in n.store.metas && n.store.metas[id] != w.meta
    requires n.store.metas[id].lastEventId >= w.meta.lastEventId || n.store.metas[id].snapshotTick > w.meta.snapshotTick
    ensures Load(cs, n, id) == Answer(n, Err(StorageError))
  {
    hide Scan, ReplayFrom, WorldIdValid, DecodeWorld, RecoverFrom, SnapshotValid;
    DecodeLaw(cs, n.store, id, w);
    MetaLaw(n.store, id, w.meta);
  }

  /** A save succeeds exactly when a world is loaded whose cursor the log has reached. It writes the world,
      stamped with its own tick and the last id of the log, as snapshot and its metadata beside it, and
      installs the same world in memory, generator and clock derived from it; log and other worlds stay. */
  lemma SaveLaw(cs: Codecs, n: Node)
    ensures var out := Save(cs, n); var last := if n.log.nextEventId > 1 then n.log.nextEventId - 1 else 0;
      && (out.result.Ok? <==> n.sim.world.Some? && n.sim.world.value.meta.lastEventId <= last)
      && (out.result.Err? ==> out == Answer(n, Err(if n.sim.world.None? then NoWorldLoaded else StorageError)))
      && (out.result.Ok? ==>
           var w := n.sim.world.value; var id := w.meta.worldId;
           var meta := WorldMeta(id, w.meta.name, w.meta.seed, w.currentTick, w.simTime, w.meta.createdTick,
                                 w.currentTick, last, w.meta.formatVersion);
           var saved := WorldState(meta, w.currentTick, w.simTime, w.rngState, w.nextEntityId, w.entities, w.zones);
           && out.node.log == n.log && out.node.logDir == n.logDir
           && out.node.sim == SimState(Some(saved), RngState(w.meta.seed, w.rngState), w.currentTick)
           && out.node.store == Cells(n.store.dirs + {id},
                                      n.store.snapshots[id := cs.snapshot.encode(ToDto(saved))],
                                      n.store.metas[id := meta]))
  {
    if WorldToSave(n).Ok? {
      SaveWrites(cs, n, WorldToSave(n).value);
    }
  }

  /** The three steps of a save in the crash protocol add up to the save of the runtime. */
  lemma SaveIsThreeSteps(cs: Codecs, s: System)
    requires Enabled(cs, s, BeginSave)
    ensures var s1 := Next(cs, s, BeginSave);
      && Enabled(cs, s1, SaveMeta) && var s2 := Next(cs, s1, SaveMeta);
      && Enabled(cs, s2, EndSave) && Next(cs, s2, EndSave).process == Up(Save(cs, s.process.node).node, Idle)
  {
    hide EncodeWorld, Stamped;
  }
}
