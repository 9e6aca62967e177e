/** What each command does, said without its code: exactly when it is accepted, which error a refusal
    carries, and the whole world and events it leaves. */
module CommandLaws {
  import opened SyTypes
  import opened SyApi
  import opened Pcg32
  import opened WorldModel
  import opened Sim
  import opened History
  import opened Wal
  import opened Runtime
  import opened CrashProtocol

  // ------------------------------------------------------------------------
  // Acceptance
  // ------------------------------------------------------------------------

  /** Well-formed commands: names of 1 to 64 bytes, batches of 1 to 10000 ticks, zone names of at
      most 64 bytes. */
  predicate WithinLimits(cmd: SimCommand) {
    match cmd
    case CreateWorld(name, _) => 1 <= |name| && |name| <= 64
    case TickN(n) => 1 <= n && n <= 10000
    case CreateZone(_, name) => name == None || (name.Some? && |name.value| <= 64)
    case _ => true
  }

  /** The world allows the command. */
  predicate Permits(world: Option<WorldState>, cmd: SimCommand) {
    match cmd
    case CreateWorld(_, _) => world.None?
    case SpawnEntity(position, _, _) => world.Some? && position.zone in world.value.zones
    case DespawnEntity(id) => world.Some? && id in world.value.entities
    case CreateZone(id, _) => world.Some? && id !in world.value.zones
    case _ => world.Some?
  }

  /** Why a well-formed command is refused. */
  function RefusalOf(world: Option<WorldState>, cmd: SimCommand): ApiError
    requires !Permits(world, cmd)
  {
    match cmd
    case CreateWorld(_, _) => WorldAlreadyExists(world.value.meta.worldId)
    case _ =>
      if world.None? then NoWorldLoaded else
      match cmd
      case SpawnEntity(position, _, _) => ZoneNotFound(position.zone)
      case DespawnEntity(id) => EntityNotFound(id)
      case CreateZone(id, _) => ZoneAlreadyExists(id)
      case _ => assert false; NoWorldLoaded
  }

  /** A command is accepted exactly when it is within the limits and the world permits it; otherwise
      the error says which. */
  lemma AcceptanceLaw(s: SimState, cmd: SimCommand)
    ensures Step(s, cmd).result.Ok? <==> WithinLimits(cmd) && Permits(s.world, cmd)
    ensures !WithinLimits(cmd) ==> Step(s, cmd).result == Err(ValidationFailed)
    ensures WithinLimits(cmd) && !Permits(s.world, cmd) ==> Step(s, cmd).result == Err(RefusalOf(s.world, cmd))
  {
    hide TickSystems, TickManyIn;
    if cmd.TickN? {
      TickManyFailsAtOnce(s, cmd.n);
    }
  }

  // ------------------------------------------------------------------------
  // Effects
  // ------------------------------------------------------------------------

  /** The single event of a command, at the current tick and not yet numbered. */
  function One(w: WorldState, data: EventData): seq<SimEvent> {
    [SimEvent(0, w.currentTick, data)]
  }

  /** Spawning: the entity of the command, active and created now, under the old counter; last in the
      list of its zone; nothing else moves. */
  lemma SpawnLaw(s: SimState, position: WorldPos, kind: EntityKind, properties: EntityProperties)
    requires s.world.Some? && s.world.value.WellFormed() && position.zone in s.world.value.zones
    ensures var out := Step(s, SpawnEntity(position, kind, properties)); var w := s.world.value;
      var id := w.nextEntityId;
      && out.result == Ok(One(w, EntitySpawned(id, kind, position, properties)))
      && out.state == s.(world := out.state.world) && out.state.world.Some?
      && var w' := out.state.world.value; var zone := w.zones[position.zone];
         && w' == w.(nextEntityId := if id == 0xFFFF_FFFF_FFFF_FFFF then 0 else id + 1,
                     entities := w'.entities, zones := w'.zones)
         && w'.entities == w.entities[id := Entity(id, kind, Active, position, w.currentTick, properties)]
         && w'.zones == w.zones[position.zone := Zone(zone.id, zone.name, zone.loaded, zone.entities + [id])]
  {
    assert s.world.value.ZoneAgrees(position.zone);
  }

  lemma {:induction false} WithoutSkips(before: seq<EntityId>, id: EntityId, after: seq<EntityId>)
    requires id !in before && id !in after
    ensures Without(before + [id] + after, id) == before + after
  {
    var ids := before + [id] + after;
    if before == [] {
      assert ids[0] == id && ids[1..] == after;
      WithoutAbsent(after, id);
      assert [] + after == after;
    } else {
      assert before[0] != id && forall k :: k in before[1..] ==> k in before;
      WithoutSkips(before[1..], id, after);
      assert ids[0] == before[0] && ids[1..] == before[1..] + [id] + after;
      assert [before[0]] + (before[1..] + after) == before + after;
    }
  }

  lemma {:induction false} WithoutAbsent(ids: seq<EntityId>, id: EntityId)
    requires id !in ids
    ensures Without(ids, id) == ids
  {
    if ids == [] {
    } else {
      assert ids[0] != id && forall k :: k in ids[1..] ==> k in ids;
      WithoutAbsent(ids[1..], id);
    }
  }

  /** Despawning: the entity is gone, and so is its one place in the list of its zone; the others keep
      their order; nothing else moves. */
  lemma DespawnLaw(s: SimState, id: EntityId, before: seq<EntityId>, after: seq<EntityId>)
    requires s.world.Some? && s.world.value.WellFormed() && id in s.world.value.entities
    requires var w := s.world.value; w.zones[w.entities[id].position.zone].entities == before + [id] + after
    ensures var out := Step(s, DespawnEntity(id)); var w := s.world.value;
      && out.result == Ok(One(w, EntityDespawned(id, Command)))
      && out.state == s.(world := out.state.world) && out.state.world.Some?
      && var w' := out.state.world.value; var z := w.entities[id].position.zone; var zone := w.zones[z];
         && w' == w.(entities := w'.entities, zones := w'.zones)
         && w'.entities == w.entities - {id}
         && w'.zones == w.zones[z := Zone(zone.id, zone.name, zone.loaded, before + after)]
  {
    var w := s.world.value;
    assert w.ZoneAgrees(w.entities[id].position.zone);
    OnlyPlace(before, id, after);
    WithoutSkips(before, id, after);
  }

  lemma OnlyPlace(before: seq<EntityId>, id: EntityId, after: seq<EntityId>)
    requires NoDuplicates(before + [id] + after)
    ensures id !in before && id !in after
  {
    var ids := before + [id] + after;
    assert ids[|before|] == id;
    forall i | 0 <= i < |before|
      ensures before[i] != id
    {
      assert ids[i] == before[i];
    }
    forall i | 0 <= i < |after|
      ensures after[i] != id
    {
      assert ids[|before| + 1 + i] == after[i];
    }
  }

  /** A new zone: loaded, empty, under the id and name of the command. */
  lemma CreateZoneLaw(s: SimState, id: ZoneId, name: Option<Text>)
    requires s.world.Some? && id !in s.world.value.zones && WithinLimits(CreateZone(id, name))
    ensures var out := Step(s, CreateZone(id, name)); var w := s.world.value;
      && out.result == Ok(One(w, ZoneCreated(id, name)))
      && out.state == s.(world := Some(w.(zones := w.zones[id := Zone(id, name, true, [])])))
  {
  }

  /** A new world: named and seeded by the command, at tick zero, generator at the seed, first entity
      id one, and the one zone "Origin". */
  lemma CreateWorldLaw(s: SimState, name: Text, seed: RngSeed)
    requires s.world.None? && WithinLimits(CreateWorld(name, seed))
    ensures var out := Step(s, CreateWorld(name, seed));
      var id := out.state.world.value.meta.worldId;
      var origin: Option<Text> := Some([79, 114, 105, 103, 105, 110]);
      && out.state == SimState(
           Some(WorldState(WorldMeta(id, name, seed, 0, 0, 0, 0, 0, 3), 0, 0, seed, 1, map[],
                           map[0 := Zone(0, origin, true, [])])),
           RngState(seed, seed), 0)
      && out.result == Ok([SimEvent(0, 0, WorldCreated(id, name, seed)), SimEvent(0, 0, ZoneCreated(0, origin))])
      && |id| >= 7 && id[..6] == [119, 111, 114, 108, 100, 95] && Spells(id[6..], seed)
  {
    WorldIdLaw(seed);
    hide WorldIdOf;
    OriginIsSpelled();
  }

  lemma OriginIsSpelled()
    ensures Ascii("Origin") == [79, 114, 105, 103, 105, 110]
  {
    assert |Ascii("Origin")| == 6;
  }

  /** A decimal numeral without leading zeros. */
  ghost predicate Spells(t: Text, n: nat) {
    && t != [] && (forall i :: 0 <= i < |t| ==> 48 <= t[i] <= 57)
    && NumeralValue(t) == n && (|t| > 1 ==> t[0] != 48)
  }

  function NumeralValue(t: Text): int {
    if t == [] then 0 else 10 * NumeralValue(t[..|t| - 1]) + (t[|t| - 1] as int - 48)
  }

  lemma {:induction false} DecimalSpells(n: nat)
    ensures Spells(Decimal(n), n) && (n > 0 ==> Decimal(n)[0] != 48)
  {
    if n < 10 {
      assert Decimal(n)[..0] == [];
    } else {
      DecimalSpells(n / 10);
      var t := Decimal(n / 10);
      assert Decimal(n) == t + [48 + n % 10];
      assert Decimal(n)[..|t|] == t;
    }
  }

  /** A world id is "world_" and the seed in decimal. */
  lemma WorldIdLaw(seed: RngSeed)
    ensures var id := WorldIdOf(seed);
      |id| >= 7 && id[..6] == [119, 111, 114, 108, 100, 95] && Spells(id[6..], seed)
  {
    DecimalSpells(seed);
    var prefix: Text := [119, 111, 114, 108, 100, 95];
    assert WorldIdOf(seed) == prefix + Decimal(seed);
    assert WorldIdOf(seed)[6..] == Decimal(seed);
  }

  // ------------------------------------------------------------------------
  // The log's part
  // ------------------------------------------------------------------------

  /** A batch is written exactly when its payload, numbered, is at most 16 MiB. */
  lemma AppendLaw(c: Codec, l: LogState, events: seq<SimEvent>)
    ensures events == [] ==> AppendBatch(c, l, events) == Appended(l, Ok([]))
    ensures events != [] ==>
      (AppendBatch(c, l, events).result.Ok? <==> |c.encode(Numbered(events, l.nextEventId))| <= 0x100_0000)
    ensures AppendBatch(c, l, events).result.Err? ==> AppendBatch(c, l, events) == Appended(l, Err(PersistenceError))
  {
    hide Body;
  }

  /** The world may be created here: nothing under its id, and nothing in the log. */
  predicate Vacant(n: Node, cmd: SimCommand) {
    cmd.CreateWorld? ==> WorldIdOf(cmd.seed) !in n.store.dirs && n.log.totalEvents == 0
  }

  /** The persistent runtime accepts a command exactly when creation finds its place vacant, the
      command is within the limits, the world permits it, and its batch fits one record. */
  lemma RuntimeAcceptanceLaw(cs: Codecs, n: Node, cmd: SimCommand)
    ensures RunCommand(cs, n, cmd).result.Ok? <==>
      && Vacant(n, cmd) && WithinLimits(cmd) && Permits(n.sim.world, cmd)
      && |cs.wal.encode(Numbered(EventsOf(Step(n.sim, cmd)), n.log.nextEventId))| <= 0x100_0000
  {
    hide Step, AppendBatch, Numbered, WithinLimits, Permits, WorldIdOf;
    AcceptanceLaw(n.sim, cmd);
    if Step(n.sim, cmd).result.Ok? {
      StepEmits(n.sim, cmd);
      AppendLaw(cs.wal, n.log, Step(n.sim, cmd).result.value);
    }
  }

  /** An accepted command's new process: the state of the step, one record after the old bytes, the
      counters moved, the log's directory there; the cells untouched. */
  lemma RuntimeEffectLaw(cs: Codecs, n: Node, cmd: SimCommand)
    requires RunCommand(cs, n, cmd).result.Ok?
    ensures var out := RunCommand(cs, n, cmd); var numbered := Numbered(EventsOf(Step(n.sim, cmd)), n.log.nextEventId);
      && out.result == Ok(numbered)
      && out.node.sim == Step(n.sim, cmd).state && out.node.logDir == n.logDir
      && out.node.store == n.store.(dirs := n.store.dirs + {n.logDir})
      && EncodeRecord(cs.wal, numbered).Ok?
      && out.node.log.file == Some(n.log.Bytes() + EncodeRecord(cs.wal, numbered).value)
      && out.node.log.totalEvents == n.log.totalEvents + |numbered|
      && out.node.log.lastTick == Some(numbered[|numbered| - 1].tick)
  {
    hide Step, Numbered, EncodeRecord;
    StepEmits(n.sim, cmd);
  }

  /** Which error refuses a creation: the world exists in full, or something is in its place. */
  lemma CreationRefusalLaw(cs: Codecs, n: Node, name: Text, seed: RngSeed)
    requires !Vacant(n, CreateWorld(name, seed))
    ensures var id := WorldIdOf(seed);
      var whole := id in n.store.dirs && id in n.store.snapshots && id in n.store.metas;
      RunCommand(cs, n, CreateWorld(name, seed))
        == Answer(n, Err(if whole then WorldAlreadyExists(id) else StorageError))
  {
    hide Step, AppendBatch, WorldIdOf;
  }
}
