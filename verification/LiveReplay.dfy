/** Live execution and replay agree: replaying the events of a command on the world before it
    gives the world after it, field by field. */
module LiveReplay {
  import opened SyTypes
  import opened SyApi
  import opened Pcg32
  import opened WorldModel
  import opened Sim
  import opened Replay

  /** The event kinds the tick systems emit, stamped with the current tick. */
  predicate TickEvent(e: SimEvent, tick: Tick) {
    && e.tick == tick
    && (e.data.ResourceDepleted? || e.data.EntityStateChanged?
        || (e.data.EntityDegraded? && e.data.oldHealth == e.data.newHealth + 1)
        || e.data.EntityDespawned? || e.data.TickProcessed?)
  }

  predicate SameHeader(a: WorldState, b: WorldState) {
    a.meta == b.meta && a.currentTick == b.currentTick && a.simTime == b.simTime
    && a.nextEntityId == b.nextEntityId && a.zones.Keys == b.zones.Keys
  }

  /** The tick in progress replays: its events lead from the started world to the current one. */
  ghost predicate Tracks(start: WorldState, run: TickRun) {
    && Replays(start, run.events, run.world)
    && SameHeader(start, run.world)
    && forall e :: e in run.events ==> TickEvent(e, start.currentTick)
  }

  lemma TracksStep(start: WorldState, run: TickRun, events: seq<SimEvent>, next: TickRun)
    requires Tracks(start, run) && Replays(run.world, events, next.world)
    requires SameHeader(run.world, next.world) && next.events == run.events + events
    requires forall e :: e in events ==> TickEvent(e, start.currentTick)
    ensures Tracks(start, next)
  {
    ReplayConcat(start, run.events, run.world, events, next.world);
  }

  lemma ReplayTwo(w: WorldState, e1: SimEvent, w1: WorldState, e2: SimEvent, w2: WorldState)
    requires ApplyEvent(w, e1) == Ok(w1) && ApplyEvent(w1, e2) == Ok(w2)
    ensures Replays(w, [e1, e2], w2)
  {
    hide ApplyEvent;
    ReplayOne(w, e1);
    ReplayOne(w1, e2);
    ReplayConcat(w, [e1], w1, [e2], w2);
    assert [e1] + [e2] == [e1, e2];
  }

  /** A loss event followed, at zero, by the death event, replays to the worn entity. */
  lemma WearReplays(w: WorldState, id: EntityId, worn: Entity, loss: SimEvent, dies: bool)
    requires id in w.entities
    requires worn.state == if dies then Dead else w.entities[id].state
    requires ApplyEvent(w, loss) == Ok(w.PutEntity(id, worn.(state := w.entities[id].state)))
    ensures Replays(w, [loss] + (if dies then DeathOf(w, id, w.entities[id]) else []), w.PutEntity(id, worn))
  {
    var w1 := w.PutEntity(id, worn.(state := w.entities[id].state));
    ReplayOne(w, loss);
    if dies {
      var death := DeathOf(w, id, w.entities[id])[0];
      assert w1.PutEntity(id, w1.entities[id].(state := Dead)) == w.PutEntity(id, worn);
      ReplayTwo(w, loss, w1, death, w.PutEntity(id, worn));
      assert [loss] + [death] == [loss, death];
    } else {
      assert worn.(state := w.entities[id].state) == worn;
      assert [loss] + [] == [loss];
    }
  }

  lemma ResourceReplays(run: TickRun, seed: RngSeed, id: EntityId)
    requires id in run.world.entities
    ensures var next := WearResource(run, seed, id, run.world.entities[id]);
      exists events :: WearStep(run, events, next)
  {
    hide Advance, Chance, Replays;
    var w, e := run.world, run.world.entities[id];
    var next := WearResource(run, seed, id, e);
    if e.properties.amount.Some? && e.properties.amount.value > 0 && Chance(run.rng, ONE_PERCENT) {
      var left := e.properties.amount.value - 1;
      var worn := e.(properties := e.properties.(amount := Some(left)), state := if left == 0 then Dead else e.state);
      var loss := Happened(w, ResourceDepleted(id, 1, left));
      WearReplays(w, id, worn, loss, left == 0);
      var events := [loss] + (if left == 0 then DeathOf(w, id, e) else []);
      assert next.events == run.events + events;
      assert WearStep(run, events, next);
    } else {
      NoEventsReplay(w);
      assert WearStep(run, [], next);
    }
  }

  lemma CreatureReplays(run: TickRun, seed: RngSeed, id: EntityId)
    requires id in run.world.entities
    ensures var next := WearCreature(run, seed, id, run.world.entities[id]);
      exists events :: WearStep(run, events, next)
  {
    hide Advance, Chance, Replays;
    var w, e := run.world, run.world.entities[id];
    var next := WearCreature(run, seed, id, e);
    if e.properties.health.Some? && e.properties.health.value > 0 && Chance(run.rng, HALF_PERCENT) {
      var left := e.properties.health.value - 1;
      var worn := e.(properties := e.properties.(health := Some(left)), state := if left == 0 then Dead else e.state);
      var loss := Happened(w, EntityDegraded(id, left + 1, left));
      WearReplays(w, id, worn, loss, left == 0);
      var events := [loss] + (if left == 0 then DeathOf(w, id, e) else []);
      assert next.events == run.events + events;
      assert WearStep(run, events, next);
    } else {
      NoEventsReplay(w);
      assert WearStep(run, [], next);
    }
  }

  lemma NoEventsReplay(w: WorldState)
    ensures Replays(w, [], w)
  {
  }

  /** One iteration of a tick loop adds events that replay to its world. */
  ghost predicate WearStep(run: TickRun, events: seq<SimEvent>, next: TickRun) {
    && Replays(run.world, events, next.world)
    && SameHeader(run.world, next.world)
    && next.events == run.events + events
    && forall e :: e in events ==> TickEvent(e, run.world.currentTick)
  }

  lemma ProcessEntityTracks(start: WorldState, run: TickRun, seed: RngSeed, id: EntityId)
    requires Tracks(start, run)
    ensures Tracks(start, ProcessEntity(run, seed, id))
  {
    hide WearResource, WearCreature, Replays, TickEvent;
    var next := ProcessEntity(run, seed, id);
    if id in run.world.entities {
      if run.world.entities[id].kind.Resource? {
        ResourceReplays(run, seed, id);
        var worn := WearResource(run, seed, id, run.world.entities[id]);
        var events :| WearStep(run, events, worn);
        TracksStep(start, run, events, next);
      } else if run.world.entities[id].kind.Creature? {
        CreatureReplays(run, seed, id);
        var worn := WearCreature(run, seed, id, run.world.entities[id]);
        var events :| WearStep(run, events, worn);
        TracksStep(start, run, events, next);
      }
    }
  }

  lemma {:induction false} ProcessAllTracks(start: WorldState, run: TickRun, seed: RngSeed, ids: seq<EntityId>)
    requires Tracks(start, run)
    ensures Tracks(start, ProcessAll(run, seed, ids))
    decreases |ids|
  {
    hide Tracks, ProcessEntity;
    if ids == [] {
    } else {
      ProcessAllTracks(start, run, seed, ids[..|ids| - 1]);
      ProcessEntityTracks(start, ProcessAll(run, seed, ids[..|ids| - 1]), seed, ids[|ids| - 1]);
    }
  }

  lemma {:induction false} BuryTracks(start: WorldState, run: TickRun, ids: seq<EntityId>)
    requires Tracks(start, run)
    ensures Tracks(start, Bury(run, ids))
    decreases |ids|
  {
    if ids == [] {
    } else {
      var before := Bury(run, ids[..|ids| - 1]);
      var id := ids[|ids| - 1];
      BuryTracks(start, run, ids[..|ids| - 1]);
      if id in before.world.entities {
        var event := Happened(before.world, EntityDespawned(id, Death));
        ReplayOne(before.world, event);
        TracksStep(start, before, [event], Bury(run, ids));
      }
    }
  }

  lemma TickSystemsTrack(w: WorldState, rng: u64, seed: RngSeed)
    ensures Tracks(w, TickSystems(w, rng, seed))
  {
    hide ProcessAll, Bury, IdsByState;
    var start := TickRun(w, rng, [], 0);
    NoEventsReplay(w);
    ProcessAllTracks(w, start, seed, IdsByState(w, Active));
    var run := ProcessAll(start, seed, IdsByState(w, Active));
    BuryTracks(w, run, IdsByState(run.world, Dead));
  }

  /** The first event of a new tick finds the world one tick behind and catches it up. */
  lemma FirstEventCatchesUp(w: WorldState, event: SimEvent)
    requires w.TimeAgrees() && TickEvent(event, SatNext(w.currentTick))
    ensures ApplyEvent(w, event) == ApplyEvent(w.AdvanceTick(), event)
  {
    hide ApplyData;
    assert CatchUp(w, event) == w.AdvanceTick();
    assert CatchUp(w.AdvanceTick(), event) == w.AdvanceTick();
  }

  lemma TickReplaysFromStart(s: SimState)
    requires s.world.Some?
    ensures var p := TickIn(s); var started := s.world.value.AdvanceTick();
      && p.state.world.Some? && p.events != []
      && Replays(started, p.events, p.state.world.value)
      && (forall e :: e in p.events ==> TickEvent(e, started.currentTick))
  {
    hide TickSystems, ReplayFrom;
    var started := s.world.value.AdvanceTick();
    var run := TickSystems(started, s.rng.state, s.rng.seed);
    var p := TickIn(s);
    TickSystemsTrack(started, s.rng.state, s.rng.seed);
    var done := p.events[|p.events| - 1];
    assert p.events == run.events + [done];
    assert ApplyEvent(run.world, done) == Ok(p.state.world.value);
    ReplayOne(run.world, done);
    ReplayConcat(started, run.events, run.world, [done], p.state.world.value);
  }

  lemma TickReplays(s: SimState)
    requires s.world.Some? && s.world.value.WellFormed()
    ensures var p := TickIn(s);
      && p.state.world.Some?
      && Replays(s.world.value, p.events, p.state.world.value)
      && p.state.world.value.WellFormed()
  {
    hide TickIn, ApplyEvent;
    var w, p := s.world.value, TickIn(s);
    TickReplaysFromStart(s);
    FirstEventCatchesUp(w, p.events[0]);
    ReplayKeepsWellFormed(w, p.events);
  }

  lemma {:induction false} TickManyReplays(s: SimState, n: nat)
    requires s.world.Some? && s.world.value.WellFormed()
    ensures var p := TickManyIn(s, n);
      && p.error.None? && p.state.world.Some?
      && Replays(s.world.value, p.events, p.state.world.value)
      && p.state.world.value.WellFormed()
  {
    hide TickIn, Replays;
    TickManyFailsAtOnce(s, n);
    if n == 0 {
      NoEventsReplay(s.world.value);
    } else {
      TickManyReplays(s, n - 1);
      var before := TickManyIn(s, n - 1);
      TickReplays(before.state);
      var last := TickIn(before.state);
      ReplayConcat(s.world.value, before.events, before.state.world.value, last.events, last.state.world.value);
    }
  }

  /** The id counter has room for one more entity. */
  ghost predicate RoomFor(w: WorldState, cmd: SimCommand) {
    cmd.SpawnEntity? ==> w.nextEntityId < U64_MAX
  }

  /** Main result: an accepted command other than `CreateWorld` is exactly its events. */
  lemma LiveReplayAgrees(s: SimState, cmd: SimCommand)
    requires s.world.Some? && s.world.value.WellFormed() && RoomFor(s.world.value, cmd)
    requires Step(s, cmd).result.Ok?
    ensures var out := Step(s, cmd);
      && out.state.world.Some?
      && Replays(s.world.value, out.result.value, out.state.world.value)
      && out.state.world.value.WellFormed()
  {
    hide TickIn, TickManyIn, ReplayFrom;
    var w, out := s.world.value, Step(s, cmd);
    match cmd {
      case CreateWorld(_, _) =>
      case TickOnce => TickReplays(s);
      case TickN(n) => TickManyReplays(s, n);
      case SpawnEntity(_, _, _) =>
        OneEventReplays(w, out.result.value, out.state.world.value);
      case DespawnEntity(_) =>
        OneEventReplays(w, out.result.value, out.state.world.value);
      case CreateZone(_, _) =>
        OneEventReplays(w, out.result.value, out.state.world.value);
    }
  }

  lemma OneEventReplays(w: WorldState, events: seq<SimEvent>, w': WorldState)
    requires w.WellFormed() && |events| == 1 && SpawnsAllocatableId(events[0])
    requires ApplyEvent(w, events[0]) == Ok(w')
    ensures Replays(w, events, w') && w'.WellFormed()
  {
    hide ApplyEvent;
    ReplayOne(w, events[0]);
    assert events == [events[0]];
    ReplayKeepsWellFormed(w, events);
  }

  /** The genesis events replay as the identity on the world they describe. */
  lemma GenesisReplaysAsIdentity(s: SimState, name: Text, seed: RngSeed)
    requires s.world.None? && CommandValid(CreateWorld(name, seed))
    ensures var out := Step(s, CreateWorld(name, seed));
      && out.result.Ok? && out.state == SimState(Some(NewWorld(name, seed)), RngState(seed, seed), 0)
      && Replays(NewWorld(name, seed), out.result.value, NewWorld(name, seed))
  {
    var w := NewWorld(name, seed);
    var events := Step(s, CreateWorld(name, seed)).result.value;
    ReplayTwo(w, events[0], w, events[1], w);
    assert events == [events[0], events[1]];
  }
}
