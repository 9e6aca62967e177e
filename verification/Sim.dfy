/** The live simulation: commands to events and state. The functions are the meaning of each
    step on values; the class at the end is the in-place program, proved to compute them. */
module Sim {
  import opened SyTypes
  import opened SyApi
  import opened SortedKeys
  import opened Pcg32
  import opened WorldModel

  // ------------------------------------------------------------------------
  // One tick
  // ------------------------------------------------------------------------

  /** The tick loop in progress: the world, the generator state, the events pushed so far and
      the number of entities processed. */
  datatype TickRun = TickRun(world: WorldState, rng: u64, events: seq<SimEvent>, processed: u32)

  function Happened(w: WorldState, data: EventData): SimEvent {
    SimEvent(0, w.currentTick, data)
  }

  function DeathOf(w: WorldState, id: EntityId, e: Entity): seq<SimEvent> {
    [Happened(w, EntityStateChanged(id, e.state, Dead))]
  }

  /** The `Resource` arm: with a positive amount, draw; on a hit take one unit, and at zero die. */
  function WearResource(run: TickRun, seed: RngSeed, id: EntityId, e: Entity): TickRun {
    if e.properties.amount.Some? && e.properties.amount.value > 0 then
      var drawn := run.(rng := Advance(seed, run.rng));
      if Chance(run.rng, ONE_PERCENT) then
        var left := e.properties.amount.value - 1;
        var worn := e.(properties := e.properties.(amount := Some(left)),
                       state := if left == 0 then Dead else e.state);
        drawn.(world := run.world.PutEntity(id, worn),
               events := run.events
                 + [Happened(run.world, ResourceDepleted(id, 1, left))]
                 + (if left == 0 then DeathOf(run.world, id, e) else []))
      else drawn
    else run
  }

  /** The `Creature` arm: the same on health, at half the rate. */
  function WearCreature(run: TickRun, seed: RngSeed, id: EntityId, e: Entity): TickRun {
    if e.properties.health.Some? && e.properties.health.value > 0 then
      var drawn := run.(rng := Advance(seed, run.rng));
      if Chance(run.rng, HALF_PERCENT) then
        var hp := e.properties.health.value;
        var left := hp - 1;
        var worn := e.(properties := e.properties.(health := Some(left)),
                       state := if left == 0 then Dead else e.state);
        drawn.(world := run.world.PutEntity(id, worn),
               events := run.events
                 + [Happened(run.world, EntityDegraded(id, hp, left))]
                 + (if left == 0 then DeathOf(run.world, id, e) else []))
      else drawn
    else run
  }

  function ProcessEntity(run: TickRun, seed: RngSeed, id: EntityId): TickRun {
    if id !in run.world.entities then run else
    var e := run.world.entities[id];
    var worn := match e.kind
      case Resource => WearResource(run, seed, id, e)
      case Creature => WearCreature(run, seed, id, e)
      case _ => run;
    worn.(processed := (worn.processed + 1) % 0x1_0000_0000)
  }

  function ProcessAll(run: TickRun, seed: RngSeed, ids: seq<EntityId>): TickRun {
    if ids == [] then run
    else ProcessEntity(ProcessAll(run, seed, ids[..|ids| - 1]), seed, ids[|ids| - 1])
  }

  /** Ids of the entities in a given state, in ascending key order. */
  function IdsIn(entities: map<EntityId, Entity>, keys: seq<EntityId>, state: EntityState): (ids: seq<EntityId>)
    requires forall k :: k in keys ==> k in entities
  {
    if keys == [] then []
    else
      var rest := IdsIn(entities, keys[1..], state);
      if entities[keys[0]].state == state then [entities[keys[0]].id] + rest else rest
  }

  function IdsByState(w: WorldState, state: EntityState): seq<EntityId> {
    IdsIn(w.entities, Ascending(w.entities.Keys), state)
  }

  /** Remove the listed entities one by one, with a death event for each one present. */
  function Bury(run: TickRun, ids: seq<EntityId>): TickRun {
    if ids == [] then run else
    var before := Bury(run, ids[..|ids| - 1]);
    var id := ids[|ids| - 1];
    if id in before.world.entities then
      before.(world := before.world.RemoveEntity(id),
              events := before.events + [Happened(before.world, EntityDespawned(id, Death))])
    else before
  }

  /** `run_tick_systems` on a world whose tick has already advanced. */
  function TickSystems(w: WorldState, rng: u64, seed: RngSeed): TickRun {
    var run := ProcessAll(TickRun(w, rng, [], 0), seed, IdsByState(w, Active));
    if w.currentTick % 100 == 0 then Bury(run, IdsByState(run.world, Dead)) else run
  }

  // ------------------------------------------------------------------------
  // Commands
  // ------------------------------------------------------------------------

  /** World, generator and clock: everything a checkpoint captures. */
  datatype SimState = SimState(world: Option<WorldState>, rng: RngState, clock: Tick) {
    /** Generator and clock mirror the world: true at every command boundary. */
    ghost predicate Synced() {
      world.Some? ==> rng == RngState(world.value.meta.seed, world.value.rngState) && clock == world.value.currentTick
    }
  }

  /** What running part of a command leaves behind: the state, the events pushed, an error. */
  datatype Progress = Progress(state: SimState, events: seq<SimEvent>, error: Option<ApiError>)

  function CreateIn(s: SimState, name: Text, seed: RngSeed): Progress {
    if s.world.Some? then Progress(s, [], Some(WorldAlreadyExists(s.world.value.meta.worldId))) else
    var w := NewWorld(name, seed);
    Progress(SimState(Some(w), RngState(seed, seed), 0),
             [SimEvent(0, 0, WorldCreated(w.meta.worldId, name, seed)),
              SimEvent(0, 0, ZoneCreated(ORIGIN, Some(Ascii("Origin"))))],
             None)
  }

  function TickIn(s: SimState): Progress {
    if s.world.None? then Progress(s, [], Some(NoWorldLoaded)) else
    var started := s.world.value.AdvanceTick();
    var run := TickSystems(started, s.rng.state, s.rng.seed);
    var w := run.world.(rngState := run.rng);
    Progress(SimState(Some(w), RngState(s.rng.seed, run.rng), started.currentTick),
             run.events
               + [Happened(w, TickProcessed(started.currentTick, started.simTime, run.processed, Some(run.rng)))],
             None)
  }

  /** `TickN`: ticks until the first error, which leaves the loop at once. */
  function TickManyIn(s: SimState, n: nat): Progress {
    if n == 0 then Progress(s, [], None) else
    var before := TickManyIn(s, n - 1);
    if before.error.Some? then before else
    var last := TickIn(before.state);
    Progress(last.state, before.events + last.events, last.error)
  }

  function SpawnIn(s: SimState, position: WorldPos, kind: EntityKind, properties: EntityProperties): Progress {
    if s.world.None? then Progress(s, [], Some(NoWorldLoaded)) else
    var w := s.world.value;
    if position.zone !in w.zones then Progress(s, [], Some(ZoneNotFound(position.zone))) else
    var id := w.nextEntityId;
    var w' := w.(nextEntityId := WrapNext(id)).AddEntity(NewEntity(id, kind, position, w.currentTick, properties));
    Progress(s.(world := Some(w')), [Happened(w, EntitySpawned(id, kind, position, properties))], None)
  }

  function DespawnIn(s: SimState, id: EntityId): Progress {
    if s.world.None? then Progress(s, [], Some(NoWorldLoaded)) else
    var w := s.world.value;
    if id !in w.entities then Progress(s, [], Some(EntityNotFound(id))) else
    Progress(s.(world := Some(w.RemoveEntity(id))), [Happened(w, EntityDespawned(id, Command))], None)
  }

  function CreateZoneIn(s: SimState, id: ZoneId, name: Option<Text>): Progress {
    if s.world.None? then Progress(s, [], Some(NoWorldLoaded)) else
    var w := s.world.value;
    if id in w.zones then Progress(s, [], Some(ZoneAlreadyExists(id))) else
    Progress(s.(world := Some(w.AddZone(NewZone(id, name)))), [Happened(w, ZoneCreated(id, name))], None)
  }

  function Execute(s: SimState, cmd: SimCommand): Progress {
    match cmd
    case CreateWorld(name, seed) => CreateIn(s, name, seed)
    case TickOnce => TickIn(s)
    case TickN(n) => TickManyIn(s, n)
    case SpawnEntity(position, kind, properties) => SpawnIn(s, position, kind, properties)
    case DespawnEntity(id) => DespawnIn(s, id)
    case CreateZone(id, name) => CreateZoneIn(s, id, name)
  }

  datatype Outcome = Outcome(state: SimState, result: Result<seq<SimEvent>, ApiError>)

  /** `process_command`: validate, execute, and on an execution error restore the checkpoint,
      except that an error inside `TickN` returns before the restore. */
  function Step(s: SimState, cmd: SimCommand): Outcome {
    if !CommandValid(cmd) then Outcome(s, Err(ValidationFailed)) else
    var p := Execute(s, cmd);
    match p.error
    case None => Outcome(p.state, Ok(p.events))
    case Some(e) => Outcome(if cmd.TickN? then p.state else s, Err(e))
  }

  /** A failed command leaves world, generator and clock alone, also on the early exit. */
  lemma FailedCommandIsInvisible(s: SimState, cmd: SimCommand)
    requires Step(s, cmd).result.Err?
    ensures Step(s, cmd).state == s
  {
    if CommandValid(cmd) && cmd.TickN? {
      TickManyFailsAtOnce(s, cmd.n);
    }
  }

  lemma {:induction false} TickManyFailsAtOnce(s: SimState, n: nat)
    ensures var p := TickManyIn(s, n);
      if s.world.None? && n > 0
      then p.state == s && p.events == [] && p.error == Some(NoWorldLoaded)
      else p.error.None? && (s.world.Some? ==> p.state.world.Some?)
  {
    hide TickSystems;
    if n == 0 {
    } else {
      TickManyFailsAtOnce(s, n - 1);
    }
  }

  lemma {:induction false} BuryKeepsCount(run: TickRun, ids: seq<EntityId>)
    ensures Bury(run, ids).processed == run.processed
  {
    if ids == [] {
    } else {
      BuryKeepsCount(run, ids[..|ids| - 1]);
    }
  }

  lemma BuryNone(run: TickRun)
    ensures Bury(run, []) == run
  {
  }

  lemma BuryNext(run: TickRun, ids: seq<EntityId>, i: nat)
    requires i < |ids|
    ensures var before := Bury(run, ids[..i]);
      Bury(run, ids[..i + 1]) == if ids[i] !in before.world.entities then before else
        before.(world := before.world.RemoveEntity(ids[i]),
                events := before.events + [Happened(before.world, EntityDespawned(ids[i], Death))])
  {
    assert ids[..i + 1][..i] == ids[..i];
  }

  lemma ProcessNone(run: TickRun, seed: RngSeed, ids: seq<EntityId>)
    ensures ProcessAll(run, seed, ids[..0]) == run
  {
    hide ProcessEntity;
  }

  lemma ProcessNext(run: TickRun, seed: RngSeed, ids: seq<EntityId>, i: nat)
    requires i < |ids|
    ensures var before := ProcessAll(run, seed, ids[..i]);
      var after := ProcessAll(run, seed, ids[..i + 1]);
      after == ProcessEntity(before, seed, ids[i])
      && (ids[i] !in before.world.entities ==> after == before)
      && (ids[i] in before.world.entities ==> after.processed == (before.processed + 1) % 0x1_0000_0000)
  {
    hide Advance, Chance;
    assert ids[..i + 1][..i] == ids[..i];
  }

  lemma TickNFailsClean(s: SimState, cmd: SimCommand)
    requires cmd.TickN? && Execute(s, cmd).error.Some?
    ensures Execute(s, cmd).events == []
  {
    TickManyFailsAtOnce(s, cmd.n);
  }

  // ------------------------------------------------------------------------
  // The simulation object
  // ------------------------------------------------------------------------

  class UnlimitedClock {
    var currentTick: Tick

    constructor ()
      ensures currentTick == 0
    {
      currentTick := 0;
    }

    method SetTick(t: Tick)
      modifies this
      ensures currentTick == t
    {
      currentTick := t;
    }
  }

  class Simulation {
    var world: World?
    const rng: Pcg32Rng
    const clock: UnlimitedClock
    var pendingEvents: seq<SimEvent>

    ghost function Footprint(): set<object>
      reads this
    {
      {this, rng, clock} + (if world == null then {} else {world})
    }

    ghost predicate Valid()
      reads this, Footprint()
    {
      rng.Valid()
    }

    ghost function WorldValue(): Option<WorldState>
      reads this, Footprint()
    {
      if world == null then None else Some(world.State())
    }

    ghost function State(): SimState
      reads this, Footprint()
    {
      SimState(WorldValue(), rng.State(), clock.currentTick)
    }

    constructor (r: Pcg32Rng, c: UnlimitedClock)
      requires r.Valid()
      ensures Valid() && rng == r && clock == c && world == null && pendingEvents == []
    {
      world := null;
      rng, clock := r, c;
      pendingEvents := [];
    }

    method Checkpoint() returns (s: SimState)
      requires Valid()
      ensures s == State()
    {
      var w := None;
      if world != null {
        var value := world.Snapshot();
        w := Some(value);
      }
      s := SimState(w, RngState(rng.seed, rng.state), clock.currentTick);
    }

    method RestoreCheckpoint(s: SimState)
      modifies this, rng, clock
      ensures Valid() && State() == s && pendingEvents == []
      ensures world != null ==> fresh(world)
    {
      if s.world.Some? {
        world := new World.FromState(s.world.value);
      } else {
        world := null;
      }
      rng.RestoreSeeded(s.rng.seed, s.rng.state);
      clock.SetTick(s.clock);
      pendingEvents := [];
    }

    /** Install a world and derive generator and clock from it. */
    method LoadWorldState(w: WorldState)
      modifies this, rng, clock
      ensures Valid() && State() == SimState(Some(w), RngState(w.meta.seed, w.rngState), w.currentTick)
      ensures State().Synced() && pendingEvents == [] && fresh(world)
    {
      rng.RestoreSeeded(w.meta.seed, w.rngState);
      clock.SetTick(w.currentTick);
      world := new World.FromState(w);
      pendingEvents := [];
    }

    method Emit(data: EventData)
      modifies this`pendingEvents
      ensures pendingEvents == old(pendingEvents)
        + [SimEvent(0, if world == null then 0 else world.currentTick, data)]
    {
      var tick := if world == null then 0 else world.currentTick;
      pendingEvents := pendingEvents + [SimEvent(0, tick, data)];
    }

    method ProcessCommand(cmd: SimCommand) returns (r: Result<seq<SimEvent>, ApiError>)
      requires Valid()
      modifies Footprint()
      ensures pendingEvents == if CommandValid(cmd) then [] else old(pendingEvents)
      ensures Valid() && fresh(Footprint() - old(Footprint()))
      ensures Outcome(State(), r) == Step(old(State()), cmd)
    {
      hide Execute;
      if !CommandValid(cmd) {
        return Err(ValidationFailed);
      }
      pendingEvents := [];
      var checkpoint := Checkpoint();
      var failure := Dispatch(cmd);
      if failure.Some? {
        if cmd.TickN? {
          TickNFailsClean(old(State()), cmd);
          return Err(failure.value);
        }
        RestoreCheckpoint(checkpoint);
        return Err(failure.value);
      }
      r := Ok(pendingEvents);
      pendingEvents := [];
    }

    /** The match on the command, with no event pending before it. */
    method Dispatch(cmd: SimCommand) returns (failure: Option<ApiError>)
      requires Valid() && pendingEvents == []
      modifies Footprint()
      ensures Valid() && fresh(Footprint() - old(Footprint()))
      ensures Progress(State(), pendingEvents, failure) == Execute(old(State()), cmd)
    {
      hide TickIn, TickManyIn, CreateIn, SpawnIn, DespawnIn, CreateZoneIn;
      match cmd {
        case CreateWorld(name, seed) => failure := CmdCreateWorld(name, seed);
        case TickOnce => failure := CmdTick();
        case TickN(n) => failure := CmdTicks(n);
        case SpawnEntity(position, kind, properties) => failure := CmdSpawnEntity(position, kind, properties);
        case DespawnEntity(id) => failure := CmdDespawnEntity(id);
        case CreateZone(id, name) => failure := CmdCreateZone(id, name);
      }
    }

    method CmdCreateWorld(name: Text, seed: RngSeed) returns (failure: Option<ApiError>)
      requires Valid()
      modifies Footprint()
      ensures Valid() && fresh(Footprint() - old(Footprint()))
      ensures var p := CreateIn(old(State()), name, seed);
        State() == p.state && pendingEvents == old(pendingEvents) + p.events && failure == p.error
    {
      if world != null {
        return Some(WorldAlreadyExists(world.meta.worldId));
      }
      var w := new World(name, seed);
      rng.RestoreSeeded(seed, seed);
      clock.SetTick(0);
      Emit(WorldCreated(w.meta.worldId, name, seed));
      Emit(ZoneCreated(ORIGIN, Some(Ascii("Origin"))));
      world := w;
      failure := None;
    }

    method CmdTick() returns (failure: Option<ApiError>)
      requires Valid()
      modifies Footprint()
      ensures Valid() && world == old(world)
      ensures var p := TickIn(old(State()));
        State() == p.state && pendingEvents == old(pendingEvents) + p.events && failure == p.error
    {
      if world == null {
        return Some(NoWorldLoaded);
      }
      world.AdvanceTick();
      clock.SetTick(world.currentTick);
      var tick, simTime := world.currentTick, world.simTime;
      var processed := RunTickSystems();
      world.rngState := rng.state;
      Emit(TickProcessed(tick, simTime, processed, Some(rng.state)));
      failure := None;
    }

    /** The loop of `TickN`. */
    method CmdTicks(n: u32) returns (failure: Option<ApiError>)
      requires Valid() && pendingEvents == []
      modifies Footprint()
      ensures Valid() && world == old(world)
      ensures Progress(State(), pendingEvents, failure) == TickManyIn(old(State()), n)
    {
      hide TickIn;
      ghost var start := State();
      failure := None;
      for i := 0 to n
        invariant Valid() && world == old(world) && failure == None
        invariant TickManyIn(start, i) == Progress(State(), pendingEvents, None)
      {
        failure := CmdTick();
        if failure.Some? {
          TickManyFailsAtOnce(start, i + 1);
          TickManyFailsAtOnce(start, n);
          return;
        }
      }
    }

    /** The systemic rules over active entities in ascending id order, then the burial pass. */
    method RunTickSystems() returns (processed: u32)
      requires Valid() && world != null
      modifies this`pendingEvents, rng`state, world`entities, world`zones
      ensures Valid() && rng.seed == old(rng.seed)
      ensures var run := TickSystems(old(world.State()), old(rng.state), old(rng.seed));
        Holds(run, old(pendingEvents)) && processed == run.processed
    {
      hide ProcessAll, Bury, IdsIn;
      ghost var start := TickRun(world.State(), rng.state, [], 0);
      ghost var pushed := pendingEvents;
      processed := WearActive(start, pushed);
      if world.currentTick % 100 == 0 {
        ghost var worn := ProcessAll(start, rng.seed, IdsByState(start.world, Active));
        BuryDead(worn, pushed);
        BuryKeepsCount(worn, IdsByState(worn.world, Dead));
      }
    }

    method WearActive(ghost start: TickRun, ghost pushed: seq<SimEvent>) returns (processed: u32)
      requires Valid() && world != null && Holds(start, pushed) && start.processed == 0
      modifies this`pendingEvents, rng`state, world`entities
      ensures Valid() && rng.seed == old(rng.seed)
      ensures var run := ProcessAll(start, rng.seed, IdsByState(start.world, Active));
        Holds(run, pushed) && processed == run.processed
    {
      hide ProcessEntity, ProcessAll, Ascending;
      var ids := IdsIn(world.entities, Ascending(world.entities.Keys), Active);
      processed := 0;
      ProcessNone(start, rng.seed, ids);
      for i := 0 to |ids|
        invariant Valid() && rng.seed == old(rng.seed)
        invariant Holds(ProcessAll(start, rng.seed, ids[..i]), pushed)
        invariant processed == ProcessAll(start, rng.seed, ids[..i]).processed
      {
        ghost var run := ProcessAll(start, rng.seed, ids[..i]);
        ProcessNext(start, rng.seed, ids, i);
        if ids[i] in world.entities {
          WearEntity(ids[i], run, pushed);
          processed := (processed + 1) % 0x1_0000_0000;
        }
      }
      assert ids[..|ids|] == ids;
    }

    /** The object holds a tick in progress, its events after those already pushed. */
    ghost predicate Holds(run: TickRun, pushed: seq<SimEvent>)
      requires world != null
      reads this, rng, world
    {
      world.State() == run.world && rng.state == run.rng && pendingEvents == pushed + run.events
    }

    method BuryDead(ghost run: TickRun, ghost pushed: seq<SimEvent>)
      requires Valid() && world != null && Holds(run, pushed)
      modifies this`pendingEvents, world`entities, world`zones
      ensures Holds(Bury(run, IdsByState(run.world, Dead)), pushed)
    {
      hide Ascending, IdsIn, Bury;
      var ids := IdsIn(world.entities, Ascending(world.entities.Keys), Dead);
      BuryNone(run);
      assert ids[..0] == [];
      for i := 0 to |ids|
        invariant Holds(Bury(run, ids[..i]), pushed)
      {
        BuryNext(run, ids, i);
        var removed := world.RemoveEntity(ids[i]);
        if removed.Some? {
          pendingEvents := pendingEvents + [SimEvent(0, world.currentTick, EntityDespawned(ids[i], Death))];
        }
      }
      assert ids[..|ids|] == ids;
    }

    /** The body of the tick loop: one entity draws, wears and possibly dies. */
    method WearEntity(id: EntityId, ghost run: TickRun, ghost pushed: seq<SimEvent>)
      requires Valid() && world != null && id in world.entities && Holds(run, pushed)
      modifies this`pendingEvents, rng`state, world`entities
      ensures Valid() && rng.seed == old(rng.seed)
      ensures Holds(ProcessEntity(run, rng.seed, id), pushed)
    {
      hide WearResource, WearCreature;
      match world.entities[id].kind {
        case Resource => DepleteOne(id, run, pushed);
        case Creature => DegradeOne(id, run, pushed);
        case _ =>
      }
    }

    method DepleteOne(id: EntityId, ghost run: TickRun, ghost pushed: seq<SimEvent>)
      requires Valid() && world != null && id in world.entities && Holds(run, pushed)
      modifies this`pendingEvents, rng`state, world`entities
      ensures Valid() && rng.seed == old(rng.seed)
      ensures Holds(WearResource(run, rng.seed, id, run.world.entities[id]), pushed)
    {
      hide Advance, Chance;
      var e := world.entities[id];
      var amount := e.properties.amount;
      if amount.Some? && amount.value > 0 {
        var hit := rng.Draw(ONE_PERCENT);
        if hit {
          var newAmount := amount.value - 1;
          world.entities := world.entities[id := e.(properties := e.properties.(amount := Some(newAmount)))];
          pendingEvents := pendingEvents + [SimEvent(0, world.currentTick, ResourceDepleted(id, 1, newAmount))];
          if newAmount == 0 {
            Die(id);
          }
        }
      }
    }

    method DegradeOne(id: EntityId, ghost run: TickRun, ghost pushed: seq<SimEvent>)
      requires Valid() && world != null && id in world.entities && Holds(run, pushed)
      modifies this`pendingEvents, rng`state, world`entities
      ensures Valid() && rng.seed == old(rng.seed)
      ensures Holds(WearCreature(run, rng.seed, id, run.world.entities[id]), pushed)
    {
      hide Advance, Chance;
      var e := world.entities[id];
      var health := e.properties.health;
      if health.Some? && health.value > 0 {
        var hit := rng.Draw(HALF_PERCENT);
        if hit {
          var newHealth := health.value - 1;
          world.entities := world.entities[id := e.(properties := e.properties.(health := Some(newHealth)))];
          pendingEvents := pendingEvents
            + [SimEvent(0, world.currentTick, EntityDegraded(id, health.value, newHealth))];
          if newHealth == 0 {
            Die(id);
          }
        }
      }
    }

    method Die(id: EntityId)
      requires world != null && id in world.entities
      modifies this`pendingEvents, world`entities
      ensures world.entities == old(world.entities)[id := old(world.entities)[id].(state := Dead)]
      ensures pendingEvents == old(pendingEvents)
        + [SimEvent(0, world.currentTick, EntityStateChanged(id, old(world.entities)[id].state, Dead))]
    {
      var e := world.entities[id];
      world.entities := world.entities[id := e.(state := Dead)];
      pendingEvents := pendingEvents + [SimEvent(0, world.currentTick, EntityStateChanged(id, e.state, Dead))];
    }

    method CmdSpawnEntity(position: WorldPos, kind: EntityKind, properties: EntityProperties)
      returns (failure: Option<ApiError>)
      requires Valid()
      modifies Footprint()
      ensures Valid() && world == old(world)
      ensures var p := SpawnIn(old(State()), position, kind, properties);
        State() == p.state && pendingEvents == old(pendingEvents) + p.events && failure == p.error
    {
      if world == null {
        return Some(NoWorldLoaded);
      }
      if position.zone !in world.zones {
        return Some(ZoneNotFound(position.zone));
      }
      var id := world.AllocateEntityId();
      world.AddEntity(NewEntity(id, kind, position, world.currentTick, properties));
      Emit(EntitySpawned(id, kind, position, properties));
      failure := None;
    }

    method CmdDespawnEntity(id: EntityId) returns (failure: Option<ApiError>)
      requires Valid()
      modifies Footprint()
      ensures Valid() && world == old(world)
      ensures var p := DespawnIn(old(State()), id);
        State() == p.state && pendingEvents == old(pendingEvents) + p.events && failure == p.error
    {
      if world == null {
        return Some(NoWorldLoaded);
      }
      var removed := world.RemoveEntity(id);
      if removed.None? {
        return Some(EntityNotFound(id));
      }
      Emit(EntityDespawned(id, Command));
      failure := None;
    }

    method CmdCreateZone(id: ZoneId, name: Option<Text>) returns (failure: Option<ApiError>)
      requires Valid()
      modifies Footprint()
      ensures Valid() && world == old(world)
      ensures var p := CreateZoneIn(old(State()), id, name);
        State() == p.state && pendingEvents == old(pendingEvents) + p.events && failure == p.error
    {
      if world == null {
        return Some(NoWorldLoaded);
      }
      if id in world.zones {
        return Some(ZoneAlreadyExists(id));
      }
      world.AddZone(NewZone(id, name));
      Emit(ZoneCreated(id, name));
      failure := None;
    }
  }
}
