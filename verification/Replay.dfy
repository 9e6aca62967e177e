/** Event replay: the strict applier that rebuilds a world from recorded events. */
module Replay {
  import opened SyTypes
  import opened SyApi
  import opened WorldModel

  datatype ReplayError =
    | TickMismatch | MissingRngState | WorldMismatch
    | ZoneConflict | MissingZone
    | SpawnConflict | MissingFromIndex | MissingEntity
    | SourceMismatch | StateMismatch | ValueMismatch
    | UnknownProperty | WrongValueType
    | MissingCounter | AmountOverflow | AmountMismatch | HealthMismatch

  function NameProperty(): Text { Ascii("name") }
  function AmountProperty(): Text { Ascii("amount") }
  function HealthProperty(): Text { Ascii("health") }

  function PropertyOf(e: Entity, property: Text): Result<PropertyValue, ReplayError> {
    if property == NameProperty() then
      Ok(if e.properties.name.Some? then StringValue(e.properties.name.value) else NoValue)
    else if property == AmountProperty() then
      Ok(if e.properties.amount.Some? then UIntValue(e.properties.amount.value) else NoValue)
    else if property == HealthProperty() then
      Ok(if e.properties.health.Some? then UIntValue(e.properties.health.value) else NoValue)
    else Err(UnknownProperty)
  }

  /** Write a property; the `as u32` casts keep the low 32 bits. */
  function WithProperty(e: Entity, property: Text, v: PropertyValue): Result<Entity, ReplayError> {
    if property == NameProperty() then
      if v.StringValue? then Ok(e.(properties := e.properties.(name := Some(v.s)))) else Err(WrongValueType)
    else if property == AmountProperty() then
      if v.UIntValue? then Ok(e.(properties := e.properties.(amount := Some(v.u % 0x1_0000_0000))))
      else Err(WrongValueType)
    else if property == HealthProperty() then
      if v.UIntValue? then Ok(e.(properties := e.properties.(health := Some(v.u % 0x1_0000_0000))))
      else Err(WrongValueType)
    else Err(UnknownProperty)
  }

  /** The tick check made before anything is applied. */
  function CheckTick(w: WorldState, event: SimEvent): Option<ReplayError> {
    match event.data
    case WorldLoaded(_, t) =>
      if event.tick != w.currentTick || t != w.currentTick then Some(TickMismatch) else None
    case WorldSaved(t) =>
      if event.tick != w.currentTick || t != w.currentTick then Some(TickMismatch) else None
    case TickProcessed(t, simTime, _, rng) =>
      if rng.None? then Some(MissingRngState)
      else if event.tick != t || simTime != TimeOf(t) || (t != w.currentTick && t != SatNext(w.currentTick))
      then Some(TickMismatch) else None
    case _ =>
      if event.tick != w.currentTick && event.tick != SatNext(w.currentTick) then Some(TickMismatch) else None
  }

  function CatchUp(w: WorldState, event: SimEvent): WorldState {
    if event.tick > w.currentTick then w.SetTick(event.tick) else w
  }

  function ApplySpawn(w: WorldState, tick: Tick, id: EntityId, kind: EntityKind, position: WorldPos,
                      properties: EntityProperties): Result<WorldState, ReplayError>
  {
    if position.zone !in w.zones then Err(MissingZone)
    else if id in w.entities then
      var e := w.entities[id];
      if e.kind != kind || e.position != position || e.createdAt != tick || e.state != Active
        || e.properties != properties then Err(SpawnConflict)
      else if id !in w.zones[position.zone].entities then Err(MissingFromIndex)
      else Ok(w)
    else
      var w' := if id >= w.nextEntityId then w.(nextEntityId := WrapNext(id)) else w;
      Ok(w'.AddEntity(NewEntity(id, kind, position, tick, properties)))
  }

  function ApplyMove(w: WorldState, id: EntityId, from: WorldPos, to: WorldPos): Result<WorldState, ReplayError> {
    if id !in w.entities then Err(MissingEntity)
    else if w.entities[id].position != from then Err(SourceMismatch)
    else if from.zone !in w.zones || to.zone !in w.zones then Err(MissingZone)
    else if id !in w.zones[from.zone].entities then Err(MissingFromIndex)
    else
      var left := if from.zone == to.zone then w.zones
        else w.zones[from.zone := w.zones[from.zone].Remove(id)];
      var entered := if from.zone == to.zone then left
        else left[to.zone := left[to.zone].Add(id)];
      Ok(w.(zones := entered).PutEntity(id, w.entities[id].(position := to)))
  }

  function ApplyDepletion(w: WorldState, id: EntityId, amount: u32, remaining: u32): Result<WorldState, ReplayError> {
    if id !in w.entities then Err(MissingEntity) else
    var e := w.entities[id];
    if e.properties.amount.None? then Err(MissingCounter)
    else if remaining + amount >= 0x1_0000_0000 then Err(AmountOverflow)
    else if e.properties.amount.value != remaining + amount then Err(AmountMismatch)
    else Ok(w.PutEntity(id, e.(properties := e.properties.(amount := Some(remaining)))))
  }

  function ApplyDegradation(w: WorldState, id: EntityId, oldHealth: u32, newHealth: u32)
    : Result<WorldState, ReplayError>
  {
    if id !in w.entities then Err(MissingEntity) else
    var e := w.entities[id];
    if e.properties.health.None? then Err(MissingCounter)
    else if e.properties.health.value != oldHealth then Err(HealthMismatch)
    else Ok(w.PutEntity(id, e.(properties := e.properties.(health := Some(newHealth)))))
  }

  function ApplyPropertyChange(w: WorldState, id: EntityId, property: Text, oldValue: PropertyValue,
                               newValue: PropertyValue): Result<WorldState, ReplayError>
  {
    if id !in w.entities then Err(MissingEntity) else
    var current := PropertyOf(w.entities[id], property);
    if current.Err? then Err(current.error)
    else if current.value != oldValue then Err(ValueMismatch)
    else
      var written := WithProperty(w.entities[id], property, newValue);
      if written.Err? then Err(written.error) else Ok(w.PutEntity(id, written.value))
  }

  function ApplyData(w: WorldState, tick: Tick, data: EventData): Result<WorldState, ReplayError> {
    match data
    case WorldLoaded(_, _) => Ok(w)
    case WorldSaved(_) => Ok(w)
    case WorldCreated(id, name, seed) =>
      if w.meta.worldId != id || w.meta.name != name || w.meta.seed != seed then Err(WorldMismatch) else Ok(w)
    case TickProcessed(_, _, _, rng) =>
      if rng.None? then Err(MissingRngState) else Ok(w.(rngState := rng.value))
    case ZoneCreated(id, name) =>
      if id in w.zones then
        var z := w.zones[id];
        if z.name != name || !z.loaded || z.entities != [] then Err(ZoneConflict) else Ok(w)
      else Ok(w.AddZone(NewZone(id, name)))
    case ZoneLoaded(id) =>
      if id in w.zones then Ok(w.(zones := w.zones[id := w.zones[id].(loaded := true)])) else Err(MissingZone)
    case ZoneUnloaded(id) =>
      if id in w.zones then Ok(w.(zones := w.zones[id := w.zones[id].(loaded := false)])) else Err(MissingZone)
    case EntitySpawned(id, kind, position, properties) => ApplySpawn(w, tick, id, kind, position, properties)
    case EntityDespawned(id, _) => if id in w.entities then Ok(w.RemoveEntity(id)) else Err(MissingEntity)
    case EntityMoved(id, from, to) => ApplyMove(w, id, from, to)
    case EntityStateChanged(id, oldState, newState) =>
      if id !in w.entities then Err(MissingEntity)
      else if w.entities[id].state != oldState then Err(StateMismatch)
      else Ok(w.PutEntity(id, w.entities[id].(state := newState)))
    case EntityPropertyChanged(id, property, oldValue, newValue) =>
      ApplyPropertyChange(w, id, property, oldValue, newValue)
    case ResourceDepleted(id, amount, remaining) => ApplyDepletion(w, id, amount, remaining)
    case EntityDegraded(id, oldHealth, newHealth) => ApplyDegradation(w, id, oldHealth, newHealth)
  }

  /** `apply_event` on values: the next world, or the reason for refusal. */
  function ApplyEvent(w: WorldState, event: SimEvent): Result<WorldState, ReplayError> {
    var bad := CheckTick(w, event);
    if bad.Some? then Err(bad.value) else ApplyData(CatchUp(w, event), event.tick, event.data)
  }

  /** How far a replay got: the world reached, the number of events applied, the refusal if any. */
  datatype ReplayRun = ReplayRun(world: WorldState, applied: nat, failure: Option<ReplayError>)

  function ReplayFrom(w: WorldState, events: seq<SimEvent>): ReplayRun
    decreases |events|
  {
    if events == [] then ReplayRun(w, 0, None) else
    var first := ApplyEvent(w, events[0]);
    if first.Err? then ReplayRun(w, 0, Some(first.error)) else
    var rest := ReplayFrom(first.value, events[1..]);
    rest.(applied := rest.applied + 1)
  }

  /** The replay accepts every event and ends in `w'`. */
  predicate Replays(w: WorldState, events: seq<SimEvent>, w': WorldState) {
    ReplayFrom(w, events) == ReplayRun(w', |events|, None)
  }

  /** A replay stops at the result of the longest accepted prefix. */
  lemma {:induction false} ReplayStopsAtLongestPrefix(w: WorldState, events: seq<SimEvent>)
    ensures var run := ReplayFrom(w, events);
      && run.applied <= |events|
      && Replays(w, events[..run.applied], run.world)
      && (run.failure.None? <==> run.applied == |events|)
      && (run.applied < |events| ==> ApplyEvent(run.world, events[run.applied]) == Err(run.failure.value))
    decreases |events|
  {
    hide ApplyEvent;
    if events == [] {
    } else {
      var first := ApplyEvent(w, events[0]);
      if first.Ok? {
        ReplayStopsAtLongestPrefix(first.value, events[1..]);
        var n := ReplayFrom(first.value, events[1..]).applied;
        assert events[..n + 1][1..] == events[1..][..n];
      }
    }
  }

  lemma {:induction false} ReplayConcat(w: WorldState, a: seq<SimEvent>, w1: WorldState, b: seq<SimEvent>,
                                        w2: WorldState)
    requires Replays(w, a, w1) && Replays(w1, b, w2)
    ensures Replays(w, a + b, w2)
    decreases |a|
  {
    hide ApplyEvent;
    if a == [] {
      assert a + b == b;
    } else {
      var next := ApplyEvent(w, a[0]).value;
      assert (a + b)[1..] == a[1..] + b;
      ReplayConcat(next, a[1..], w1, b, w2);
    }
  }

  lemma ReplayOne(w: WorldState, e: SimEvent)
    requires ApplyEvent(w, e).Ok?
    ensures Replays(w, [e], ApplyEvent(w, e).value)
  {
    hide ApplyEvent;
    assert ReplayFrom(ApplyEvent(w, e).value, [e][1..]) == ReplayRun(ApplyEvent(w, e).value, 0, None);
  }

  // ------------------------------------------------------------------------
  // Replay keeps a world well formed
  // ------------------------------------------------------------------------

  /** The ids a log may spawn: nonzero and below the top of the range, as allocation produces. */
  predicate SpawnsAllocatableId(event: SimEvent) {
    event.data.EntitySpawned? ==> 0 < event.data.entityId < U64_MAX
  }

  lemma MoveKeepsWellFormed(w: WorldState, id: EntityId, from: WorldPos, to: WorldPos)
    requires w.WellFormed() && ApplyMove(w, id, from, to).Ok?
    ensures ApplyMove(w, id, from, to).value.WellFormed()
  {
    var w' := ApplyMove(w, id, from, to).value;
    if from.zone == to.zone {
      PutEntityKeepsWellFormed(w, id, w.entities[id].(position := to));
    } else {
      forall z | z in w'.zones
        ensures w'.ZoneAgrees(z)
      {
        MovedZoneAgrees(w, id, from, to, z);
      }
    }
  }

  /** Across zones: the source list loses the id, the destination gains it, the rest stay. */
  lemma MovedZoneAgrees(w: WorldState, id: EntityId, from: WorldPos, to: WorldPos, z: ZoneId)
    requires w.IndexAgrees() && ApplyMove(w, id, from, to).Ok? && from.zone != to.zone && z in w.zones
    ensures ApplyMove(w, id, from, to).value.ZoneAgrees(z)
  {
    assert w.ZoneAgrees(z);
    WithoutKeepsNoDuplicates(w.zones[z].entities, id);
  }

  lemma SpawnKeepsWellFormed(w: WorldState, tick: Tick, id: EntityId, kind: EntityKind, position: WorldPos,
                             properties: EntityProperties)
    requires w.WellFormed() && 0 < id < U64_MAX
    requires ApplySpawn(w, tick, id, kind, position, properties).Ok?
    ensures ApplySpawn(w, tick, id, kind, position, properties).value.WellFormed()
  {
    if id !in w.entities {
      var w' := if id >= w.nextEntityId then w.(nextEntityId := WrapNext(id)) else w;
      forall z | z in w'.zones
        ensures w'.ZoneAgrees(z)
      {
        assert w.ZoneAgrees(z);
      }
      assert w'.WellFormed();
      AddEntityKeepsWellFormed(w', NewEntity(id, kind, position, tick, properties));
    }
  }

  lemma RelabelZoneKeepsWellFormed(w: WorldState, id: ZoneId, loaded: bool)
    requires w.WellFormed() && id in w.zones
    ensures w.(zones := w.zones[id := w.zones[id].(loaded := loaded)]).WellFormed()
  {
    var w' := w.(zones := w.zones[id := w.zones[id].(loaded := loaded)]);
    forall z | z in w'.zones
      ensures w'.ZoneAgrees(z)
    {
      assert w.ZoneAgrees(z);
    }
  }

  lemma RetimeKeepsWellFormed(w: WorldState, w': WorldState)
    requires w.WellFormed() && w'.TimeAgrees() && w'.meta.formatVersion == w.meta.formatVersion
    requires w'.nextEntityId == w.nextEntityId && w'.entities == w.entities && w'.zones == w.zones
    ensures w'.WellFormed()
  {
    forall z | z in w'.zones
      ensures w'.ZoneAgrees(z)
    {
      assert w.ZoneAgrees(z);
    }
  }

  lemma RngKeepsWellFormed(w: WorldState, rng: u64)
    requires w.WellFormed()
    ensures w.(rngState := rng).WellFormed()
  {
    RetimeKeepsWellFormed(w, w.(rngState := rng));
  }

  lemma CounterKeepsWellFormed(w: WorldState, id: EntityId, e: Entity)
    requires w.WellFormed() && id in w.entities
    requires e.id == w.entities[id].id && e.position == w.entities[id].position
    ensures w.PutEntity(id, e).WellFormed()
  {
    PutEntityKeepsWellFormed(w, id, e);
  }

  lemma PropertyKeepsWellFormed(w: WorldState, id: EntityId, property: Text, v: PropertyValue)
    requires w.WellFormed() && id in w.entities && WithProperty(w.entities[id], property, v).Ok?
    ensures w.PutEntity(id, WithProperty(w.entities[id], property, v).value).WellFormed()
  {
    CounterKeepsWellFormed(w, id, WithProperty(w.entities[id], property, v).value);
  }

  lemma ApplyDataKeepsWellFormed(w: WorldState, tick: Tick, data: EventData)
    requires w.WellFormed() && (data.EntitySpawned? ==> 0 < data.entityId < U64_MAX)
    requires ApplyData(w, tick, data).Ok?
    ensures ApplyData(w, tick, data).value.WellFormed()
  {
    hide WorldState.WellFormed, PropertyOf, WithProperty;
    match data {
      case TickProcessed(_, _, _, rng) => RngKeepsWellFormed(w, rng.value);
      case ZoneCreated(id, name) =>
        if id !in w.zones {
          AddZoneKeepsWellFormed(w, NewZone(id, name));
        }
      case ZoneLoaded(id) => RelabelZoneKeepsWellFormed(w, id, true);
      case ZoneUnloaded(id) => RelabelZoneKeepsWellFormed(w, id, false);
      case EntitySpawned(id, kind, position, properties) =>
        SpawnKeepsWellFormed(w, tick, id, kind, position, properties);
      case EntityDespawned(id, _) => RemoveEntityKeepsWellFormed(w, id);
      case EntityMoved(id, from, to) => MoveKeepsWellFormed(w, id, from, to);
      case EntityStateChanged(id, _, s) => CounterKeepsWellFormed(w, id, w.entities[id].(state := s));
      case EntityPropertyChanged(id, property, _, v) => PropertyKeepsWellFormed(w, id, property, v);
      case ResourceDepleted(id, _, left) =>
        CounterKeepsWellFormed(w, id, w.entities[id].(properties := w.entities[id].properties.(amount := Some(left))));
      case EntityDegraded(id, _, left) =>
        CounterKeepsWellFormed(w, id, w.entities[id].(properties := w.entities[id].properties.(health := Some(left))));
      case _ =>
    }
  }

  /** Every event the applier accepts keeps time, identity and the zone index consistent. */
  lemma ReplayStepKeepsWellFormed(w: WorldState, event: SimEvent)
    requires w.WellFormed() && SpawnsAllocatableId(event)
    requires ApplyEvent(w, event).Ok?
    ensures ApplyEvent(w, event).value.WellFormed()
  {
    RetimeKeepsWellFormed(w, CatchUp(w, event));
    ApplyDataKeepsWellFormed(CatchUp(w, event), event.tick, event.data);
  }

  /** Any replay, complete or refused part-way, ends in a well-formed world. */
  lemma {:induction false} ReplayKeepsWellFormed(w: WorldState, events: seq<SimEvent>)
    requires w.WellFormed() && forall e :: e in events ==> SpawnsAllocatableId(e)
    ensures ReplayFrom(w, events).world.WellFormed()
    decreases |events|
  {
    hide ApplyEvent;
    if events == [] || ApplyEvent(w, events[0]).Err? {
    } else {
      ReplayStepKeepsWellFormed(w, events[0]);
      ReplayKeepsWellFormed(ApplyEvent(w, events[0]).value, events[1..]);
    }
  }

  // ------------------------------------------------------------------------
  // The in-place applier
  // ------------------------------------------------------------------------

  /** `apply_event`: work on a clone and install it only on success. */
  method ApplyTo(world: World, event: SimEvent) returns (r: Result<(), ReplayError>)
    modifies world
    ensures match ApplyEvent(old(world.State()), event)
      case Ok(w) => r.Ok? && world.State() == w
      case Err(e) => r == Err(e) && world.State() == old(world.State())
  {
    var value := world.Snapshot();
    var next := new World.FromState(value);
    r := ApplyInPlace(next, event);
    if r.Ok? {
      var result := next.Snapshot();
      world.Assign(result);
    }
  }

  /** `apply_event_in_place`: checks, tick catch-up, then the event's own effect. A refused event
      may leave the object half changed; the caller drops it. */
  method ApplyInPlace(world: World, event: SimEvent) returns (r: Result<(), ReplayError>)
    modifies world
    ensures match ApplyEvent(old(world.State()), event)
      case Ok(w) => r.Ok? && world.State() == w
      case Err(e) => r == Err(e)
  {
    var before := world.Snapshot();
    var bad := CheckTick(before, event);
    if bad.Some? {
      return Err(bad.value);
    }
    if event.tick > world.currentTick {
      world.currentTick := event.tick;
      world.simTime := TimeOf(event.tick);
      world.meta := world.meta.(currentTick := event.tick, simTime := world.simTime);
    }
    r := ApplyEffect(world, event);
  }

  /** The match on the event kind. */
  method ApplyEffect(world: World, event: SimEvent) returns (r: Result<(), ReplayError>)
    modifies world
    ensures match ApplyData(old(world.State()), event.tick, event.data)
      case Ok(w) => r.Ok? && world.State() == w
      case Err(e) => r == Err(e)
  {
    hide ApplySpawn, ApplyMove, ApplyPropertyChange, ApplyDepletion, ApplyDegradation;
    match event.data {
      case WorldLoaded(_, _) =>
      case WorldSaved(_) =>
      case WorldCreated(id, name, seed) =>
        if world.meta.worldId != id || world.meta.name != name || world.meta.seed != seed {
          return Err(WorldMismatch);
        }
      case TickProcessed(_, _, _, rng) =>
        if rng.None? {
          return Err(MissingRngState);
        }
        world.rngState := rng.value;
      case ZoneCreated(id, name) =>
        if id in world.zones {
          var z := world.zones[id];
          if z.name != name || !z.loaded || z.entities != [] {
            return Err(ZoneConflict);
          }
        } else {
          world.AddZone(NewZone(id, name));
        }
      case ZoneLoaded(id) =>
        if id !in world.zones {
          return Err(MissingZone);
        }
        world.zones := world.zones[id := world.zones[id].(loaded := true)];
      case ZoneUnloaded(id) =>
        if id !in world.zones {
          return Err(MissingZone);
        }
        world.zones := world.zones[id := world.zones[id].(loaded := false)];
      case EntitySpawned(id, kind, position, properties) =>
        r := SpawnIn(world, event.tick, id, kind, position, properties);
        return;
      case EntityDespawned(id, _) =>
        var removed := world.RemoveEntity(id);
        if removed.None? {
          return Err(MissingEntity);
        }
      case EntityMoved(id, from, to) =>
        r := MoveIn(world, id, from, to);
        return;
      case EntityStateChanged(id, oldState, newState) =>
        if id !in world.entities {
          return Err(MissingEntity);
        }
        if world.entities[id].state != oldState {
          return Err(StateMismatch);
        }
        world.entities := world.entities[id := world.entities[id].(state := newState)];
      case EntityPropertyChanged(id, property, oldValue, newValue) =>
        r := ChangePropertyIn(world, id, property, oldValue, newValue);
        return;
      case ResourceDepleted(id, amount, remaining) =>
        r := DepleteIn(world, id, amount, remaining);
        return;
      case EntityDegraded(id, oldHealth, newHealth) =>
        r := DegradeIn(world, id, oldHealth, newHealth);
        return;
    }
    r := Ok(());
  }

  method SpawnIn(world: World, tick: Tick, id: EntityId, kind: EntityKind, position: WorldPos,
                 properties: EntityProperties) returns (r: Result<(), ReplayError>)
    modifies world
    ensures match ApplySpawn(old(world.State()), tick, id, kind, position, properties)
      case Ok(w) => r.Ok? && world.State() == w
      case Err(e) => r == Err(e)
  {
    if position.zone !in world.zones {
      return Err(MissingZone);
    }
    if id in world.entities {
      var e := world.entities[id];
      if e.kind != kind || e.position != position || e.createdAt != tick || e.state != Active
        || e.properties != properties {
        return Err(SpawnConflict);
      }
      if id !in world.zones[position.zone].entities {
        return Err(MissingFromIndex);
      }
      return Ok(());
    }
    if id >= world.nextEntityId {
      world.nextEntityId := WrapNext(id);
    }
    world.AddEntity(NewEntity(id, kind, position, tick, properties));
    r := Ok(());
  }

  method MoveIn(world: World, id: EntityId, from: WorldPos, to: WorldPos) returns (r: Result<(), ReplayError>)
    modifies world
    ensures match ApplyMove(old(world.State()), id, from, to)
      case Ok(w) => r.Ok? && world.State() == w
      case Err(e) => r == Err(e)
  {
    if id !in world.entities {
      return Err(MissingEntity);
    }
    if world.entities[id].position != from {
      return Err(SourceMismatch);
    }
    if from.zone !in world.zones {
      return Err(MissingZone);
    }
    if to.zone !in world.zones {
      return Err(MissingZone);
    }
    if id !in world.zones[from.zone].entities {
      return Err(MissingFromIndex);
    }
    if from.zone != to.zone {
      world.zones := world.zones[from.zone := world.zones[from.zone].Remove(id)];
      world.zones := world.zones[to.zone := world.zones[to.zone].Add(id)];
    }
    world.entities := world.entities[id := world.entities[id].(position := to)];
    r := Ok(());
  }

  method ChangePropertyIn(world: World, id: EntityId, property: Text, oldValue: PropertyValue, newValue: PropertyValue)
    returns (r: Result<(), ReplayError>)
    modifies world
    ensures match ApplyPropertyChange(old(world.State()), id, property, oldValue, newValue)
      case Ok(w) => r.Ok? && world.State() == w
      case Err(e) => r == Err(e)
  {
    if id !in world.entities {
      return Err(MissingEntity);
    }
    var current := PropertyOf(world.entities[id], property);
    if current.Err? {
      return Err(current.error);
    }
    if current.value != oldValue {
      return Err(ValueMismatch);
    }
    var written := WithProperty(world.entities[id], property, newValue);
    if written.Err? {
      return Err(written.error);
    }
    world.entities := world.entities[id := written.value];
    r := Ok(());
  }

  method DepleteIn(world: World, id: EntityId, amount: u32, remaining: u32) returns (r: Result<(), ReplayError>)
    modifies world
    ensures match ApplyDepletion(old(world.State()), id, amount, remaining)
      case Ok(w) => r.Ok? && world.State() == w
      case Err(e) => r == Err(e)
  {
    if id !in world.entities {
      return Err(MissingEntity);
    }
    var e := world.entities[id];
    if e.properties.amount.None? {
      return Err(MissingCounter);
    }
    if remaining + amount >= 0x1_0000_0000 {
      return Err(AmountOverflow);
    }
    if e.properties.amount.value != remaining + amount {
      return Err(AmountMismatch);
    }
    world.entities := world.entities[id := e.(properties := e.properties.(amount := Some(remaining)))];
    r := Ok(());
  }

  method DegradeIn(world: World, id: EntityId, oldHealth: u32, newHealth: u32) returns (r: Result<(), ReplayError>)
    modifies world
    ensures match ApplyDegradation(old(world.State()), id, oldHealth, newHealth)
      case Ok(w) => r.Ok? && world.State() == w
      case Err(e) => r == Err(e)
  {
    if id !in world.entities {
      return Err(MissingEntity);
    }
    var e := world.entities[id];
    if e.properties.health.None? {
      return Err(MissingCounter);
    }
    if e.properties.health.value != oldHealth {
      return Err(HealthMismatch);
    }
    world.entities := world.entities[id := e.(properties := e.properties.(health := Some(newHealth)))];
    r := Ok(());
  }

  /** `replay_events`: stop at the first refused event, keeping what was applied before it. */
  method ReplayEvents(world: World, events: seq<SimEvent>) returns (r: Result<nat, ReplayError>)
    modifies world
    ensures var run := ReplayFrom(old(world.State()), events);
      && world.State() == run.world
      && r == match run.failure { case None => Ok(run.applied) case Some(e) => Err(e) }
  {
    hide ApplyEvent;
    ghost var start := world.State();
    for applied := 0 to |events|
      invariant ReplayFrom(start, events)
             == var rest := ReplayFrom(world.State(), events[applied..]); rest.(applied := rest.applied + applied)
    {
      var step := ApplyTo(world, events[applied]);
      assert events[applied..][1..] == events[applied + 1..];
      if step.Err? {
        return Err(step.error);
      }
    }
    assert events[|events|..] == [];
    r := Ok(|events|);
  }
}
