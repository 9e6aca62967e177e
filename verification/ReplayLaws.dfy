/** What replay demands of an event and what it then does, case by case: an event is accepted exactly
    when it is in time and describes the world it is applied to. */
module ReplayLaws {
  import opened SyTypes
  import opened SyApi
  import opened WorldModel
  import opened Replay

  function NextTick(t: Tick): Tick {
    if t == 0xFFFF_FFFF_FFFF_FFFF then t else t + 1
  }

  /** Lifecycle events carry the current tick; every other event the current or the next one; the event
      closing a tick also its own time and the generator state. */
  predicate InTime(w: WorldState, event: SimEvent) {
    && event.tick in {w.currentTick, NextTick(w.currentTick)}
    && match event.data
       case WorldLoaded(_, t) => event.tick == t && t == w.currentTick
       case WorldSaved(t) => event.tick == t && t == w.currentTick
       case TickProcessed(t, time, _, rng) => event.tick == t && time == t && rng.Some?
       case _ => true
  }

  /** The value a property change must name, for the three properties there are. */
  predicate Holds(e: Entity, property: Text, value: PropertyValue) {
    || (property == [110, 97, 109, 101]
        && value == (if e.properties.name == None then NoValue else StringValue(e.properties.name.value)))
    || (property == [97, 109, 111, 117, 110, 116]
        && value == (if e.properties.amount == None then NoValue else UIntValue(e.properties.amount.value)))
    || (property == [104, 101, 97, 108, 116, 104]
        && value == (if e.properties.health == None then NoValue else UIntValue(e.properties.health.value)))
  }

  predicate Writable(property: Text, value: PropertyValue) {
    if property == [110, 97, 109, 101] then value.StringValue? else value.UIntValue?
  }

  /** The event speaks of what the world holds. */
  predicate Describes(w: WorldState, tick: Tick, data: EventData) {
    match data
    case WorldCreated(id, name, seed) => (id, name, seed) == (w.meta.worldId, w.meta.name, w.meta.seed)
    case ZoneCreated(id, name) => id in w.zones ==> w.zones[id] == Zone(w.zones[id].id, name, true, [])
    case ZoneLoaded(id) => id in w.zones
    case ZoneUnloaded(id) => id in w.zones
    case EntitySpawned(id, kind, position, properties) =>
      && position.zone in w.zones
      && (id in w.entities ==>
            && w.entities[id] == Entity(w.entities[id].id, kind, Active, position, tick, properties)
            && id in w.zones[position.zone].entities)
    case EntityDespawned(id, _) => id in w.entities
    case EntityMoved(id, from, to) =>
      && id in w.entities && w.entities[id].position == from
      && from.zone in w.zones && to.zone in w.zones && id in w.zones[from.zone].entities
    case EntityStateChanged(id, before, _) => id in w.entities && w.entities[id].state == before
    case EntityPropertyChanged(id, property, before, after) =>
      id in w.entities && Holds(w.entities[id], property, before) && Writable(property, after)
    case ResourceDepleted(id, amount, remaining) =>
      && id in w.entities && w.entities[id].properties.amount.Some?
      && w.entities[id].properties.amount.value == remaining + amount
    case EntityDegraded(id, before, _) => id in w.entities && w.entities[id].properties.health == Some(before)
    case _ => true
  }

  lemma PropertiesSpelled()
    ensures NameProperty() == [110, 97, 109, 101]
    ensures AmountProperty() == [97, 109, 111, 117, 110, 116]
    ensures HealthProperty() == [104, 101, 97, 108, 116, 104]
    ensures NameProperty() != AmountProperty() && AmountProperty() != HealthProperty()
    ensures NameProperty() != HealthProperty()
  {
    assert |NameProperty()| == 4 && |AmountProperty()| == 6 && |HealthProperty()| == 6;
    assert AmountProperty()[0] == 97 && HealthProperty()[0] == 104;
  }

  lemma PropertyLaw(e: Entity, property: Text, before: PropertyValue, after: PropertyValue)
    ensures PropertyOf(e, property) == Ok(before) && WithProperty(e, property, after).Ok?
       <==> Holds(e, property, before) && Writable(property, after)
  {
    PropertiesSpelled();
    hide NameProperty, AmountProperty, HealthProperty;
  }

  lemma ChangeLaw(w: WorldState, id: EntityId, property: Text, before: PropertyValue, after: PropertyValue)
    ensures ApplyPropertyChange(w, id, property, before, after).Ok?
       <==> id in w.entities && Holds(w.entities[id], property, before) && Writable(property, after)
  {
    hide PropertyOf, WithProperty, Holds, Writable;
    if id in w.entities {
      PropertyLaw(w.entities[id], property, before, after);
    }
  }

  /** Replay accepts an event exactly when it is in time and describes the world. */
  lemma AcceptedEventLaw(w: WorldState, event: SimEvent)
    ensures ApplyEvent(w, event).Ok? <==> InTime(w, event) && Describes(w, event.tick, event.data)
  {
    hide ApplyPropertyChange, Holds, Writable;
    match event.data {
      case EntityPropertyChanged(id, property, before, after) =>
        ChangeLaw(CatchUp(w, event), id, property, before, after);
      case _ =>
    }
  }

  // ------------------------------------------------------------------------
  // Effects
  // ------------------------------------------------------------------------

  /** The world once its clock has reached the event. */
  function Reached(w: WorldState, tick: Tick): WorldState {
    if tick > w.currentTick then
      w.(currentTick := tick, simTime := tick, meta := w.meta.(currentTick := tick, simTime := tick))
    else w
  }

  /** One entity rewritten, everything else as it was. */
  predicate Rewrites(w: WorldState, id: EntityId, e: Entity, w': WorldState) {
    w' == w.(entities := w.entities[id := e])
  }

  /** The property of the entity set to the value, a number keeping its low 32 bits. */
  function Written(e: Entity, property: Text, value: PropertyValue): Entity {
    var p := e.properties;
    if property == [110, 97, 109, 101] && value.StringValue? then e.(properties := p.(name := Some(value.s)))
    else if property == [97, 109, 111, 117, 110, 116] && value.UIntValue? then
      e.(properties := p.(amount := Some(value.u % 0x1_0000_0000)))
    else if value.UIntValue? then e.(properties := p.(health := Some(value.u % 0x1_0000_0000)))
    else e
  }

  /** A move takes the id out of the list it leaves and appends it to the list it enters; inside one
      zone no list changes. */
  predicate Relocates(w: WorldState, id: EntityId, from: ZoneId, to: ZoneId, zones: map<ZoneId, Zone>)
    requires from in w.zones && to in w.zones
  {
    && zones.Keys == w.zones.Keys
    && forall z :: z in w.zones ==>
         zones[z] == if from == to || (z != from && z != to) then w.zones[z]
                     else if z == from then w.zones[z].(entities := Without(w.zones[z].entities, id))
                     else w.zones[z].(entities := Joined(w.zones[z].entities, id))
  }

  function Joined(ids: seq<EntityId>, id: EntityId): seq<EntityId> {
    if id in ids then ids else ids + [id]
  }

  /** `w'` is what the accepted event makes of a world already at its tick. */
  predicate Effect(w: WorldState, tick: Tick, data: EventData, w': WorldState) {
    match data
    case TickProcessed(_, _, _, rng) => rng.Some? && w' == w.(rngState := rng.value)
    case ZoneCreated(id, name) =>
      w' == if id in w.zones then w else w.(zones := w.zones[id := Zone(id, name, true, [])])
    case ZoneLoaded(id) => id in w.zones && w' == w.(zones := w.zones[id := w.zones[id].(loaded := true)])
    case ZoneUnloaded(id) => id in w.zones && w' == w.(zones := w.zones[id := w.zones[id].(loaded := false)])
    case EntitySpawned(id, kind, position, properties) =>
      var z := position.zone;
      z in w.zones
      && w' == if id in w.entities then w else
           w.(entities := w.entities[id := Entity(id, kind, Active, position, tick, properties)],
              zones := w.zones[z := w.zones[z].(entities := Joined(w.zones[z].entities, id))],
              nextEntityId := if id < w.nextEntityId then w.nextEntityId
                              else if id == 0xFFFF_FFFF_FFFF_FFFF then 0 else id + 1)
    case EntityDespawned(id, _) =>
      id in w.entities
      && var z := w.entities[id].position.zone;
         w' == w.(entities := w.entities - {id},
                  zones := if z in w.zones
                           then w.zones[z := w.zones[z].(entities := Without(w.zones[z].entities, id))]
                           else w.zones)
    case EntityMoved(id, from, to) =>
      id in w.entities && from.zone in w.zones && to.zone in w.zones
      && w' == w.(entities := w.entities[id := w.entities[id].(position := to)], zones := w'.zones)
      && Relocates(w, id, from.zone, to.zone, w'.zones)
    case EntityStateChanged(id, _, after) =>
      id in w.entities && Rewrites(w, id, w.entities[id].(state := after), w')
    case EntityPropertyChanged(id, property, _, after) =>
      id in w.entities && Rewrites(w, id, Written(w.entities[id], property, after), w')
    case ResourceDepleted(id, _, remaining) =>
      id in w.entities
      && var e := w.entities[id]; Rewrites(w, id, e.(properties := e.properties.(amount := Some(remaining))), w')
    case EntityDegraded(id, _, after) =>
      id in w.entities
      && var e := w.entities[id]; Rewrites(w, id, e.(properties := e.properties.(health := Some(after))), w')
    case _ => w' == w
  }

  lemma WrittenLaw(e: Entity, property: Text, value: PropertyValue)
    requires WithProperty(e, property, value).Ok?
    ensures WithProperty(e, property, value).value == Written(e, property, value)
  {
    PropertiesSpelled();
    hide NameProperty, AmountProperty, HealthProperty;
  }

  /** What an accepted event does. */
  lemma EffectLaw(w: WorldState, event: SimEvent)
    requires ApplyEvent(w, event).Ok?
    ensures Effect(Reached(w, event.tick), event.tick, event.data, ApplyEvent(w, event).value)
  {
    hide WithProperty, PropertyOf, Written, CheckTick;
    assert CatchUp(w, event) == Reached(w, event.tick);
    match event.data {
      case EntityPropertyChanged(id, property, _, after) =>
        WrittenLaw(Reached(w, event.tick).entities[id], property, after);
      case _ =>
    }
  }
}
