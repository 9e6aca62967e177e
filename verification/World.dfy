/** The simulation state: entities, zones, the world value and the mutable world object. */
module WorldModel {
  import opened SyTypes
  import opened SyApi

  datatype Entity = Entity(
    id: EntityId,
    kind: EntityKind,
    state: EntityState,
    position: WorldPos,
    createdAt: Tick,
    properties: EntityProperties)

  /** `Entity::new`. */
  function NewEntity(id: EntityId, kind: EntityKind, position: WorldPos, createdAt: Tick,
                     properties: EntityProperties): Entity
  {
    Entity(id, kind, Active, position, createdAt, properties)
  }

  /** `Vec::retain(|&e| e != id)`. */
  function Without(ids: seq<EntityId>, id: EntityId): (kept: seq<EntityId>)
    ensures forall k :: k in kept <==> k in ids && k != id
  {
    if ids == [] then []
    else (if ids[0] == id then [] else [ids[0]]) + Without(ids[1..], id)
  }

  predicate NoDuplicates(ids: seq<EntityId>) {
    forall i, j :: 0 <= i < j < |ids| ==> ids[i] != ids[j]
  }

  lemma {:induction false} WithoutKeepsNoDuplicates(ids: seq<EntityId>, id: EntityId)
    requires NoDuplicates(ids)
    ensures NoDuplicates(Without(ids, id))
  {
    if ids == [] {
    } else {
      assert NoDuplicates(ids[1..]);
      assert ids[0] !in ids[1..];
      WithoutKeepsNoDuplicates(ids[1..], id);
    }
  }

  datatype Zone = Zone(id: ZoneId, name: Option<Text>, loaded: bool, entities: seq<EntityId>) {
    function Add(e: EntityId): Zone {
      if e in entities then this else this.(entities := entities + [e])
    }

    function Remove(e: EntityId): Zone {
      this.(entities := Without(entities, e))
    }
  }

  function NewZone(id: ZoneId, name: Option<Text>): Zone {
    Zone(id, name, true, [])
  }

  /** The value of a world. */
  datatype WorldState = WorldState(
    meta: WorldMeta,
    currentTick: Tick,
    simTime: SimTime,
    rngState: u64,
    nextEntityId: u64,
    entities: map<EntityId, Entity>,
    zones: map<ZoneId, Zone>)
  {
    function AddEntity(e: Entity): WorldState {
      var z := e.position.zone;
      this.(entities := entities[e.id := e],
            zones := if z in zones then zones[z := zones[z].Add(e.id)] else zones)
    }

    function RemoveEntity(id: EntityId): WorldState {
      if id !in entities then this else
      var z := entities[id].position.zone;
      this.(entities := entities - {id},
            zones := if z in zones then zones[z := zones[z].Remove(id)] else zones)
    }

    /** Overwrite an entity in place, leaving the zone index alone. */
    function PutEntity(id: EntityId, e: Entity): WorldState {
      this.(entities := entities[id := e])
    }

    function AddZone(z: Zone): WorldState {
      this.(zones := zones[z.id := z])
    }

    function SetTick(t: Tick): WorldState {
      this.(currentTick := t, simTime := TimeOf(t), meta := meta.(currentTick := t, simTime := TimeOf(t)))
    }

    function AdvanceTick(): WorldState {
      SetTick(SatNext(currentTick))
    }

    /** The recovery cursor: the two metadata fields only a save writes. */
    function WithCursor(snapshotTick: Tick, lastEventId: EventId): WorldState {
      this.(meta := meta.(snapshotTick := snapshotTick, lastEventId := lastEventId))
    }

    ghost predicate TimeAgrees() {
      && meta.currentTick == currentTick
      && simTime == TimeOf(currentTick)
      && meta.simTime == simTime
    }

    ghost predicate EntitiesAgree() {
      && nextEntityId > 0
      && (forall k :: k in entities ==> entities[k].id == k && 0 < k < nextEntityId)
    }

    ghost predicate ZoneAgrees(z: ZoneId)
      requires z in zones
    {
      && zones[z].id == z
      && NoDuplicates(zones[z].entities)
      && (forall k :: k in zones[z].entities <==> k in entities && entities[k].position.zone == z)
    }

    /** Each zone lists, without duplicates, exactly the entities positioned in it. */
    ghost predicate IndexAgrees() {
      && (forall k :: k in entities ==> entities[k].position.zone in zones)
      && (forall z :: z in zones ==> ZoneAgrees(z))
    }

    ghost predicate WellFormed() {
      && TimeAgrees()
      && EntitiesAgree()
      && IndexAgrees()
      && meta.formatVersion == CURRENT_FORMAT_VERSION
    }
  }

  /** `World::new`. */
  function NewWorld(name: Text, seed: RngSeed): (w: WorldState)
    ensures w.WellFormed()
  {
    WorldState(
      WorldMeta(WorldIdOf(seed), name, seed, 0, 0, 0, 0, 0, CURRENT_FORMAT_VERSION),
      0, 0, seed, 1, map[], map[ORIGIN := NewZone(ORIGIN, Some(Ascii("Origin")))])
  }

  lemma AddEntityKeepsWellFormed(w: WorldState, e: Entity)
    requires w.WellFormed()
    requires e.id !in w.entities && 0 < e.id < w.nextEntityId && e.position.zone in w.zones
    ensures w.AddEntity(e).WellFormed()
  {
    var w' := w.AddEntity(e);
    forall z | z in w'.zones
      ensures w'.ZoneAgrees(z)
    {
      assert w.ZoneAgrees(z);
    }
  }

  lemma RemoveEntityKeepsWellFormed(w: WorldState, id: EntityId)
    requires w.WellFormed()
    ensures w.RemoveEntity(id).WellFormed()
  {
    if id in w.entities {
      var w' := w.RemoveEntity(id);
      forall z | z in w'.zones
        ensures w'.ZoneAgrees(z)
      {
        assert w.ZoneAgrees(z);
        if z == w.entities[id].position.zone {
          WithoutKeepsNoDuplicates(w.zones[z].entities, id);
        }
      }
    }
  }

  lemma PutEntityKeepsWellFormed(w: WorldState, id: EntityId, e: Entity)
    requires w.WellFormed()
    requires id in w.entities && e.id == id && e.position.zone == w.entities[id].position.zone
    ensures w.PutEntity(id, e).WellFormed()
  {
    var w' := w.PutEntity(id, e);
    forall z | z in w'.zones
      ensures w'.ZoneAgrees(z)
    {
      assert w.ZoneAgrees(z);
    }
  }

  lemma AddZoneKeepsWellFormed(w: WorldState, z: Zone)
    requires w.WellFormed()
    requires z.id !in w.zones && z.entities == []
    ensures w.AddZone(z).WellFormed()
  {
    var w' := w.AddZone(z);
    forall y | y in w'.zones
      ensures w'.ZoneAgrees(y)
    {
      if y != z.id {
        assert w.ZoneAgrees(y);
      }
    }
  }

  /** The world object: the source's struct, mutated in place. */
  class World {
    var meta: WorldMeta
    var currentTick: Tick
    var simTime: SimTime
    var rngState: u64
    var nextEntityId: u64
    var entities: map<EntityId, Entity>
    var zones: map<ZoneId, Zone>

    ghost function State(): WorldState
      reads this
    {
      WorldState(meta, currentTick, simTime, rngState, nextEntityId, entities, zones)
    }

    constructor (name: Text, seed: RngSeed)
      ensures State() == NewWorld(name, seed)
    {
      meta := WorldMeta(WorldIdOf(seed), name, seed, 0, 0, 0, 0, 0, CURRENT_FORMAT_VERSION);
      currentTick, simTime := 0, 0;
      rngState := seed;
      nextEntityId := 1;
      entities := map[];
      zones := map[ORIGIN := NewZone(ORIGIN, Some(Ascii("Origin")))];
    }

    /** A world holding a given value: what a checkpoint or a decoded snapshot turns back into. */
    constructor FromState(s: WorldState)
      ensures State() == s
    {
      meta, currentTick, simTime := s.meta, s.currentTick, s.simTime;
      rngState, nextEntityId := s.rngState, s.nextEntityId;
      entities, zones := s.entities, s.zones;
    }

    /** `clone()`: the value as executable data. */
    method Snapshot() returns (s: WorldState)
      ensures s == State()
    {
      s := WorldState(meta, currentTick, simTime, rngState, nextEntityId, entities, zones);
    }

    /** `*world = next`. */
    method Assign(s: WorldState)
      modifies this
      ensures State() == s
    {
      meta, currentTick, simTime := s.meta, s.currentTick, s.simTime;
      rngState, nextEntityId := s.rngState, s.nextEntityId;
      entities, zones := s.entities, s.zones;
    }

    method AllocateEntityId() returns (id: EntityId)
      modifies this`nextEntityId
      ensures id == old(nextEntityId) && nextEntityId == WrapNext(id)
    {
      id := nextEntityId;
      nextEntityId := WrapNext(nextEntityId);
    }

    method AddEntity(e: Entity)
      modifies this`entities, this`zones
      ensures State() == old(State()).AddEntity(e)
    {
      var zoneId := e.position.zone;
      entities := entities[e.id := e];
      if zoneId in zones {
        zones := zones[zoneId := zones[zoneId].Add(e.id)];
      }
    }

    method RemoveEntity(id: EntityId) returns (removed: Option<Entity>)
      modifies this`entities, this`zones
      ensures removed == if id in old(entities) then Some(old(entities)[id]) else None
      ensures State() == old(State()).RemoveEntity(id)
    {
      if id in entities {
        var e := entities[id];
        entities := entities - {id};
        if e.position.zone in zones {
          zones := zones[e.position.zone := zones[e.position.zone].Remove(id)];
        }
        removed := Some(e);
      } else {
        removed := None;
      }
    }

    method AddZone(z: Zone)
      modifies this`zones
      ensures State() == old(State()).AddZone(z)
    {
      zones := zones[z.id := z];
    }

    method AdvanceTick()
      modifies this`currentTick, this`simTime, this`meta
      ensures State() == old(State()).AdvanceTick()
    {
      currentTick := SatNext(currentTick);
      simTime := TimeOf(currentTick);
      meta := meta.(currentTick := currentTick);
      meta := meta.(simTime := simTime);
    }
  }
}
