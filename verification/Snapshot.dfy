/** Snapshot encoding: transfer objects, and the validator a decoded snapshot must pass. */
module Snapshot {
  import opened SyTypes
  import opened SortedKeys
  import opened WorldModel

  datatype EntityDto = EntityDto(
    id: EntityId, kind: EntityKind, state: EntityState, position: WorldPos, createdAt: Tick,
    properties: EntityProperties)

  datatype ZoneDto = ZoneDto(id: ZoneId, name: Option<Text>, loaded: bool, entities: seq<EntityId>)

  datatype WorldDto = WorldDto(
    meta: WorldMeta, currentTick: Tick, simTime: SimTime, rngState: u64, nextEntityId: u64,
    entities: map<EntityId, EntityDto>, zones: map<ZoneId, ZoneDto>)

  function EntityToDto(e: Entity): EntityDto {
    EntityDto(e.id, e.kind, e.state, e.position, e.createdAt, e.properties)
  }

  function EntityFromDto(d: EntityDto): Entity {
    Entity(d.id, d.kind, d.state, d.position, d.createdAt, d.properties)
  }

  function ZoneToDto(z: Zone): ZoneDto {
    ZoneDto(z.id, z.name, z.loaded, z.entities)
  }

  function ZoneFromDto(d: ZoneDto): Zone {
    Zone(d.id, d.name, d.loaded, d.entities)
  }

  function ToDto(w: WorldState): WorldDto {
    WorldDto(w.meta, w.currentTick, w.simTime, w.rngState, w.nextEntityId,
             map id | id in w.entities :: EntityToDto(w.entities[id]),
             map id | id in w.zones :: ZoneToDto(w.zones[id]))
  }

  function FromDto(d: WorldDto): WorldState {
    WorldState(d.meta, d.currentTick, d.simTime, d.rngState, d.nextEntityId,
               map id | id in d.entities :: EntityFromDto(d.entities[id]),
               map id | id in d.zones :: ZoneFromDto(d.zones[id]))
  }

  /** The transfer objects lose nothing, in either direction. */
  lemma DtoRoundTrip(w: WorldState, d: WorldDto)
    ensures FromDto(ToDto(w)) == w && ToDto(FromDto(d)) == d
  {
  }

  // ------------------------------------------------------------------------
  // The validator
  // ------------------------------------------------------------------------

  datatype SnapshotError =
    | UnsupportedFormat
    | MetaTickMismatch | SnapshotTickMismatch | MetaTimeMismatch | TimeMismatch
    | ZeroNextId | NextIdTooSmall | EntityKeyMismatch | InvalidEntityId
    | ZoneKeyMismatch
    | EntityInMissingZone | DuplicateInZone | ZoneListsMissingEntity | ZoneListsForeignEntity
    | IndexIncomplete | IndexedToMissingZone

  ghost predicate HeaderValid(d: WorldDto) {
    && d.meta.formatVersion == CURRENT_FORMAT_VERSION
    && d.meta.currentTick == d.currentTick
    && d.meta.snapshotTick == d.currentTick
    && d.meta.simTime == d.simTime
    && d.simTime == TimeOf(d.currentTick)
  }

  ghost predicate EntityIdsValid(d: WorldDto) {
    && d.nextEntityId > 0
    && forall id :: id in d.entities ==> d.entities[id].id == id && 0 < id < d.nextEntityId
  }

  ghost predicate ZoneIdsValid(d: WorldDto) {
    forall z :: z in d.zones ==> d.zones[z].id == z
  }

  ghost predicate Placed(d: WorldDto) {
    forall id :: id in d.entities ==> d.entities[id].position.zone in d.zones
  }

  /** The zone's list is a duplicate-free enumeration of exactly the entities positioned there. */
  ghost predicate Enumerates(d: WorldDto, z: ZoneId)
    requires z in d.zones
  {
    && NoDuplicates(d.zones[z].entities)
    && forall id :: id in d.zones[z].entities <==> id in d.entities && d.entities[id].position.zone == z
  }

  ghost predicate IndexValid(d: WorldDto) {
    Placed(d) && forall z :: z in d.zones ==> Enumerates(d, z)
  }

  ghost predicate SnapshotValid(d: WorldDto) {
    HeaderValid(d) && EntityIdsValid(d) && ZoneIdsValid(d) && IndexValid(d)
  }

  /** A snapshot is valid exactly when its world is well formed and was stamped at its own tick. */
  lemma ValidIffWellFormed(w: WorldState)
    ensures SnapshotValid(ToDto(w)) <==> w.WellFormed() && w.meta.snapshotTick == w.currentTick
  {
    var d := ToDto(w);
    if SnapshotValid(d) {
      forall z | z in w.zones
        ensures w.ZoneAgrees(z)
      {
        assert d.zones[z] == ZoneToDto(w.zones[z]) && Enumerates(d, z);
      }
      forall k | k in w.entities
        ensures w.entities[k].id == k && 0 < k < w.nextEntityId && w.entities[k].position.zone in w.zones
      {
        assert d.entities[k] == EntityToDto(w.entities[k]);
      }
    }
    if w.WellFormed() && w.meta.snapshotTick == w.currentTick {
      forall z | z in d.zones
        ensures Enumerates(d, z)
      {
        assert w.ZoneAgrees(z);
      }
    }
  }

  /** What `save_world` writes for a world: the same world stamped with tick and log cursor. */
  function Stamped(w: WorldState, lastEventId: EventId): WorldState {
    w.(meta := w.meta.(currentTick := w.currentTick, simTime := w.simTime,
                       snapshotTick := w.currentTick, lastEventId := lastEventId))
  }

  /** The validator never rejects a real save. */
  lemma SavedWorldIsValid(w: WorldState, lastEventId: EventId)
    requires w.WellFormed()
    ensures Stamped(w, lastEventId) == w.WithCursor(w.currentTick, lastEventId)
    ensures Stamped(w, lastEventId).WellFormed() && SnapshotValid(ToDto(Stamped(w, lastEventId)))
  {
    var s := Stamped(w, lastEventId);
    forall z | z in s.zones
      ensures s.ZoneAgrees(z)
    {
      assert w.ZoneAgrees(z);
    }
    ValidIffWellFormed(s);
  }

  /** The zone ids of a snapshot in ascending order. */
  function ZoneKeys(d: WorldDto): (keys: seq<ZoneId>)
    ensures forall z :: z in keys <==> z in d.zones
    ensures forall i :: 0 <= i < |keys| ==> keys[i] in d.zones
    ensures StrictlyAscending(keys)
  {
    var keys := Ascending(d.zones.Keys);
    assert forall i :: 0 <= i < |keys| ==> keys[i] in keys;
    keys
  }

  function MaxKey(keys: seq<EntityId>): (m: EntityId)
    ensures forall k :: k in keys ==> k <= m
    ensures m == 0 || m in keys
  {
    if keys == [] then 0 else
    var rest := MaxKey(keys[1..]);
    assert forall k :: k in keys ==> k == keys[0] || k in keys[1..];
    if keys[0] > rest then keys[0] else rest
  }

  predicate KeyMatches(d: WorldDto, id: EntityId) {
    id in d.entities && d.entities[id].id == id && id != 0
  }

  lemma EntityIdsByKey(d: WorldDto)
    ensures EntityIdsValid(d) <==>
      d.nextEntityId > 0 && forall id :: id in d.entities.Keys ==> KeyMatches(d, id) && id < d.nextEntityId
  {
    if d.nextEntityId > 0 && forall id :: id in d.entities.Keys ==> KeyMatches(d, id) && id < d.nextEntityId {
      assert forall id :: id in d.entities ==> KeyMatches(d, id);
    }
  }

  method ValidateEntityIds(d: WorldDto) returns (bad: Option<SnapshotError>)
    ensures bad.None? <==> EntityIdsValid(d)
    ensures bad != Some(IndexedToMissingZone) && bad != Some(UnsupportedFormat)
  {
    hide Ascending, MaxKey, EntityIdsValid;
    var keys := Ascending(d.entities.Keys);
    var maxId := MaxKey(keys);
    EntityIdsByKey(d);
    if d.nextEntityId == 0 {
      return Some(ZeroNextId);
    }
    if d.nextEntityId <= maxId {
      assert maxId in keys;
      return Some(NextIdTooSmall);
    }
    for i := 0 to |keys|
      invariant forall j :: 0 <= j < i ==> KeyMatches(d, keys[j])
    {
      assert keys[i] in keys;
      if keys[i] != d.entities[keys[i]].id {
        return Some(EntityKeyMismatch);
      }
      if keys[i] == 0 {
        return Some(InvalidEntityId);
      }
    }
    forall id | id in d.entities.Keys
      ensures KeyMatches(d, id)
    {
      assert id in keys;
    }
    bad := None;
  }

  method ValidateZoneIds(d: WorldDto) returns (bad: Option<SnapshotError>)
    ensures bad.None? <==> ZoneIdsValid(d)
    ensures bad != Some(IndexedToMissingZone) && bad != Some(UnsupportedFormat)
  {
    var keys := ZoneKeys(d);
    for i := 0 to |keys|
      invariant forall j :: 0 <= j < i ==> d.zones[keys[j]].id == keys[j]
    {
      assert keys[i] in keys;
      if keys[i] != d.zones[keys[i]].id {
        return Some(ZoneKeyMismatch);
      }
    }
    bad := None;
  }

  /** Ids among `keys` positioned in zone `z`. */
  function Residents(d: WorldDto, keys: seq<EntityId>, z: ZoneId): (ids: set<EntityId>)
    requires forall k :: k in keys ==> k in d.entities
    ensures forall k :: k in ids <==> k in keys && d.entities[k].position.zone == z
  {
    set k | k in keys && d.entities[k].position.zone == z
  }

  type Index = map<ZoneId, set<EntityId>>

  function Listed(index: Index, z: ZoneId): set<EntityId> {
    if z in index then index[z] else {}
  }

  /** First loop: group the entities by the zone of their position. */
  method GroupByZone(d: WorldDto, keys: seq<EntityId>) returns (r: Result<Index, SnapshotError>)
    requires forall k :: k in keys <==> k in d.entities
    ensures r.Ok? <==> Placed(d)
    ensures r.Err? ==> r.error == EntityInMissingZone
    ensures r.Ok? ==> forall z: ZoneId :: Listed(r.value, z) == Residents(d, keys, z)
    ensures r.Ok? ==> forall z :: z in r.value ==> r.value[z] != {}
  {
    var expected: Index := map[];
    assert keys[..0] == [];
    for i := 0 to |keys|
      invariant forall j :: 0 <= j < i ==> d.entities[keys[j]].position.zone in d.zones
      invariant forall k :: k in keys[..i] ==> k in d.entities
      invariant forall z: ZoneId :: Listed(expected, z) == Residents(d, keys[..i], z)
      invariant forall z :: z in expected ==> expected[z] != {}
    {
      assert keys[i] in keys;
      var zone := d.entities[keys[i]].position.zone;
      if zone !in d.zones {
        return Err(EntityInMissingZone);
      }
      ghost var before := expected;
      assert keys[..i + 1] == keys[..i] + [keys[i]];
      expected := expected[zone := Listed(expected, zone) + {keys[i]}];
      forall z: ZoneId
        ensures Listed(expected, z) == Residents(d, keys[..i + 1], z)
      {
        assert Listed(before, z) == Residents(d, keys[..i], z);
      }
    }
    assert keys[..|keys|] == keys;
    r := Ok(expected);
  }

  /** Inner loop: collect one zone's list, refusing duplicates, unknown ids and foreign ids. */
  method CollectZone(d: WorldDto, z: ZoneId) returns (r: Result<set<EntityId>, SnapshotError>)
    requires z in d.zones
    ensures var list := d.zones[z].entities;
      r.Ok? <==> NoDuplicates(list) && forall k :: k in list ==> k in d.entities && d.entities[k].position.zone == z
    ensures r.Ok? ==> r.value == set k <- d.zones[z].entities
    ensures r.Err? ==> r.error in {DuplicateInZone, ZoneListsMissingEntity, ZoneListsForeignEntity}
  {
    var list := d.zones[z].entities;
    var actual: set<EntityId> := {};
    for i := 0 to |list|
      invariant NoDuplicates(list[..i])
      invariant forall k :: k in list[..i] ==> k in d.entities && d.entities[k].position.zone == z
      invariant actual == set k <- list[..i]
    {
      assert list[..i + 1] == list[..i] + [list[i]];
      assert list[i] in list;
      if list[i] in actual {
        DuplicateAt(list, i);
        return Err(DuplicateInZone);
      }
      actual := actual + {list[i]};
      if list[i] !in d.entities {
        return Err(ZoneListsMissingEntity);
      }
      if d.entities[list[i]].position.zone != z {
        return Err(ZoneListsForeignEntity);
      }
    }
    assert list[..|list|] == list;
    r := Ok(actual);
  }

  lemma DuplicateAt(list: seq<EntityId>, i: nat)
    requires i < |list| && list[i] in list[..i]
    ensures !NoDuplicates(list)
  {
    var j :| 0 <= j < i && list[..i][j] == list[i];
    assert list[j] == list[i];
  }

  lemma EnumeratesIffCollected(d: WorldDto, z: ZoneId, keys: seq<EntityId>)
    requires z in d.zones && forall k :: k in keys <==> k in d.entities
    ensures Enumerates(d, z) <==>
      && NoDuplicates(d.zones[z].entities)
      && (forall k :: k in d.zones[z].entities ==> k in d.entities && d.entities[k].position.zone == z)
      && (set k <- d.zones[z].entities) == Residents(d, keys, z)
  {
  }

  /** What is left of the grouping once the zones in `done` were compared and removed. */
  ghost predicate Pending(d: WorldDto, keys: seq<EntityId>, left: Index, done: seq<ZoneId>)
    requires forall k :: k in keys ==> k in d.entities
  {
    && (forall z: ZoneId :: z !in done ==> Listed(left, z) == Residents(d, keys, z))
    && (forall z :: z in left ==> z !in done && left[z] != {})
  }

  lemma PendingStep(d: WorldDto, keys: seq<EntityId>, left: Index, zones: seq<ZoneId>, i: nat)
    requires forall k :: k in keys ==> k in d.entities
    requires i < |zones| && zones[i] in d.zones && Pending(d, keys, left, zones[..i])
    ensures Pending(d, keys, left - {zones[i]}, zones[..i + 1])
  {
    assert zones[..i + 1] == zones[..i] + [zones[i]];
    forall z: ZoneId | z !in zones[..i + 1]
      ensures Listed(left - {zones[i]}, z) == Residents(d, keys, z)
    {
      assert Listed(left, z) == Residents(d, keys, z);
    }
  }

  lemma NothingPending(d: WorldDto, keys: seq<EntityId>, left: Index, zones: seq<ZoneId>)
    requires forall k :: k in keys ==> k in d.entities
    requires Pending(d, keys, left, zones) && Placed(d) && forall z :: z in d.zones ==> z in zones
    ensures left == map[]
  {
    forall z | z in left
      ensures false
    {
    }
  }

  /** One zone: its list collects to exactly the entities grouped under it. */
  method MatchZone(d: WorldDto, z: ZoneId, ghost keys: seq<EntityId>, wanted: set<EntityId>)
    returns (bad: Option<SnapshotError>)
    requires z in d.zones && (forall k :: k in keys <==> k in d.entities) && wanted == Residents(d, keys, z)
    ensures bad.None? <==> Enumerates(d, z)
    ensures bad != Some(IndexedToMissingZone) && bad != Some(UnsupportedFormat)
  {
    hide Enumerates;
    EnumeratesIffCollected(d, z, keys);
    var collected := CollectZone(d, z);
    if collected.Err? {
      return Some(collected.error);
    }
    bad := if collected.value != wanted then Some(IndexIncomplete) else None;
  }

  /** The index check. Its last test, for entities grouped under a zone that does not exist, can
      never fire: such an entity was refused while grouping. */
  method ValidateIndex(d: WorldDto) returns (bad: Option<SnapshotError>)
    ensures bad.None? <==> IndexValid(d)
    ensures bad != Some(IndexedToMissingZone)
    ensures bad != Some(UnsupportedFormat)
  {
    hide Enumerates, Residents, Listed, Placed;
    var keys := Ascending(d.entities.Keys);
    var grouped := GroupByZone(d, keys);
    if grouped.Err? {
      return Some(grouped.error);
    }
    bad := MatchZones(d, keys, grouped.value);
  }

  /** Second loop: compare each zone's list with its group and remove the group. */
  method MatchZones(d: WorldDto, ghost keys: seq<EntityId>, index: Index) returns (bad: Option<SnapshotError>)
    requires Placed(d) && forall k :: k in keys <==> k in d.entities
    requires forall z: ZoneId :: Listed(index, z) == Residents(d, keys, z)
    requires forall z :: z in index ==> index[z] != {}
    ensures bad.None? <==> forall z :: z in d.zones ==> Enumerates(d, z)
    ensures bad != Some(IndexedToMissingZone) && bad != Some(UnsupportedFormat)
  {
    hide Enumerates, Pending, Residents, Listed, Placed;
    var expected: Index := index;
    var zones := ZoneKeys(d);
    PendingStart(d, keys, expected, zones);
    for i := 0 to |zones|
      invariant forall j :: 0 <= j < i ==> Enumerates(d, zones[j])
      invariant Pending(d, keys, expected, zones[..i])
    {
      assert zones[i] in zones;
      WantedAt(d, keys, expected, zones, i);
      bad := MatchZone(d, zones[i], keys, Listed(expected, zones[i]));
      if bad.Some? {
        return;
      }
      PendingStep(d, keys, expected, zones, i);
      expected := expected - {zones[i]};
    }
    assert zones[..|zones|] == zones;
    NothingPending(d, keys, expected, zones);
    bad := if expected != map[] then Some(IndexedToMissingZone) else None;
  }

  lemma PendingStart(d: WorldDto, keys: seq<EntityId>, index: Index, zones: seq<ZoneId>)
    requires forall k :: k in keys ==> k in d.entities
    requires forall z: ZoneId :: Listed(index, z) == Residents(d, keys, z)
    requires forall z :: z in index ==> index[z] != {}
    ensures Pending(d, keys, index, zones[..0])
  {
  }

  lemma WantedAt(d: WorldDto, keys: seq<EntityId>, left: Index, zones: seq<ZoneId>, i: nat)
    requires forall k :: k in keys ==> k in d.entities
    requires i < |zones| && zones[i] in d.zones && StrictlyAscending(zones) && Pending(d, keys, left, zones[..i])
    ensures Listed(left, zones[i]) == Residents(d, keys, zones[i])
  {
    assert zones[i] !in zones[..i];
  }

  /** `validate_snapshot`: header checks in order, then ids, then the index. */
  method ValidateSnapshot(d: WorldDto) returns (bad: Option<SnapshotError>)
    ensures bad.None? <==> SnapshotValid(d)
    ensures bad != Some(IndexedToMissingZone)
    ensures bad == Some(UnsupportedFormat) <==> d.meta.formatVersion != CURRENT_FORMAT_VERSION
  {
    hide EntityIdsValid, ZoneIdsValid, IndexValid;
    if d.meta.formatVersion != CURRENT_FORMAT_VERSION {
      return Some(UnsupportedFormat);
    }
    if d.meta.currentTick != d.currentTick {
      return Some(MetaTickMismatch);
    }
    if d.meta.snapshotTick != d.currentTick {
      return Some(SnapshotTickMismatch);
    }
    if d.meta.simTime != d.simTime {
      return Some(MetaTimeMismatch);
    }
    if d.simTime != TimeOf(d.currentTick) {
      return Some(TimeMismatch);
    }
    bad := ValidateEntityIds(d);
    if bad.Some? {
      return;
    }
    bad := ValidateZoneIds(d);
    if bad.Some? {
      return;
    }
    bad := ValidateIndex(d);
  }

  // ------------------------------------------------------------------------
  // Bytes
  // ------------------------------------------------------------------------

  /** The JSON codec of snapshots, about which only the round trip is known. */
  datatype SnapshotCodec = SnapshotCodec(encode: WorldDto -> seq<byte>, decode: seq<byte> -> Option<WorldDto>) {
    ghost predicate Lawful() {
      forall d :: decode(encode(d)) == Some(d)
    }
  }

  function EncodeWorld(sc: SnapshotCodec, w: WorldState): seq<byte> {
    sc.encode(ToDto(w))
  }

  /** `decode_world`. */
  ghost function DecodeWorld(sc: SnapshotCodec, data: seq<byte>): Result<WorldState, SimError> {
    match sc.decode(data)
    case None => Err(PersistenceError)
    case Some(d) =>
      if d.meta.formatVersion != CURRENT_FORMAT_VERSION then Err(PersistenceError)
      else if !SnapshotValid(d) then Err(CorruptedState)
      else Ok(FromDto(d))
  }

  method DecodeSnapshot(sc: SnapshotCodec, data: seq<byte>) returns (r: Result<WorldState, SimError>)
    ensures r == DecodeWorld(sc, data)
  {
    hide SnapshotValid;
    match sc.decode(data) {
      case None => return Err(PersistenceError);
      case Some(d) =>
        var bad := ValidateSnapshot(d);
        if bad.Some? {
          return Err(if bad.value == UnsupportedFormat then PersistenceError else CorruptedState);
        }
        r := Ok(FromDto(d));
    }
  }

  /** A real save decodes to the world that was saved. */
  lemma SavedWorldDecodes(sc: SnapshotCodec, w: WorldState, lastEventId: EventId)
    requires sc.Lawful() && w.WellFormed()
    ensures DecodeWorld(sc, EncodeWorld(sc, Stamped(w, lastEventId))) == Ok(Stamped(w, lastEventId))
  {
    hide SnapshotValid;
    var s := Stamped(w, lastEventId);
    SavedWorldIsValid(w, lastEventId);
    DtoRoundTrip(s, ToDto(s));
    assert sc.decode(sc.encode(ToDto(s))) == Some(ToDto(s));
  }
}
