/** Commands, events, API errors and command validation. */
module SyApi {
  import opened SyTypes

  datatype SimCommand =
    | CreateWorld(worldName: Text, seed: RngSeed)
    | TickOnce
    | TickN(n: u32)
    | SpawnEntity(position: WorldPos, kind: EntityKind, properties: EntityProperties)
    | DespawnEntity(id: EntityId)
    | CreateZone(zoneId: ZoneId, zoneName: Option<Text>)

  datatype DespawnReason = Command | Death | Depleted | Expired

  /** Floats are carried as raw bits: no current property value is ever a float. */
  datatype PropertyValue =
    | NoValue
    | IntValue(i: int)
    | UIntValue(u: u64)
    | FloatValue(bits: u64)
    | BoolValue(b: bool)
    | StringValue(s: Text)

  datatype EventData =
    | WorldCreated(worldId: Text, name: Text, seed: RngSeed)
    | WorldLoaded(loadedId: Text, loadedTick: Tick)
    | WorldSaved(savedTick: Tick)
    | TickProcessed(tick: Tick, simTime: SimTime, entitiesProcessed: u32, rngStateAfter: Option<u64>)
    | ZoneCreated(zoneId: ZoneId, zoneName: Option<Text>)
    | ZoneLoaded(zoneId: ZoneId)
    | ZoneUnloaded(zoneId: ZoneId)
    | EntitySpawned(entityId: EntityId, kind: EntityKind, position: WorldPos, properties: EntityProperties)
    | EntityDespawned(entityId: EntityId, reason: DespawnReason)
    | EntityMoved(entityId: EntityId, from: WorldPos, to: WorldPos)
    | EntityStateChanged(entityId: EntityId, oldState: EntityState, newState: EntityState)
    | EntityPropertyChanged(entityId: EntityId, property: Text, oldValue: PropertyValue, newValue: PropertyValue)
    | ResourceDepleted(entityId: EntityId, amount: u32, remaining: u32)
    | EntityDegraded(entityId: EntityId, oldHealth: u32, newHealth: u32)

  /** `id` is zero until the log assigns one. */
  datatype SimEvent = SimEvent(id: EventId, tick: Tick, data: EventData)

  datatype ApiError =
    | NoWorldLoaded
    | WorldAlreadyExists(worldId: Text)
    | WorldNotFound(worldId: Text)
    | EntityNotFound(entityId: EntityId)
    | ZoneNotFound(zoneId: ZoneId)
    | ZoneAlreadyExists(zoneId: ZoneId)
    | ValidationFailed
    | StorageError

  const MAX_TICK_BATCH: u32 := 10000
  const MAX_NAME_LEN: nat := 64

  /** `validate_sim_command`: true when it reports no error. */
  predicate CommandValid(cmd: SimCommand) {
    match cmd
    case CreateWorld(name, _) => 0 < |name| <= MAX_NAME_LEN
    case TickN(n) => 0 < n <= MAX_TICK_BATCH
    case CreateZone(_, name) => name.Some? ==> |name.value| <= MAX_NAME_LEN
    case _ => true
  }

  predicate IsWorldIdByte(b: byte) {
    48 <= b <= 57 || 65 <= b <= 90 || 97 <= b <= 122 || b == 95 || b == 45
  }

  /** `validate_world_id` reports nothing: the character class already excludes dots,
      separators, NUL and colons, so the earlier checks add no rejection. */
  predicate WorldIdValid(id: Text) {
    id != [] && forall i :: 0 <= i < |id| ==> IsWorldIdByte(id[i])
  }

  function Decimal(n: nat): (t: Text)
    ensures t != [] && forall i :: 0 <= i < |t| ==> 48 <= t[i] <= 57
  {
    if n < 10 then [48 + n] else Decimal(n / 10) + [48 + n % 10]
  }

  /** `format!("world_{}", seed)`. */
  function WorldIdOf(seed: RngSeed): (id: Text)
    ensures WorldIdValid(id)
  {
    var prefix: Text := [119, 111, 114, 108, 100, 95];
    prefix + Decimal(seed)
  }
}
