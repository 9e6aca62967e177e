/** Primitive types shared by every layer: machine integers, identifiers, saturating
    counters, spatial types and the world metadata record. */
module SyTypes {

  const U64_MAX: u64 := 0xFFFF_FFFF_FFFF_FFFF

  type byte = x: int | 0 <= x < 0x100
  type u32 = x: int | 0 <= x < 0x1_0000_0000
  type u64 = x: int | 0 <= x < 0x1_0000_0000_0000_0000
  type i32 = x: int | -0x8000_0000 <= x < 0x8000_0000

  type Tick = u64
  type SimTime = u64
  type EntityId = u64
  type EventId = u64
  type RngSeed = u64
  type ZoneId = u32

  const ORIGIN: ZoneId := 0

  /** A Rust `String`: its UTF-8 bytes, so `|t|` is what `len()` returns. */
  type Text = seq<byte>

  datatype Option<+T> = None | Some(value: T)

  datatype Result<+T, +E> = Ok(value: T) | Err(error: E)

  /** The bytes of an ASCII literal. */
  function Ascii(s: string): Text
    requires forall i :: 0 <= i < |s| ==> s[i] < '\U{80}'
  {
    seq(|s|, i requires 0 <= i < |s| => var b: byte := s[i] as int; b)
  }

  /** `Tick::next` and `EventId::next`: both saturate at the top of the range. */
  function SatNext(n: u64): u64 {
    if n == U64_MAX then U64_MAX else n + 1
  }

  /** One tick is one unit of simulated time. */
  function TimeOf(t: Tick): SimTime {
    t
  }

  /** `+= 1` on a `u64` in a build without overflow checks. */
  function WrapNext(n: u64): u64 {
    (n + 1) % 0x1_0000_0000_0000_0000
  }

  datatype Position = Position(x: i32, y: i32, z: i32)

  datatype WorldPos = WorldPos(zone: ZoneId, pos: Position)

  datatype EntityKind = Resource | Creature | Item | Structure

  datatype EntityState = Active | Dormant | Dead

  datatype EntityProperties = EntityProperties(name: Option<Text>, amount: Option<u32>, health: Option<u32>)

  const CURRENT_FORMAT_VERSION: u32 := 3

  datatype WorldMeta = WorldMeta(
    worldId: Text,
    name: Text,
    seed: RngSeed,
    currentTick: Tick,
    simTime: SimTime,
    createdTick: Tick,
    snapshotTick: Tick,
    lastEventId: EventId,
    formatVersion: u32)

  /** The two kinds of storage failure the runtime distinguishes by matching, and the rest. */
  datatype SimError = NotFound | InvalidOperation | PersistenceError | CorruptedState
}
