/** The canonical byte encoding fed to the state hasher, and its injectivity. */
module CanonicalHash {
  import opened SyTypes
  import opened SortedKeys
  import opened LittleEndian
  import opened WorldModel

  function U32Bytes(n: u32): seq<byte> { ToLE(n, 4) }

  function U64Bytes(n: nat): seq<byte> { ToLE(n, 8) }

  /** Two's complement. */
  function I32Bytes(x: i32): seq<byte> { ToLE(x % 0x1_0000_0000, 4) }

  function KindByte(k: EntityKind): byte {
    match k
    case Resource => 0
    case Creature => 1
    case Item => 2
    case Structure => 3
  }

  function StateByte(s: EntityState): byte {
    match s
    case Active => 0
    case Dormant => 1
    case Dead => 2
  }

  function StrBytes(t: Text): seq<byte> { U64Bytes(|t|) + t }

  function OptStrBytes(t: Option<Text>): seq<byte> {
    match t
    case None => [0]
    case Some(s) => [1] + StrBytes(s)
  }

  function OptU32Bytes(n: Option<u32>): seq<byte> {
    match n
    case None => [0]
    case Some(v) => [1] + U32Bytes(v)
  }

  function MetaBytes(m: WorldMeta): seq<byte> {
    StrBytes(m.worldId) + (StrBytes(m.name) + (U64Bytes(m.seed) + (U64Bytes(m.currentTick) + (U64Bytes(m.simTime)
    + (U64Bytes(m.createdTick) + (U64Bytes(m.snapshotTick) + (U64Bytes(m.lastEventId) + U32Bytes(m.formatVersion))))))))
  }

  function PosBytes(p: WorldPos): seq<byte> {
    U32Bytes(p.zone) + (I32Bytes(p.pos.x) + (I32Bytes(p.pos.y) + I32Bytes(p.pos.z)))
  }

  function PropertiesBytes(p: EntityProperties): seq<byte> {
    OptStrBytes(p.name) + (OptU32Bytes(p.amount) + OptU32Bytes(p.health))
  }

  function EntityBytes(key: EntityId, e: Entity): seq<byte> {
    U64Bytes(key) + (U64Bytes(e.id) + ([KindByte(e.kind)] + ([StateByte(e.state)]
    + (PosBytes(e.position) + (U64Bytes(e.createdAt) + PropertiesBytes(e.properties))))))
  }

  function IdsBytes(ids: seq<EntityId>): seq<byte> {
    if ids == [] then [] else U64Bytes(ids[0]) + IdsBytes(ids[1..])
  }

  function ZoneBytes(key: ZoneId, z: Zone): seq<byte> {
    U32Bytes(key) + (U32Bytes(z.id) + (OptStrBytes(z.name) + ([if z.loaded then 1 else 0]
    + (U64Bytes(|z.entities|) + IdsBytes(z.entities)))))
  }

  function EntitiesBytes(m: map<EntityId, Entity>, keys: seq<EntityId>): seq<byte>
    requires forall k :: k in keys ==> k in m
  {
    if keys == [] then [] else EntityBytes(keys[0], m[keys[0]]) + EntitiesBytes(m, keys[1..])
  }

  function ZonesBytes(m: map<ZoneId, Zone>, keys: seq<ZoneId>): seq<byte>
    requires forall k :: k in keys ==> k in m
  {
    if keys == [] then [] else ZoneBytes(keys[0], m[keys[0]]) + ZonesBytes(m, keys[1..])
  }

  function ZoneOrder(m: map<ZoneId, Zone>): (keys: seq<ZoneId>)
    ensures forall k :: k in keys <==> k in m
    ensures |keys| == |m|
  {
    var keys := Ascending(m.Keys);
    assert forall i :: 0 <= i < |keys| ==> keys[i] in keys;
    keys
  }

  function EntityOrder(m: map<EntityId, Entity>): (keys: seq<EntityId>)
    ensures forall k :: k in keys <==> k in m
    ensures |keys| == |m|
  {
    Ascending(m.Keys)
  }

  function ScalarBytes(w: WorldState): seq<byte> {
    U64Bytes(w.currentTick) + (U64Bytes(w.simTime) + (U64Bytes(w.rngState) + U64Bytes(w.nextEntityId)))
  }

  /** Everything `compute_canonical_hash` feeds to the hasher, in order. */
  function CanonicalBytes(w: WorldState): seq<byte> {
    MetaBytes(w.meta) + (ScalarBytes(w)
    + (U64Bytes(|w.entities|) + (EntitiesBytes(w.entities, EntityOrder(w.entities))
    + (U64Bytes(|w.zones|) + ZonesBytes(w.zones, ZoneOrder(w.zones))))))
  }

  // ------------------------------------------------------------------------
  // Where every field lies
  // ------------------------------------------------------------------------

  /** The optional fields at the end of an entity: a presence byte, then the value. */
  function Optional(present: bool, value: seq<byte>): seq<byte> {
    if present then [1] + value else [0]
  }

  lemma PosLayout(p: WorldPos)
    ensures var b := PosBytes(p);
      && |b| == 16 && b[..4] == ToLE(p.zone, 4) && b[4..8] == ToLE(p.pos.x % 0x1_0000_0000, 4)
      && b[8..12] == ToLE(p.pos.y % 0x1_0000_0000, 4) && b[12..16] == ToLE(p.pos.z % 0x1_0000_0000, 4)
  {
    hide ToLE;
  }

  lemma PropertiesLayout(p: EntityProperties)
    ensures PropertiesBytes(p)
         == Optional(p.name.Some?, if p.name.Some? then ToLE(|p.name.value|, 8) + p.name.value else [])
            + (Optional(p.amount.Some?, if p.amount.Some? then ToLE(p.amount.value, 4) else [])
            + Optional(p.health.Some?, if p.health.Some? then ToLE(p.health.value, 4) else []))
  {
    hide ToLE;
  }

  lemma EntityParts(k: EntityId, e: Entity)
    ensures var b := EntityBytes(k, e); var pos := PosBytes(e.position);
      && |pos| == 16 && |b| >= 42
      && b[..8] == ToLE(k, 8) && b[8..16] == ToLE(e.id, 8) && b[16] == KindByte(e.kind) && b[17] == StateByte(e.state)
      && b[18..34] == pos && b[34..42] == ToLE(e.createdAt, 8) && b[42..] == PropertiesBytes(e.properties)
  {
    PosLayout(e.position);
    hide ToLE, PosBytes, PropertiesBytes, KindByte, StateByte;
  }

  lemma SliceOfSlice(b: seq<byte>, i: nat, j: nat, k: nat, l: nat)
    requires i <= j <= |b| && k <= l <= j - i
    ensures b[i..j][k..l] == b[i + k..i + l]
  {
    forall m | 0 <= m < l - k
      ensures b[i..j][k..l][m] == b[i + k..i + l][m]
    {
    }
  }

  /** The layout of an entity: key, id, kind and state tags, position, creation tick, properties. */
  lemma EntityLayout(k: EntityId, e: Entity)
    ensures var b := EntityBytes(k, e); var p := e.properties;
      && |b| >= 42
      && b[..8] == ToLE(k, 8) && b[8..16] == ToLE(e.id, 8)
      && b[16] == (if e.kind == Resource then 0 else if e.kind == Creature then 1 else if e.kind == Item then 2 else 3)
      && b[17] == (if e.state == Active then 0 else if e.state == Dormant then 1 else 2)
      && b[18..22] == ToLE(e.position.zone, 4)
      && b[22..26] == ToLE(e.position.pos.x % 0x1_0000_0000, 4)
      && b[26..30] == ToLE(e.position.pos.y % 0x1_0000_0000, 4)
      && b[30..34] == ToLE(e.position.pos.z % 0x1_0000_0000, 4)
      && b[34..42] == ToLE(e.createdAt, 8)
      && b[42..] == Optional(p.name.Some?, if p.name.Some? then ToLE(|p.name.value|, 8) + p.name.value else [])
                  + (Optional(p.amount.Some?, if p.amount.Some? then ToLE(p.amount.value, 4) else [])
                  + Optional(p.health.Some?, if p.health.Some? then ToLE(p.health.value, 4) else []))
  {
    EntityParts(k, e);
    PosLayout(e.position);
    PropertiesLayout(e.properties);
    hide ToLE, PosBytes, PropertiesBytes, EntityBytes, Optional;
    var b := EntityBytes(k, e);
    SliceOfSlice(b, 18, 34, 0, 4);
    SliceOfSlice(b, 18, 34, 4, 8);
    SliceOfSlice(b, 18, 34, 8, 12);
    SliceOfSlice(b, 18, 34, 12, 16);
    assert b[18..34][0..4] == b[18..34][..4];
  }

  /** The layout of a zone: key, id, name, loaded flag, count, ids. */
  lemma ZoneLayout(k: ZoneId, z: Zone)
    ensures var b := ZoneBytes(k, z);
      var name := Optional(z.name.Some?, if z.name.Some? then ToLE(|z.name.value|, 8) + z.name.value else []);
      var n := 8 + |name|;
      && |b| >= n + 9
      && b[..4] == ToLE(k, 4) && b[4..8] == ToLE(z.id, 4) && b[8..n] == name
      && b[n] == (if z.loaded then 1 else 0)
      && b[n + 1..n + 9] == ToLE(|z.entities|, 8) && b[n + 9..] == IdsBytes(z.entities)
  {
    hide ToLE, IdsBytes;
  }

  lemma {:induction false} IdsLayout(ids: seq<EntityId>, i: nat)
    requires i < |ids|
    ensures |IdsBytes(ids)| == 8 * |ids| && IdsBytes(ids)[8 * i..8 * i + 8] == ToLE(ids[i], 8)
    decreases |ids|
  {
    hide ToLE;
    if |ids| == 1 {
      assert ids[1..] == [];
    } else {
      IdsLayout(ids[1..], if i == 0 then 0 else i - 1);
      var rest := IdsBytes(ids[1..]);
      if i > 0 {
        assert IdsBytes(ids)[8 * i..8 * i + 8] == rest[8 * (i - 1)..8 * (i - 1) + 8];
      }
    }
  }

  /** The layout of the metadata after the two length-prefixed names. */
  lemma MetaLayout(m: WorldMeta)
    ensures var b := MetaBytes(m); var p := 8 + |m.worldId|; var q := p + 8 + |m.name|;
      && |b| == q + 52
      && b[..8] == ToLE(|m.worldId|, 8) && b[8..p] == m.worldId
      && b[p..p + 8] == ToLE(|m.name|, 8) && b[p + 8..q] == m.name
      && b[q..q + 8] == ToLE(m.seed, 8) && b[q + 8..q + 16] == ToLE(m.currentTick, 8)
      && b[q + 16..q + 24] == ToLE(m.simTime, 8) && b[q + 24..q + 32] == ToLE(m.createdTick, 8)
      && b[q + 32..q + 40] == ToLE(m.snapshotTick, 8) && b[q + 40..q + 48] == ToLE(m.lastEventId, 8)
      && b[q + 48..] == ToLE(m.formatVersion, 4)
  {
    hide ToLE;
  }

  /** The layout of a world: metadata, four counters, then entities and zones, each counted and in
      ascending key order. */
  lemma WorldLayout(w: WorldState)
    ensures var b := CanonicalBytes(w); var m := |MetaBytes(w.meta)|;
      var entities := EntitiesBytes(w.entities, EntityOrder(w.entities)); var n := m + 40 + |entities|;
      && |b| >= n + 8
      && b[..m] == MetaBytes(w.meta)
      && b[m..m + 8] == ToLE(w.currentTick, 8) && b[m + 8..m + 16] == ToLE(w.simTime, 8)
      && b[m + 16..m + 24] == ToLE(w.rngState, 8) && b[m + 24..m + 32] == ToLE(w.nextEntityId, 8)
      && b[m + 32..m + 40] == ToLE(|w.entities|, 8) && b[m + 40..n] == entities
      && b[n..n + 8] == ToLE(|w.zones|, 8) && b[n + 8..] == ZonesBytes(w.zones, ZoneOrder(w.zones))
    ensures StrictlyAscending(EntityOrder(w.entities)) && StrictlyAscending(ZoneOrder(w.zones))
  {
    hide ToLE, MetaBytes, EntitiesBytes, ZonesBytes, Ascending;
  }

  // ------------------------------------------------------------------------
  // Every writer can be undone, whatever bytes follow
  // ------------------------------------------------------------------------

  /** Lengths and counts fit the 64-bit prefixes, as every in-memory collection does. */
  predicate Fits(n: nat) {
    n < 0x1_0000_0000_0000_0000
  }

  predicate TextFits(t: Option<Text>) {
    t.Some? ==> Fits(|t.value|)
  }

  ghost predicate Encodable(w: WorldState) {
    && Fits(|w.meta.worldId|) && Fits(|w.meta.name|) && Fits(|w.entities|) && Fits(|w.zones|)
    && (forall k :: k in w.entities ==> TextFits(w.entities[k].properties.name))
    && (forall z :: z in w.zones ==> TextFits(w.zones[z].name) && Fits(|w.zones[z].entities|))
  }

  lemma Regroup(a: seq<byte>, rest: seq<byte>, x: seq<byte>)
    ensures a + rest + x == a + (rest + x)
  {
  }

  lemma SplitAt(a: seq<byte>, x: seq<byte>, b: seq<byte>, y: seq<byte>)
    requires a + x == b + y && |a| == |b|
    ensures a == b && x == y
  {
    assert a == (a + x)[..|a|] && b == (b + y)[..|a|];
    assert x == (a + x)[|a|..] && y == (b + y)[|a|..];
  }

  lemma U64Undone(m: nat, n: nat, x: seq<byte>, y: seq<byte>)
    requires Fits(m) && Fits(n) && U64Bytes(m) + x == U64Bytes(n) + y
    ensures m == n && x == y
  {
    hide ToLE, FromLE;
    Widths();
    SplitAt(U64Bytes(m), x, U64Bytes(n), y);
    FromToLE(m, 8);
    FromToLE(n, 8);
  }

  lemma U32Undone(m: u32, n: u32, x: seq<byte>, y: seq<byte>)
    requires U32Bytes(m) + x == U32Bytes(n) + y
    ensures m == n && x == y
  {
    hide ToLE, FromLE;
    Widths();
    SplitAt(U32Bytes(m), x, U32Bytes(n), y);
    FromToLE(m, 4);
    FromToLE(n, 4);
  }

  lemma I32Undone(m: i32, n: i32, x: seq<byte>, y: seq<byte>)
    requires I32Bytes(m) + x == I32Bytes(n) + y
    ensures m == n && x == y
  {
    U32Undone(m % 0x1_0000_0000, n % 0x1_0000_0000, x, y);
  }

  lemma StrUndone(s: Text, t: Text, x: seq<byte>, y: seq<byte>)
    requires Fits(|s|) && Fits(|t|) && StrBytes(s) + x == StrBytes(t) + y
    ensures s == t && x == y
  {
    hide U64Bytes;
    assert StrBytes(s) + x == U64Bytes(|s|) + (s + x);
    assert StrBytes(t) + y == U64Bytes(|t|) + (t + y);
    U64Undone(|s|, |t|, s + x, t + y);
    SplitAt(s, x, t, y);
  }

  lemma TagUndone(a: byte, b: byte, x: seq<byte>, y: seq<byte>)
    requires [a] + x == [b] + y
    ensures a == b && x == y
  {
    SplitAt([a], x, [b], y);
    assert [a][0] == [b][0];
  }

  lemma OptStrTagged(t: Option<Text>)
    ensures OptStrBytes(t) == [if t.Some? then 1 else 0] + (if t.Some? then StrBytes(t.value) else [])
  {
    hide StrBytes;
  }

  lemma OptStrUndone(s: Option<Text>, t: Option<Text>, x: seq<byte>, y: seq<byte>)
    requires TextFits(s) && TextFits(t) && OptStrBytes(s) + x == OptStrBytes(t) + y
    ensures s == t && x == y
  {
    hide StrBytes, OptStrBytes;
    var bs := if s.Some? then StrBytes(s.value) else [];
    var bt := if t.Some? then StrBytes(t.value) else [];
    OptStrTagged(s);
    OptStrTagged(t);
    Regroup([if s.Some? then 1 else 0], bs, x);
    Regroup([if t.Some? then 1 else 0], bt, y);
    TagUndone(if s.Some? then 1 else 0, if t.Some? then 1 else 0, bs + x, bt + y);
    if s.Some? {
      StrUndone(s.value, t.value, x, y);
    } else {
      assert [] + x == x && [] + y == y;
    }
  }

  lemma OptU32Tagged(n: Option<u32>)
    ensures OptU32Bytes(n) == [if n.Some? then 1 else 0] + (if n.Some? then U32Bytes(n.value) else [])
  {
    hide U32Bytes;
  }

  lemma OptU32Undone(s: Option<u32>, t: Option<u32>, x: seq<byte>, y: seq<byte>)
    requires OptU32Bytes(s) + x == OptU32Bytes(t) + y
    ensures s == t && x == y
  {
    hide U32Bytes, OptU32Bytes;
    var bs := if s.Some? then U32Bytes(s.value) else [];
    var bt := if t.Some? then U32Bytes(t.value) else [];
    OptU32Tagged(s);
    OptU32Tagged(t);
    Regroup([if s.Some? then 1 else 0], bs, x);
    Regroup([if t.Some? then 1 else 0], bt, y);
    TagUndone(if s.Some? then 1 else 0, if t.Some? then 1 else 0, bs + x, bt + y);
    if s.Some? {
      U32Undone(s.value, t.value, x, y);
    } else {
      assert [] + x == x && [] + y == y;
    }
  }

  lemma PosUndone(p: WorldPos, q: WorldPos, x: seq<byte>, y: seq<byte>)
    requires PosBytes(p) + x == PosBytes(q) + y
    ensures p == q && x == y
  {
    hide U32Bytes, I32Bytes;
    var p3, q3 := I32Bytes(p.pos.z), I32Bytes(q.pos.z);
    var p2, q2 := I32Bytes(p.pos.y) + p3, I32Bytes(q.pos.y) + q3;
    var p1, q1 := I32Bytes(p.pos.x) + p2, I32Bytes(q.pos.x) + q2;
    Regroup(U32Bytes(p.zone), p1, x); Regroup(U32Bytes(q.zone), q1, y);
    U32Undone(p.zone, q.zone, p1 + x, q1 + y);
    Regroup(I32Bytes(p.pos.x), p2, x); Regroup(I32Bytes(q.pos.x), q2, y);
    I32Undone(p.pos.x, q.pos.x, p2 + x, q2 + y);
    Regroup(I32Bytes(p.pos.y), p3, x); Regroup(I32Bytes(q.pos.y), q3, y);
    I32Undone(p.pos.y, q.pos.y, p3 + x, q3 + y);
    I32Undone(p.pos.z, q.pos.z, x, y);
  }

  lemma PropertiesUndone(p: EntityProperties, q: EntityProperties, x: seq<byte>, y: seq<byte>)
    requires TextFits(p.name) && TextFits(q.name)
    requires PropertiesBytes(p) + x == PropertiesBytes(q) + y
    ensures p == q && x == y
  {
    hide OptStrBytes, OptU32Bytes;
    var p2, q2 := OptU32Bytes(p.health), OptU32Bytes(q.health);
    var p1, q1 := OptU32Bytes(p.amount) + p2, OptU32Bytes(q.amount) + q2;
    Regroup(OptStrBytes(p.name), p1, x); Regroup(OptStrBytes(q.name), q1, y);
    OptStrUndone(p.name, q.name, p1 + x, q1 + y);
    Regroup(OptU32Bytes(p.amount), p2, x); Regroup(OptU32Bytes(q.amount), q2, y);
    OptU32Undone(p.amount, q.amount, p2 + x, q2 + y);
    OptU32Undone(p.health, q.health, x, y);
  }

  lemma EntityUndone(k: EntityId, e: Entity, l: EntityId, f: Entity, x: seq<byte>, y: seq<byte>)
    requires TextFits(e.properties.name) && TextFits(f.properties.name)
    requires EntityBytes(k, e) + x == EntityBytes(l, f) + y
    ensures k == l && e == f && x == y
  {
    hide U64Bytes, PosBytes, PropertiesBytes;
    var e6, f6 := PropertiesBytes(e.properties), PropertiesBytes(f.properties);
    var e5, f5 := U64Bytes(e.createdAt) + e6, U64Bytes(f.createdAt) + f6;
    var e4, f4 := PosBytes(e.position) + e5, PosBytes(f.position) + f5;
    var e3, f3 := [StateByte(e.state)] + e4, [StateByte(f.state)] + f4;
    var e2, f2 := [KindByte(e.kind)] + e3, [KindByte(f.kind)] + f3;
    var e1, f1 := U64Bytes(e.id) + e2, U64Bytes(f.id) + f2;
    Regroup(U64Bytes(k), e1, x); Regroup(U64Bytes(l), f1, y);
    U64Undone(k, l, e1 + x, f1 + y);
    Regroup(U64Bytes(e.id), e2, x); Regroup(U64Bytes(f.id), f2, y);
    U64Undone(e.id, f.id, e2 + x, f2 + y);
    Regroup([KindByte(e.kind)], e3, x); Regroup([KindByte(f.kind)], f3, y);
    TagUndone(KindByte(e.kind), KindByte(f.kind), e3 + x, f3 + y);
    Regroup([StateByte(e.state)], e4, x); Regroup([StateByte(f.state)], f4, y);
    TagUndone(StateByte(e.state), StateByte(f.state), e4 + x, f4 + y);
    Regroup(PosBytes(e.position), e5, x); Regroup(PosBytes(f.position), f5, y);
    PosUndone(e.position, f.position, e5 + x, f5 + y);
    Regroup(U64Bytes(e.createdAt), e6, x); Regroup(U64Bytes(f.createdAt), f6, y);
    U64Undone(e.createdAt, f.createdAt, e6 + x, f6 + y);
    PropertiesUndone(e.properties, f.properties, x, y);
  }

  lemma {:induction false} IdsUndone(a: seq<EntityId>, b: seq<EntityId>, x: seq<byte>, y: seq<byte>)
    requires |a| == |b| && IdsBytes(a) + x == IdsBytes(b) + y
    ensures a == b && x == y
    decreases |a|
  {
    hide U64Bytes;
    if a == [] {
      assert [] + x == x && [] + y == y;
    } else {
      Regroup(U64Bytes(a[0]), IdsBytes(a[1..]), x);
      Regroup(U64Bytes(b[0]), IdsBytes(b[1..]), y);
      U64Undone(a[0], b[0], IdsBytes(a[1..]) + x, IdsBytes(b[1..]) + y);
      IdsUndone(a[1..], b[1..], x, y);
      assert a == [a[0]] + a[1..] && b == [b[0]] + b[1..];
    }
  }

  lemma ZoneUndone(k: ZoneId, z: Zone, l: ZoneId, v: Zone, x: seq<byte>, y: seq<byte>)
    requires TextFits(z.name) && TextFits(v.name) && Fits(|z.entities|) && Fits(|v.entities|)
    requires ZoneBytes(k, z) + x == ZoneBytes(l, v) + y
    ensures k == l && z == v && x == y
  {
    hide U64Bytes, U32Bytes, OptStrBytes, IdsBytes;
    var zl, vl: byte := if z.loaded then 1 else 0, if v.loaded then 1 else 0;
    var z5, v5 := IdsBytes(z.entities), IdsBytes(v.entities);
    var z4, v4 := U64Bytes(|z.entities|) + z5, U64Bytes(|v.entities|) + v5;
    var z3, v3 := [zl] + z4, [vl] + v4;
    var z2, v2 := OptStrBytes(z.name) + z3, OptStrBytes(v.name) + v3;
    var z1, v1 := U32Bytes(z.id) + z2, U32Bytes(v.id) + v2;
    Regroup(U32Bytes(k), z1, x); Regroup(U32Bytes(l), v1, y);
    U32Undone(k, l, z1 + x, v1 + y);
    Regroup(U32Bytes(z.id), z2, x); Regroup(U32Bytes(v.id), v2, y);
    U32Undone(z.id, v.id, z2 + x, v2 + y);
    Regroup(OptStrBytes(z.name), z3, x); Regroup(OptStrBytes(v.name), v3, y);
    OptStrUndone(z.name, v.name, z3 + x, v3 + y);
    Regroup([zl], z4, x); Regroup([vl], v4, y);
    TagUndone(zl, vl, z4 + x, v4 + y);
    Regroup(U64Bytes(|z.entities|), z5, x); Regroup(U64Bytes(|v.entities|), v5, y);
    U64Undone(|z.entities|, |v.entities|, z5 + x, v5 + y);
    IdsUndone(z.entities, v.entities, x, y);
  }

  /** A counted run of entities: same keys, same entities, same remainder. */
  lemma {:induction false} EntitiesUndone(m: map<EntityId, Entity>, ks: seq<EntityId>,
                                          n: map<EntityId, Entity>, ls: seq<EntityId>, x: seq<byte>, y: seq<byte>)
    requires (forall k :: k in ks ==> k in m && TextFits(m[k].properties.name))
    requires (forall l :: l in ls ==> l in n && TextFits(n[l].properties.name))
    requires |ks| == |ls| && EntitiesBytes(m, ks) + x == EntitiesBytes(n, ls) + y
    ensures ks == ls && (forall k :: k in ks ==> m[k] == n[k]) && x == y
    decreases |ks|
  {
    hide EntityBytes, TextFits;
    if ks == [] {
      assert [] + x == x && [] + y == y;
    } else {
      var k, l := ks[0], ls[0];
      Regroup(EntityBytes(k, m[k]), EntitiesBytes(m, ks[1..]), x);
      Regroup(EntityBytes(l, n[l]), EntitiesBytes(n, ls[1..]), y);
      EntityUndone(k, m[k], l, n[l], EntitiesBytes(m, ks[1..]) + x, EntitiesBytes(n, ls[1..]) + y);
      EntitiesUndone(m, ks[1..], n, ls[1..], x, y);
      assert ks == [k] + ks[1..] && ls == [l] + ls[1..];
    }
  }

  lemma {:induction false} ZonesUndone(m: map<ZoneId, Zone>, ks: seq<ZoneId>,
                                       n: map<ZoneId, Zone>, ls: seq<ZoneId>, x: seq<byte>, y: seq<byte>)
    requires (forall k :: k in ks ==> k in m && TextFits(m[k].name) && Fits(|m[k].entities|))
    requires (forall l :: l in ls ==> l in n && TextFits(n[l].name) && Fits(|n[l].entities|))
    requires |ks| == |ls| && ZonesBytes(m, ks) + x == ZonesBytes(n, ls) + y
    ensures ks == ls && (forall k :: k in ks ==> m[k] == n[k]) && x == y
    decreases |ks|
  {
    hide ZoneBytes, TextFits, Fits;
    if ks == [] {
      assert [] + x == x && [] + y == y;
    } else {
      var k, l := ks[0], ls[0];
      Regroup(ZoneBytes(k, m[k]), ZonesBytes(m, ks[1..]), x);
      Regroup(ZoneBytes(l, n[l]), ZonesBytes(n, ls[1..]), y);
      ZoneUndone(k, m[k], l, n[l], ZonesBytes(m, ks[1..]) + x, ZonesBytes(n, ls[1..]) + y);
      ZonesUndone(m, ks[1..], n, ls[1..], x, y);
      assert ks == [k] + ks[1..] && ls == [l] + ls[1..];
    }
  }

  lemma MetaUndone(m: WorldMeta, n: WorldMeta, x: seq<byte>, y: seq<byte>)
    requires Fits(|m.worldId|) && Fits(|m.name|) && Fits(|n.worldId|) && Fits(|n.name|)
    requires MetaBytes(m) + x == MetaBytes(n) + y
    ensures m == n && x == y
  {
    hide StrBytes, U64Bytes, U32Bytes;
    var m8, n8 := U32Bytes(m.formatVersion), U32Bytes(n.formatVersion);
    var m7, n7 := U64Bytes(m.lastEventId) + m8, U64Bytes(n.lastEventId) + n8;
    var m6, n6 := U64Bytes(m.snapshotTick) + m7, U64Bytes(n.snapshotTick) + n7;
    var m5, n5 := U64Bytes(m.createdTick) + m6, U64Bytes(n.createdTick) + n6;
    var m4, n4 := U64Bytes(m.simTime) + m5, U64Bytes(n.simTime) + n5;
    var m3, n3 := U64Bytes(m.currentTick) + m4, U64Bytes(n.currentTick) + n4;
    var m2, n2 := U64Bytes(m.seed) + m3, U64Bytes(n.seed) + n3;
    var m1, n1 := StrBytes(m.name) + m2, StrBytes(n.name) + n2;
    Regroup(StrBytes(m.worldId), m1, x); Regroup(StrBytes(n.worldId), n1, y);
    StrUndone(m.worldId, n.worldId, m1 + x, n1 + y);
    Regroup(StrBytes(m.name), m2, x); Regroup(StrBytes(n.name), n2, y);
    StrUndone(m.name, n.name, m2 + x, n2 + y);
    Regroup(U64Bytes(m.seed), m3, x); Regroup(U64Bytes(n.seed), n3, y);
    U64Undone(m.seed, n.seed, m3 + x, n3 + y);
    Regroup(U64Bytes(m.currentTick), m4, x); Regroup(U64Bytes(n.currentTick), n4, y);
    U64Undone(m.currentTick, n.currentTick, m4 + x, n4 + y);
    Regroup(U64Bytes(m.simTime), m5, x); Regroup(U64Bytes(n.simTime), n5, y);
    U64Undone(m.simTime, n.simTime, m5 + x, n5 + y);
    Regroup(U64Bytes(m.createdTick), m6, x); Regroup(U64Bytes(n.createdTick), n6, y);
    U64Undone(m.createdTick, n.createdTick, m6 + x, n6 + y);
    Regroup(U64Bytes(m.snapshotTick), m7, x); Regroup(U64Bytes(n.snapshotTick), n7, y);
    U64Undone(m.snapshotTick, n.snapshotTick, m7 + x, n7 + y);
    Regroup(U64Bytes(m.lastEventId), m8, x); Regroup(U64Bytes(n.lastEventId), n8, y);
    U64Undone(m.lastEventId, n.lastEventId, m8 + x, n8 + y);
    U32Undone(m.formatVersion, n.formatVersion, x, y);
  }

  lemma ScalarsUndone(w: WorldState, v: WorldState, x: seq<byte>, y: seq<byte>)
    requires ScalarBytes(w) + x == ScalarBytes(v) + y
    ensures w.currentTick == v.currentTick && w.simTime == v.simTime && w.rngState == v.rngState
         && w.nextEntityId == v.nextEntityId && x == y
  {
    hide U64Bytes;
    var w3, v3 := U64Bytes(w.nextEntityId), U64Bytes(v.nextEntityId);
    var w2, v2 := U64Bytes(w.rngState) + w3, U64Bytes(v.rngState) + v3;
    var w1, v1 := U64Bytes(w.simTime) + w2, U64Bytes(v.simTime) + v2;
    Regroup(U64Bytes(w.currentTick), w1, x); Regroup(U64Bytes(v.currentTick), v1, y);
    U64Undone(w.currentTick, v.currentTick, w1 + x, v1 + y);
    Regroup(U64Bytes(w.simTime), w2, x); Regroup(U64Bytes(v.simTime), v2, y);
    U64Undone(w.simTime, v.simTime, w2 + x, v2 + y);
    Regroup(U64Bytes(w.rngState), w3, x); Regroup(U64Bytes(v.rngState), v3, y);
    U64Undone(w.rngState, v.rngState, w3 + x, v3 + y);
    U64Undone(w.nextEntityId, v.nextEntityId, x, y);
  }

  lemma SameByKeys<K, V>(m: map<K, V>, n: map<K, V>, keys: seq<K>)
    requires (forall k :: k in keys <==> k in m) && (forall k :: k in keys <==> k in n)
    requires forall k :: k in keys ==> m[k] == n[k]
    ensures m == n
  {
    assert forall k :: k in m <==> k in n;
  }

  /** Main result: two worlds that feed the hasher the same bytes are equal in every field. */
  lemma CanonicalBytesInjective(w: WorldState, v: WorldState)
    requires Encodable(w) && Encodable(v) && CanonicalBytes(w) == CanonicalBytes(v)
    ensures w == v
  {
    hide MetaBytes, ScalarBytes, U64Bytes, EntitiesBytes, ZonesBytes, EntityOrder, ZoneOrder, TextFits, Fits;
    var w5, v5 := ZonesBytes(w.zones, ZoneOrder(w.zones)), ZonesBytes(v.zones, ZoneOrder(v.zones));
    var w4, v4 := U64Bytes(|w.zones|) + w5, U64Bytes(|v.zones|) + v5;
    var w3, v3 := EntitiesBytes(w.entities, EntityOrder(w.entities)) + w4,
                  EntitiesBytes(v.entities, EntityOrder(v.entities)) + v4;
    var w2, v2 := U64Bytes(|w.entities|) + w3, U64Bytes(|v.entities|) + v3;
    var w1, v1 := ScalarBytes(w) + w2, ScalarBytes(v) + v2;
    MetaUndone(w.meta, v.meta, w1, v1);
    ScalarsUndone(w, v, w2, v2);
    U64Undone(|w.entities|, |v.entities|, w3, v3);
    EntitiesUndone(w.entities, EntityOrder(w.entities), v.entities, EntityOrder(v.entities), w4, v4);
    U64Undone(|w.zones|, |v.zones|, w5, v5);
    assert w5 + [] == w5 && v5 + [] == v5;
    ZonesUndone(w.zones, ZoneOrder(w.zones), v.zones, ZoneOrder(v.zones), [], []);
    SameByKeys(w.entities, v.entities, EntityOrder(w.entities));
    SameByKeys(w.zones, v.zones, ZoneOrder(w.zones));
  }

  // ------------------------------------------------------------------------
  // The hasher
  // ------------------------------------------------------------------------

  /** A streaming hasher: a digest of the bytes fed since the last reset. */
  class StateHasher {
    const digest: seq<byte> -> u64
    var fed: seq<byte>

    constructor (d: seq<byte> -> u64)
      ensures digest == d && fed == []
    {
      digest, fed := d, [];
    }

    method Reset()
      modifies this
      ensures fed == []
    {
      fed := [];
    }

    method Update(data: seq<byte>)
      modifies this
      ensures fed == old(fed) + data
    {
      fed := fed + data;
    }

    method FeedEntities(m: map<EntityId, Entity>)
      modifies this
      ensures fed == old(fed) + EntitiesBytes(m, EntityOrder(m))
    {
      hide EntityBytes, EntitiesBytes, EntityOrder;
      var keys := EntityOrder(m);
      assert keys[0..] == keys;
      for i := 0 to |keys|
        invariant forall k :: k in keys[i..] ==> k in m
        invariant fed + EntitiesBytes(m, keys[i..]) == old(fed) + EntitiesBytes(m, keys)
      {
        assert keys[i] in keys;
        EntitiesFrom(m, keys, i);
        Regroup(fed, EntityBytes(keys[i], m[keys[i]]), EntitiesBytes(m, keys[i + 1..]));
        Update(EntityBytes(keys[i], m[keys[i]]));
      }
      NoEntities(m, keys[|keys|..]);
      assert fed + [] == fed;
    }

    method FeedZones(m: map<ZoneId, Zone>)
      modifies this
      ensures fed == old(fed) + ZonesBytes(m, ZoneOrder(m))
    {
      hide ZoneBytes, ZonesBytes, ZoneOrder;
      var keys := ZoneOrder(m);
      assert keys[0..] == keys;
      for i := 0 to |keys|
        invariant forall k :: k in keys[i..] ==> k in m
        invariant fed + ZonesBytes(m, keys[i..]) == old(fed) + ZonesBytes(m, keys)
      {
        assert keys[i] in keys;
        ZonesFrom(m, keys, i);
        Regroup(fed, ZoneBytes(keys[i], m[keys[i]]), ZonesBytes(m, keys[i + 1..]));
        Update(ZoneBytes(keys[i], m[keys[i]]));
      }
      NoZones(m, keys[|keys|..]);
      assert fed + [] == fed;
    }

    /** `compute_canonical_hash`. */
    method ComputeCanonicalHash(w: WorldState) returns (hash: u64)
      modifies this
      ensures fed == CanonicalBytes(w) && hash == digest(CanonicalBytes(w))
    {
      hide MetaBytes, ScalarBytes, U64Bytes, EntitiesBytes, ZonesBytes, EntityOrder, ZoneOrder;
      Reset();
      Update(MetaBytes(w.meta));
      Update(ScalarBytes(w));
      Update(U64Bytes(|w.entities|));
      FeedEntities(w.entities);
      Update(U64Bytes(|w.zones|));
      FeedZones(w.zones);
      Sixfold(MetaBytes(w.meta), ScalarBytes(w), U64Bytes(|w.entities|),
              EntitiesBytes(w.entities, EntityOrder(w.entities)), U64Bytes(|w.zones|),
              ZonesBytes(w.zones, ZoneOrder(w.zones)));
      hash := digest(fed);
    }
  }

  lemma Sixfold(a: seq<byte>, b: seq<byte>, c: seq<byte>, d: seq<byte>, e: seq<byte>, f: seq<byte>)
    ensures [] + a + b + c + d + e + f == a + (b + (c + (d + (e + f))))
  {
  }

  lemma EntitiesFrom(m: map<EntityId, Entity>, keys: seq<EntityId>, i: nat)
    requires i < |keys| && forall k :: k in keys ==> k in m
    ensures forall k :: k in keys[i..] ==> k in m
    ensures forall k :: k in keys[i + 1..] ==> k in m
    ensures EntitiesBytes(m, keys[i..]) == EntityBytes(keys[i], m[keys[i]]) + EntitiesBytes(m, keys[i + 1..])
  {
    hide EntityBytes;
    assert keys[i..][1..] == keys[i + 1..];
  }

  lemma NoEntities(m: map<EntityId, Entity>, keys: seq<EntityId>)
    requires keys == []
    ensures EntitiesBytes(m, keys) == []
  {
  }

  lemma ZonesFrom(m: map<ZoneId, Zone>, keys: seq<ZoneId>, i: nat)
    requires i < |keys| && forall k :: k in keys ==> k in m
    ensures forall k :: k in keys[i..] ==> k in m
    ensures forall k :: k in keys[i + 1..] ==> k in m
    ensures ZonesBytes(m, keys[i..]) == ZoneBytes(keys[i], m[keys[i]]) + ZonesBytes(m, keys[i + 1..])
  {
    hide ZoneBytes;
    assert keys[i..][1..] == keys[i + 1..];
  }

  lemma NoZones(m: map<ZoneId, Zone>, keys: seq<ZoneId>)
    requires keys == []
    ensures ZonesBytes(m, keys) == []
  {
  }
}
