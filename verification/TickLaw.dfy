/** What one tick does, said without its loops: which entities draw, which draws hit, what a hit
    costs, what is buried, and which events say so. */
module TickLaw {
  import opened SyTypes
  import opened SyApi
  import opened SortedKeys
  import opened Pcg32
  import opened Pcg32Period
  import opened WorldModel
  import opened Sim
  import opened Replay
  import opened Lifecycle

  // ------------------------------------------------------------------------
  // Draws, hits and losses
  // ------------------------------------------------------------------------

  /** An active resource with something left, or an active creature with health left. */
  predicate Draws(e: Entity) {
    && e.state == Active
    && ((e.kind == Resource && e.properties.amount.Some? && e.properties.amount.value > 0)
        || (e.kind == Creature && e.properties.health.Some? && e.properties.health.value > 0))
  }

  /** The entities with a smaller id that draw in the same tick, and so draw earlier. */
  ghost function DrawersBelow(es: Entities, id: EntityId): set<EntityId> {
    set k | k in es && k < id && Draws(es[k])
  }

  ghost function Drawers(es: Entities): set<EntityId> {
    set k | k in es && Draws(es[k])
  }

  /** The entity's own draw is a hit: 24 high bits of the word, against 1% or 0.5%. */
  ghost predicate Hit(es: Entities, rng: u64, seed: RngSeed, id: EntityId)
    requires id in es
  {
    && Draws(es[id])
    && Output(Iterate(|DrawersBelow(es, id)|, seed, rng)) / 256 <= if es[id].kind == Resource then 167772 else 83886
  }

  /** One unit less; dead with the last. */
  function Worn(e: Entity): Entity
    requires Draws(e)
  {
    if e.kind == Resource then
      e.(properties := e.properties.(amount := Some(e.properties.amount.value - 1)),
         state := if e.properties.amount.value == 1 then Dead else Active)
    else
      e.(properties := e.properties.(health := Some(e.properties.health.value - 1)),
         state := if e.properties.health.value == 1 then Dead else Active)
  }

  ghost function Later(es: Entities, rng: u64, seed: RngSeed, id: EntityId): Entity
    requires id in es
  {
    if Hit(es, rng, seed, id) then Worn(es[id]) else es[id]
  }

  /** The events of a hit: the loss, and the death if it took the last unit. */
  function LossOf(e: Entity, tick: Tick, id: EntityId): seq<SimEvent>
    requires Draws(e)
  {
    var death := [SimEvent(0, tick, EntityStateChanged(id, Active, Dead))];
    if e.kind == Resource then
      var a := e.properties.amount.value;
      [SimEvent(0, tick, ResourceDepleted(id, 1, a - 1))] + if a == 1 then death else []
    else
      var h := e.properties.health.value;
      [SimEvent(0, tick, EntityDegraded(id, h, h - 1))] + if h == 1 then death else []
  }

  /** The events of the hits among `ids`, in their order. */
  ghost function Losses(es: Entities, rng: u64, seed: RngSeed, tick: Tick, ids: seq<EntityId>): seq<SimEvent>
    requires forall k :: k in ids ==> k in es
  {
    if ids == [] then [] else
    var front, id := ids[..|ids| - 1], ids[|ids| - 1];
    Losses(es, rng, seed, tick, front) + if Hit(es, rng, seed, id) then LossOf(es[id], tick, id) else []
  }

  /** The ids to bury: on a tick divisible by 100, those dead after the wear. */
  ghost function DeadAfter(es: Entities, rng: u64, seed: RngSeed, tick: Tick): set<EntityId> {
    set k | k in es && tick % 100 == 0 && Later(es, rng, seed, k).state == Dead
  }

  ghost function ActiveIn(es: Entities): set<EntityId> {
    set k | k in es && es[k].state == Active
  }

  /** `ids` lists a set in ascending order. */
  ghost predicate Lists(ids: seq<EntityId>, s: set<EntityId>) {
    StrictlyAscending(ids) && forall k :: k in ids <==> k in s
  }

  lemma {:induction false} ListsOnce(a: seq<EntityId>, b: seq<EntityId>, s: set<EntityId>)
    requires Lists(a, s) && Lists(b, s)
    ensures a == b
    decreases |a|
  {
    assert b != [] ==> b[0] in s;
    if a == [] {
    } else {
      assert a[0] in a && a[0] in b && b[0] in b && b[0] in a;
      assert forall k :: k in a[1..] <==> k in a && k != a[0];
      assert forall k :: k in b[1..] <==> k in b && k != b[0];
      ListsOnce(a[1..], b[1..], s - {a[0]});
    }
  }

  lemma AscendFrom(first: EntityId, keys: seq<EntityId>, rest: seq<EntityId>)
    requires StrictlyAscending([first] + keys) && StrictlyAscending(rest) && forall k :: k in rest ==> k in keys
    ensures StrictlyAscending([first] + rest)
  {
    forall i | 0 <= i < |rest|
      ensures first < rest[i]
    {
      assert rest[i] in rest && ([first] + keys)[0] == first;
      var j :| 0 <= j < |keys| && keys[j] == rest[i];
      assert ([first] + keys)[j + 1] == rest[i];
    }
  }

  lemma {:induction false} IdsInAscend(es: Entities, keys: seq<EntityId>, state: EntityState)
    requires StrictlyAscending(keys) && (forall k :: k in keys ==> k in es) && forall k :: k in es ==> es[k].id == k
    ensures StrictlyAscending(IdsIn(es, keys, state))
    decreases |keys|
  {
    if keys == [] {
    } else {
      IdsInAscend(es, keys[1..], state);
      IdsInAreThoseInState(es, keys[1..], state);
      var rest := IdsIn(es, keys[1..], state);
      assert es[keys[0]].id == keys[0];
      AscendFrom(keys[0], keys[1..], rest);
    }
  }

  lemma IdsByStateLists(w: WorldState, state: EntityState)
    requires forall k :: k in w.entities ==> w.entities[k].id == k
    ensures Lists(IdsByState(w, state), set k | k in w.entities && w.entities[k].state == state)
  {
    hide IdsIn, Ascending;
    IdsInAscend(w.entities, Ascending(w.entities.Keys), state);
    IdsInAreThoseInState(w.entities, Ascending(w.entities.Keys), state);
  }

  // ------------------------------------------------------------------------
  // The wear loop
  // ------------------------------------------------------------------------

  ghost function DrawersIn(es: Entities, ids: seq<EntityId>): set<EntityId> {
    set k | k in ids && k in es && Draws(es[k])
  }

  ghost predicate WornMap(es: Entities, rng: u64, seed: RngSeed, ids: seq<EntityId>, es': Entities) {
    && es'.Keys == es.Keys
    && forall k :: k in es ==> es'[k] == if k in ids then Later(es, rng, seed, k) else es[k]
  }

  lemma WornMapOneMore(es: Entities, rng: u64, seed: RngSeed, ids: seq<EntityId>, id: EntityId, es': Entities)
    requires WornMap(es, rng, seed, ids, es') && id in es && id !in ids
    ensures id in es' && es'[id] == es[id] && es'[id := es[id]] == es'
    ensures WornMap(es, rng, seed, ids + [id], es'[id := Later(es, rng, seed, id)])
  {
    hide Later;
    assert forall k :: k in ids + [id] <==> k in ids || k == id;
  }

  /** The loop has worn exactly `ids`. */
  ghost predicate HasWorn(w: WorldState, rng: u64, seed: RngSeed, ids: seq<EntityId>, run: TickRun)
    requires forall k :: k in ids ==> k in w.entities
  {
    var es, es' := w.entities, run.world.entities;
    && run.world == w.(entities := es') && WornMap(es, rng, seed, ids, es')
    && run.rng == Iterate(|DrawersIn(es, ids)|, seed, rng)
    && run.events == Losses(es, rng, seed, w.currentTick, ids)
    && run.processed == |ids| % 0x1_0000_0000
  }

  /** One iteration: an active entity draws or not, and a hit costs it one unit. */
  lemma OneIteration(run: TickRun, seed: RngSeed, id: EntityId, e: Entity)
    requires id in run.world.entities && e == run.world.entities[id] && e.state == Active
    ensures var next := ProcessEntity(run, seed, id);
      var hit := Draws(e) && Output(run.rng) / 256 <= if e.kind == Resource then 167772 else 83886;
      && next.world == (if hit then run.world.PutEntity(id, Worn(e)) else run.world)
      && next.rng == (if Draws(e) then Advance(seed, run.rng) else run.rng)
      && next.events == run.events + (if hit then LossOf(e, run.world.currentTick, id) else [])
      && next.processed == (run.processed + 1) % 0x1_0000_0000
  {
    ChanceThresholds(run.rng);
    hide Advance, Chance, Output;
    assert run.events + [] == run.events;
  }

  lemma OneMoreDrawer(es: Entities, ids: seq<EntityId>, id: EntityId)
    requires id in es && id !in ids
    ensures var one := if Draws(es[id]) then 1 else 0;
      |DrawersIn(es, ids + [id])| == |DrawersIn(es, ids)| + one
  {
    hide Draws;
    assert DrawersIn(es, ids + [id]) == DrawersIn(es, ids) + if Draws(es[id]) then {id} else {};
  }

  lemma OneMoreLoss(es: Entities, rng: u64, seed: RngSeed, tick: Tick, ids: seq<EntityId>, id: EntityId)
    requires forall k :: k in ids + [id] ==> k in es
    ensures forall k :: k in ids ==> k in es
    ensures id in es
    ensures Losses(es, rng, seed, tick, ids + [id])
         == Losses(es, rng, seed, tick, ids) + if Hit(es, rng, seed, id) then LossOf(es[id], tick, id) else []
  {
    assert forall k :: k in ids ==> k in ids + [id];
    assert id in ids + [id];
    hide Hit, LossOf;
    assert (ids + [id])[..|ids|] == ids;
  }

  lemma HitHere(es: Entities, rng: u64, seed: RngSeed, ids: seq<EntityId>, id: EntityId)
    requires id in es && DrawersBelow(es, id) == DrawersIn(es, ids)
    ensures Hit(es, rng, seed, id) <==>
      && Draws(es[id])
      && Output(Iterate(|DrawersIn(es, ids)|, seed, rng)) / 256 <= if es[id].kind == Resource then 167772 else 83886
  {
    hide Draws, Output, Iterate, DrawersIn, DrawersBelow;
  }

  lemma CountOneMore(n: nat)
    ensures (n % 0x1_0000_0000 + 1) % 0x1_0000_0000 == (n + 1) % 0x1_0000_0000
  {
  }

  lemma PutInto(w: WorldState, es: Entities, id: EntityId, e: Entity)
    ensures w.(entities := es).PutEntity(id, e) == w.(entities := es[id := e])
  {
  }

  lemma WearOneMore(w: WorldState, rng: u64, seed: RngSeed, ids: seq<EntityId>, id: EntityId, run: TickRun)
    requires forall k :: k in ids + [id] ==> k in w.entities
    requires forall k :: k in ids ==> k in w.entities
    requires id in w.entities && id !in ids && w.entities[id].state == Active
    requires DrawersBelow(w.entities, id) == DrawersIn(w.entities, ids)
    requires HasWorn(w, rng, seed, ids, run)
    ensures HasWorn(w, rng, seed, ids + [id], ProcessEntity(run, seed, id))
  {
    hide ProcessEntity, Losses, LossOf, Iterate, Advance, Output, Draws, Worn, DrawersIn, DrawersBelow, Hit;
    var es := w.entities;
    WornMapOneMore(es, rng, seed, ids, id, run.world.entities);
    hide WornMap;
    OneIteration(run, seed, id, es[id]);
    OneMoreDrawer(es, ids, id);
    IterateStep(|DrawersIn(es, ids)| + 1, seed, rng);
    OneMoreLoss(es, rng, seed, w.currentTick, ids, id);
    CountOneMore(|ids|);
    HitHere(es, rng, seed, ids, id);
    PutInto(w, run.world.entities, id, Later(es, rng, seed, id));
    hide WorldState.PutEntity;
    var next := ProcessEntity(run, seed, id);
    assert next.world == w.(entities := run.world.entities[id := Later(es, rng, seed, id)]);
  }

  /** When the ids listed first are exactly the active ones below, the earlier drawers among them
      are all the drawers below. */
  lemma EarlierDrawers(es: Entities, active: seq<EntityId>, n: nat)
    requires n < |active| && Lists(active, ActiveIn(es))
    ensures DrawersBelow(es, active[n]) == DrawersIn(es, active[..n])
  {
    forall k | k in DrawersBelow(es, active[n])
      ensures k in DrawersIn(es, active[..n])
    {
      assert k in active;
      var i :| 0 <= i < |active| && active[i] == k;
      assert active[..n][i] == k;
    }
    assert forall k :: k in active[..n] ==> k < active[n];
  }

  lemma {:induction false} WearLoop(w: WorldState, rng: u64, seed: RngSeed, active: seq<EntityId>, n: nat)
    requires n <= |active| && Lists(active, ActiveIn(w.entities))
    ensures forall k :: k in active[..n] ==> k in w.entities
    ensures HasWorn(w, rng, seed, active[..n], ProcessAll(TickRun(w, rng, [], 0), seed, active[..n]))
  {
    hide ProcessEntity, Losses, DrawersIn, DrawersBelow, Later;
    assert forall k :: k in active[..n] ==> k in active;
    if n == 0 {
      NothingWorn(w, rng, seed);
      assert active[..0] == [];
    } else {
      WearLoop(w, rng, seed, active, n - 1);
      EarlierDrawers(w.entities, active, n - 1);
      var id := active[n - 1];
      assert id in active;
      assert active[..n] == active[..n - 1] + [id];
      assert active[..n][..n - 1] == active[..n - 1];
      var front := active[..n - 1];
      assert forall k :: k in front ==> k < id;
      hide HasWorn;
      WearOneMore(w, rng, seed, front, id, ProcessAll(TickRun(w, rng, [], 0), seed, front));
    }
  }

  lemma NothingWorn(w: WorldState, rng: u64, seed: RngSeed)
    ensures HasWorn(w, rng, seed, [], TickRun(w, rng, [], 0))
  {
    assert DrawersIn(w.entities, []) == {};
    IterateStep(0, seed, rng);
  }

  // ------------------------------------------------------------------------
  // The burial
  // ------------------------------------------------------------------------

  /** A zone list without the buried, order kept. */
  function Surviving(ids: seq<EntityId>, gone: set<EntityId>): seq<EntityId> {
    if ids == [] then []
    else (if ids[0] in gone then [] else [ids[0]]) + Surviving(ids[1..], gone)
  }

  lemma {:induction false} WithoutSurviving(ids: seq<EntityId>, gone: set<EntityId>, id: EntityId)
    ensures Without(Surviving(ids, gone), id) == Surviving(ids, gone + {id})
  {
    if ids == [] {
    } else {
      WithoutSurviving(ids[1..], gone, id);
      var rest := Surviving(ids[1..], gone);
      if ids[0] !in gone {
        assert ([ids[0]] + rest)[1..] == rest;
      } else {
        assert [] + rest == rest;
      }
    }
  }

  lemma {:induction false} OthersSurvive(ids: seq<EntityId>, gone: set<EntityId>, id: EntityId)
    requires id !in ids
    ensures Surviving(ids, gone + {id}) == Surviving(ids, gone)
  {
    if ids == [] {
    } else {
      assert ids[0] != id && forall k :: k in ids[1..] ==> k in ids;
      OthersSurvive(ids[1..], gone, id);
    }
  }

  lemma {:induction false} NobodyGone(ids: seq<EntityId>)
    ensures Surviving(ids, {}) == ids
  {
    if ids == [] {
    } else {
      NobodyGone(ids[1..]);
    }
  }

  function Elements(ids: seq<EntityId>): set<EntityId> {
    set k | k in ids
  }

  function Burials(tick: Tick, ids: seq<EntityId>): seq<SimEvent> {
    seq(|ids|, i requires 0 <= i < |ids| => SimEvent(0, tick, EntityDespawned(ids[i], Death)))
  }

  /** `w'` is `w` without the entities in `gone`, which also left their zone lists. */
  ghost predicate Buried(w: WorldState, gone: set<EntityId>, w': WorldState) {
    && w' == w.(entities := w.entities - gone, zones := w'.zones)
    && w'.zones.Keys == w.zones.Keys
    && forall z :: z in w.zones ==> w'.zones[z] == w.zones[z].(entities := Surviving(w.zones[z].entities, gone))
  }

  lemma BuryOneMore(w: WorldState, gone: set<EntityId>, id: EntityId, w': WorldState)
    requires Buried(w, gone, w') && id in w.entities && id !in gone
    requires w.entities[id].position.zone in w.zones
    requires forall z :: z in w.zones && id in w.zones[z].entities ==> w.entities[id].position.zone == z
    ensures id in w'.entities && Buried(w, gone + {id}, w'.RemoveEntity(id))
  {
    forall z | z in w.zones
      ensures w'.RemoveEntity(id).zones[z]
           == w.zones[z].(entities := Surviving(w.zones[z].entities, gone + {id}))
    {
      if z == w.entities[id].position.zone {
        WithoutSurviving(w.zones[z].entities, gone, id);
      } else {
        OthersSurvive(w.zones[z].entities, gone, id);
      }
    }
    assert w.entities - gone - {id} == w.entities - (gone + {id});
  }

  /** Entities sit in existing zones, and in no list of another zone. */
  ghost predicate Indexed(w: WorldState) {
    && (forall id :: id in w.entities ==> w.entities[id].position.zone in w.zones)
    && forall z, id :: z in w.zones && id in w.zones[z].entities && id in w.entities ==>
         w.entities[id].position.zone == z
  }

  /** The pass so far: `gone` buried, with their events. */
  ghost predicate BuriedRun(run: TickRun, dead: seq<EntityId>, after: TickRun) {
    && Buried(run.world, Elements(dead), after.world)
    && after == run.(world := after.world, events := run.events + Burials(run.world.currentTick, dead))
  }

  lemma NobodyBuried(run: TickRun)
    ensures BuriedRun(run, [], run)
  {
    forall z | z in run.world.zones
      ensures Surviving(run.world.zones[z].entities, {}) == run.world.zones[z].entities
    {
      NobodyGone(run.world.zones[z].entities);
    }
    assert Elements([]) == {} && run.world.entities - {} == run.world.entities;
    assert run.events + Burials(run.world.currentTick, []) == run.events;
  }

  lemma BuriedOneMore(run: TickRun, dead: seq<EntityId>, id: EntityId, before: TickRun)
    requires Indexed(run.world) && BuriedRun(run, dead, before) && id in run.world.entities && id !in dead
    ensures id in before.world.entities
    ensures BuriedRun(run, dead + [id],
              before.(world := before.world.RemoveEntity(id),
                      events := before.events + [Happened(before.world, EntityDespawned(id, Death))]))
  {
    hide Buried, Indexed, Burials, WorldState.RemoveEntity;
    IndexedAt(run.world, id);
    BuryOneMore(run.world, Elements(dead), id, before.world);
    BurialsSnoc(run.world.currentTick, dead, id);
    SameTick(run.world, Elements(dead), before.world);
    assert Elements(dead + [id]) == Elements(dead) + {id};
  }

  lemma {:induction false} BurialLoop(run: TickRun, dead: seq<EntityId>)
    requires Indexed(run.world) && StrictlyAscending(dead) && forall k :: k in dead ==> k in run.world.entities
    ensures BuriedRun(run, dead, Bury(run, dead))
    decreases |dead|
  {
    hide BuriedRun, Indexed, Bury;
    if dead == [] {
      BuryNone(run);
      NobodyBuried(run);
    } else {
      var front, id := dead[..|dead| - 1], dead[|dead| - 1];
      assert dead == front + [id] && dead[..|dead|] == dead;
      assert id in dead && forall k :: k in front ==> k in dead && k < id;
      BurialLoop(run, front);
      BuryNext(run, dead, |front|);
      BuriedOneMore(run, front, id, Bury(run, front));
    }
  }

  lemma IndexedAt(w: WorldState, id: EntityId)
    requires Indexed(w) && id in w.entities
    ensures w.entities[id].position.zone in w.zones
    ensures forall z :: z in w.zones && id in w.zones[z].entities ==> w.entities[id].position.zone == z
  {
  }

  lemma SameTick(w: WorldState, gone: set<EntityId>, w': WorldState)
    requires Buried(w, gone, w')
    ensures w'.currentTick == w.currentTick
  {
  }

  lemma BurialsSnoc(tick: Tick, ids: seq<EntityId>, id: EntityId)
    ensures Burials(tick, ids + [id]) == Burials(tick, ids) + [SimEvent(0, tick, EntityDespawned(id, Death))]
  {
  }

  // ------------------------------------------------------------------------
  // The law
  // ------------------------------------------------------------------------

  lemma WornStaysIndexed(w: WorldState, rng: u64, seed: RngSeed, ids: seq<EntityId>, es': Entities)
    requires w.WellFormed() && WornMap(w.entities, rng, seed, ids, es')
    ensures Indexed(w.(entities := es'))
    ensures forall k :: k in es' ==> es'[k].id == k
  {
    forall z, id | z in w.zones && id in w.zones[z].entities && id in es'
      ensures es'[id].position.zone == z
    {
      assert w.ZoneAgrees(z);
    }
  }

  /** The wear pass as a whole. */
  lemma WearLaw(w: WorldState, rng: u64, seed: RngSeed, active: seq<EntityId>)
    requires w.WellFormed() && Lists(active, ActiveIn(w.entities))
    ensures forall k :: k in active ==> k in w.entities
    ensures var es := w.entities; var worn := ProcessAll(TickRun(w, rng, [], 0), seed, IdsByState(w, Active));
      && worn.world == w.(entities := worn.world.entities) && worn.world.entities.Keys == es.Keys
      && (forall k :: k in es ==> worn.world.entities[k] == Later(es, rng, seed, k))
      && Indexed(worn.world) && (forall k :: k in worn.world.entities ==> worn.world.entities[k].id == k)
      && worn.rng == Iterate(|Drawers(es)|, seed, rng)
      && worn.events == Losses(es, rng, seed, w.currentTick, active)
      && worn.processed == |active| % 0x1_0000_0000
  {
    hide ProcessAll, IdsByState, Losses, Iterate, Later, Indexed;
    var es := w.entities;
    IdsByStateLists(w, Active);
    ListsOnce(active, IdsByState(w, Active), ActiveIn(es));
    assert active[..|active|] == active;
    WearLoop(w, rng, seed, active, |active|);
    var worn := ProcessAll(TickRun(w, rng, [], 0), seed, active);
    AllDrawersAreActive(es, active);
    WornStaysIndexed(w, rng, seed, active, worn.world.entities);
    AllWorn(es, rng, seed, active, worn.world.entities);
  }

  /** The tick systems: with `active` the active ids and, on a tick divisible by 100, `dead` the ids
      dead after the wear, both ascending. */
  lemma TickSystemsLaw(w: WorldState, rng: u64, seed: RngSeed, active: seq<EntityId>, dead: seq<EntityId>)
    requires w.WellFormed() && Lists(active, ActiveIn(w.entities))
    requires Lists(dead, DeadAfter(w.entities, rng, seed, w.currentTick))
    ensures forall k :: k in active ==> k in w.entities
    ensures var run := TickSystems(w, rng, seed); var es := w.entities;
      && run.world == w.(entities := run.world.entities, zones := run.world.zones)
      && run.world.entities.Keys == es.Keys - Elements(dead)
      && (forall k :: k in run.world.entities ==> run.world.entities[k] == Later(es, rng, seed, k))
      && run.world.zones.Keys == w.zones.Keys
      && (forall z :: z in w.zones ==>
            run.world.zones[z] == w.zones[z].(entities := Surviving(w.zones[z].entities, Elements(dead))))
      && run.rng == Iterate(|Drawers(es)|, seed, rng)
      && run.events == Losses(es, rng, seed, w.currentTick, active) + Burials(w.currentTick, dead)
      && run.processed == |active| % 0x1_0000_0000
  {
    hide ProcessAll, Bury, IdsByState, Losses, Surviving, Iterate, Later, Indexed, Burials;
    WearLaw(w, rng, seed, active);
    var es := w.entities;
    var worn := ProcessAll(TickRun(w, rng, [], 0), seed, IdsByState(w, Active));
    BuryNone(worn);
    assert dead != [] ==> dead[0] in dead;
    if w.currentTick % 100 == 0 {
      IdsByStateLists(worn.world, Dead);
      ListsOnce(dead, IdsByState(worn.world, Dead), DeadAfter(es, rng, seed, w.currentTick));
    }
    BurialLoop(worn, dead);
  }

  lemma AllDrawersAreActive(es: Entities, active: seq<EntityId>)
    requires Lists(active, ActiveIn(es))
    ensures DrawersIn(es, active) == Drawers(es)
  {
  }

  /** Entities that are not active neither draw nor change, so the loop's ids are all that matter. */
  lemma AllWorn(es: Entities, rng: u64, seed: RngSeed, active: seq<EntityId>, es': Entities)
    requires Lists(active, ActiveIn(es)) && WornMap(es, rng, seed, active, es')
    ensures es'.Keys == es.Keys && forall k :: k in es ==> es'[k] == Later(es, rng, seed, k)
  {
    hide Iterate, Output, Worn;
  }

  /** The world after a tick: time moved, every entity later than it was, the dead buried. */
  ghost predicate TickedTo(w: WorldState, rng: u64, seed: RngSeed, tick: Tick, dead: seq<EntityId>, w': WorldState) {
    var es := w.entities;
    && w' == WorldState(w.meta.(currentTick := tick, simTime := tick), tick, tick, Iterate(|Drawers(es)|, seed, rng),
                        w.nextEntityId, w'.entities, w'.zones)
    && w'.entities.Keys == es.Keys - Elements(dead)
    && (forall k :: k in es && k in w'.entities ==> w'.entities[k] == Later(es, rng, seed, k))
    && w'.zones.Keys == w.zones.Keys
    && forall z :: z in w.zones ==>
         w'.zones[z] == w.zones[z].(entities := Surviving(w.zones[z].entities, Elements(dead)))
  }

  /** One tick, from a well-formed world: the whole new state and all events. */
  lemma TickLaw(s: SimState, tick: Tick, active: seq<EntityId>, dead: seq<EntityId>)
    requires s.world.Some? && s.world.value.WellFormed()
    requires var now := s.world.value.currentTick;
      tick == if now == 0xFFFF_FFFF_FFFF_FFFF then now else now + 1
    requires Lists(active, ActiveIn(s.world.value.entities))
    requires Lists(dead, DeadAfter(s.world.value.entities, s.rng.state, s.rng.seed, tick))
    ensures forall k :: k in active ==> k in s.world.value.entities
    ensures var out := Step(s, TickOnce); var es := s.world.value.entities;
      var rng' := Iterate(|Drawers(es)|, s.rng.seed, s.rng.state);
      && out.state.world.Some?
      && TickedTo(s.world.value, s.rng.state, s.rng.seed, tick, dead, out.state.world.value)
      && out.state.rng == RngState(s.rng.seed, rng') && out.state.clock == tick
      && out.result == Ok(Losses(es, s.rng.state, s.rng.seed, tick, active) + Burials(tick, dead)
           + [SimEvent(0, tick, TickProcessed(tick, tick, |active| % 0x1_0000_0000, Some(rng')))])
  {
    hide TickSystems, Losses, Surviving, Iterate, Later, Burials, Elements, Drawers;
    var w := s.world.value;
    TickedIsWellFormed(w);
    TickSystemsLaw(w.AdvanceTick(), s.rng.state, s.rng.seed, active, dead);
  }

  lemma TickedIsWellFormed(w: WorldState)
    requires w.WellFormed()
    ensures w.AdvanceTick().WellFormed()
  {
    RetimeKeepsWellFormed(w, w.AdvanceTick());
  }
}
