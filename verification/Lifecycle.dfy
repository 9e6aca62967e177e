/** Lifecycle and identity over whole runs: death is final and earned, the dead are buried
    within a hundred ticks, and no entity id is ever issued twice. */
module Lifecycle {
  import opened SyTypes
  import opened SyApi
  import opened SortedKeys
  import opened Pcg32
  import opened WorldModel
  import opened Sim
  import opened Replay
  import opened LiveReplay
  import opened History

  // ------------------------------------------------------------------------
  // Death
  // ------------------------------------------------------------------------

  /** Active, or dead with the counter of its own kind at zero; never dormant. */
  predicate ActiveOrSpent(e: Entity) {
    || e.state == Active
    || (e.state == Dead && e.kind == Resource && e.properties.amount == Some(0))
    || (e.state == Dead && e.kind == Creature && e.properties.health == Some(0))
  }

  type Entities = map<EntityId, Entity>

  ghost predicate Orderly(es: Entities) {
    forall id :: id in es ==> es[id].id == id && ActiveOrSpent(es[id])
  }

  /** No entity appears, and a dead one either goes or stays exactly as it was. */
  ghost predicate Ages(a: Entities, b: Entities) {
    forall id :: id in b ==> id in a && (a[id].state == Dead ==> b[id] == a[id])
  }

  lemma PutAges(es: Entities, id: EntityId, worn: Entity)
    requires Orderly(es) && id in es && worn.id == id && ActiveOrSpent(worn)
    requires es[id].state == Dead ==> worn == es[id]
    ensures Orderly(es[id := worn]) && Ages(es, es[id := worn])
  {
  }

  lemma OrderlyAt(es: Entities, id: EntityId)
    requires Orderly(es) && id in es
    ensures es[id].id == id && ActiveOrSpent(es[id])
  {
  }

  lemma AgesSelf(es: Entities)
    ensures Ages(es, es)
  {
  }

  lemma WearAges(run: TickRun, seed: RngSeed, id: EntityId)
    requires Orderly(run.world.entities)
    ensures var es := ProcessEntity(run, seed, id).world.entities;
      Orderly(es) && Ages(run.world.entities, es) && es.Keys == run.world.entities.Keys
    ensures ProcessEntity(run, seed, id).world.currentTick == run.world.currentTick
  {
    hide Advance, Chance, Orderly, Ages;
    var es := run.world.entities;
    AgesSelf(es);
    if id in es {
      OrderlyAt(es, id);
      var es' := ProcessEntity(run, seed, id).world.entities;
      if es' != es {
        PutAges(es, id, es'[id]);
        assert es' == es[id := es'[id]];
      }
    }
  }

  lemma {:induction false} ProcessAllAges(run: TickRun, seed: RngSeed, ids: seq<EntityId>)
    requires Orderly(run.world.entities)
    ensures var es := ProcessAll(run, seed, ids).world.entities;
      Orderly(es) && Ages(run.world.entities, es) && es.Keys == run.world.entities.Keys
    ensures ProcessAll(run, seed, ids).world.currentTick == run.world.currentTick
    decreases |ids|
  {
    hide ProcessEntity, Orderly;
    if ids == [] {
    } else {
      var front := ids[..|ids| - 1];
      ProcessAllAges(run, seed, front);
      WearAges(ProcessAll(run, seed, front), seed, ids[|ids| - 1]);
    }
  }

  lemma {:induction false} BuryRemoves(run: TickRun, ids: seq<EntityId>)
    ensures Bury(run, ids).world.entities == run.world.entities - (set id <- ids)
    decreases |ids|
  {
    if ids == [] {
      assert run.world.entities - {} == run.world.entities;
    } else {
      var front, last := ids[..|ids| - 1], ids[|ids| - 1];
      BuryRemoves(run, front);
      assert ids == front + [last];
      assert (set id <- ids) == (set id <- front) + {last};
    }
  }

  lemma {:induction false} IdsInAreThoseInState(es: Entities, keys: seq<EntityId>, state: EntityState)
    requires (forall k :: k in keys ==> k in es) && forall k :: k in es ==> es[k].id == k
    ensures forall k :: k in IdsIn(es, keys, state) <==> k in keys && es[k].state == state
    decreases |keys|
  {
    if keys == [] {
    } else {
      IdsInAreThoseInState(es, keys[1..], state);
      assert keys == [keys[0]] + keys[1..];
    }
  }

  ghost predicate NoneDead(es: Entities) {
    forall id :: id in es ==> es[id].state != Dead
  }

  /** A tick ages the entities; on a tick divisible by 100 it leaves no dead entity. */
  lemma TickSystemsAge(w: WorldState, rng: u64, seed: RngSeed)
    requires Orderly(w.entities)
    ensures var es := TickSystems(w, rng, seed).world.entities;
      && Orderly(es) && Ages(w.entities, es)
      && (w.currentTick % 100 == 0 ==> NoneDead(es))
  {
    hide ProcessAll, Bury, Ascending, IdsIn, ActiveOrSpent;
    var start := TickRun(w, rng, [], 0);
    ProcessAllAges(start, seed, IdsByState(w, Active));
    var run := ProcessAll(start, seed, IdsByState(w, Active));
    var dead := IdsByState(run.world, Dead);
    BuryRemoves(run, dead);
    IdsInAreThoseInState(run.world.entities, Ascending(run.world.entities.Keys), Dead);
  }

  lemma {:induction false} TicksAge(s: SimState, n: nat)
    requires s.world.Some? && Orderly(s.world.value.entities)
    ensures TickManyIn(s, n).state.world.Some?
    ensures var w' := TickManyIn(s, n).state.world.value;
      Orderly(w'.entities) && Ages(s.world.value.entities, w'.entities)
  {
    hide TickSystems, Orderly;
    TickManyFailsAtOnce(s, n);
    if n == 0 {
    } else {
      TicksAge(s, n - 1);
      TickManyFailsAtOnce(s, n - 1);
      var before := TickManyIn(s, n - 1).state;
      TickSystemsAge(before.world.value.AdvanceTick(), before.rng.state, before.rng.seed);
    }
  }

  lemma StepAges(s: SimState, cmd: SimCommand)
    requires s.world.Some? && Orderly(s.world.value.entities)
    requires Step(s, cmd).result.Ok?
    ensures var out := Step(s, cmd).state;
      && out.world.Some? && Orderly(out.world.value.entities)
      && (!cmd.SpawnEntity? ==> Ages(s.world.value.entities, out.world.value.entities))
  {
    hide TickSystems, TickManyIn;
    match cmd {
      case TickOnce =>
        TickSystemsAge(s.world.value.AdvanceTick(), s.rng.state, s.rng.seed);
      case TickN(n) =>
        TicksAge(s, n);
      case _ =>
    }
  }

  /** Over every run from nothing: no entity is dormant, and a dead one is a resource with
      amount zero or a creature with health zero. */
  lemma {:induction false} RunKeepsOrderly(s: SimState, cmds: seq<SimCommand>)
    requires s.world.None?
    ensures var w := Run(s, cmds).state.world; w.Some? ==> Orderly(w.value.entities)
    decreases |cmds|
  {
    hide Step, Orderly;
    if cmds == [] {
    } else {
      var before := Run(s, cmds[..|cmds| - 1]).state;
      var cmd := cmds[|cmds| - 1];
      RunKeepsOrderly(s, cmds[..|cmds| - 1]);
      if Step(before, cmd).result.Err? {
        FailedCommandIsInvisible(before, cmd);
      } else if before.world.Some? {
        StepAges(before, cmd);
      } else {
        CreationIsOrderly(before, cmd);
      }
    }
  }

  lemma CreationIsOrderly(s: SimState, cmd: SimCommand)
    requires s.world.None? && Step(s, cmd).result.Ok?
    ensures var w := Step(s, cmd).state.world; w.Some? && Orderly(w.value.entities)
  {
    hide TickManyIn, TickSystems;
    if cmd.TickN? {
      TickManyFailsAtOnce(s, cmd.n);
    }
  }

  /** Where a dead entity `e` of hundred-tick block `block` can be later: still there, unchanged,
      in the same block; or gone, with its id below the counter and so never issued again. */
  ghost predicate Doomed(w: WorldState, id: EntityId, e: Entity, block: nat) {
    && Orderly(w.entities) && id < w.nextEntityId
    && (id in w.entities ==> w.entities[id] == e && e.state == Dead && w.currentTick / 100 == block)
  }

  lemma TickKeepsDoomed(s: SimState, id: EntityId, e: Entity, block: nat)
    requires s.world.Some? && Doomed(s.world.value, id, e, block)
    ensures var w' := TickIn(s).state.world; w'.Some? && Doomed(w'.value, id, e, block)
  {
    hide TickSystems, ReplayFrom, Orderly;
    var started := s.world.value.AdvanceTick();
    TickSystemsAge(started, s.rng.state, s.rng.seed);
    TickSystemsTrack(started, s.rng.state, s.rng.seed);
  }

  lemma {:induction false} TicksKeepDoomed(s: SimState, n: nat, id: EntityId, e: Entity, block: nat)
    requires s.world.Some? && Doomed(s.world.value, id, e, block)
    ensures var w' := TickManyIn(s, n).state.world; w'.Some? && Doomed(w'.value, id, e, block)
  {
    hide TickIn, Doomed;
    if n == 0 {
    } else {
      TicksKeepDoomed(s, n - 1, id, e, block);
      TickManyFailsAtOnce(s, n - 1);
      TickKeepsDoomed(TickManyIn(s, n - 1).state, id, e, block);
    }
  }

  lemma StepKeepsDoomed(s: SimState, cmd: SimCommand, id: EntityId, e: Entity, block: nat)
    requires s.world.Some? && Doomed(s.world.value, id, e, block) && RoomFor(s.world.value, cmd)
    ensures var w' := Step(s, cmd).state.world; w'.Some? && Doomed(w'.value, id, e, block)
  {
    hide TickIn, TickManyIn, Orderly;
    if Step(s, cmd).result.Err? {
      FailedCommandIsInvisible(s, cmd);
    } else {
      StepAges(s, cmd);
      match cmd {
        case TickOnce => TickKeepsDoomed(s, id, e, block);
        case TickN(n) => TicksKeepDoomed(s, n, id, e, block);
        case _ =>
      }
    }
  }

  lemma {:induction false} RunKeepsDoomed(s: SimState, cmds: seq<SimCommand>, id: EntityId, e: Entity, block: nat)
    requires s.world.Some? && Doomed(s.world.value, id, e, block) && Roomy(s, cmds)
    ensures var w' := Run(s, cmds).state.world; w'.Some? && Doomed(w'.value, id, e, block)
    decreases |cmds|
  {
    hide Step, Doomed;
    if cmds == [] {
    } else {
      RunPrefix(s, cmds);
      RunKeepsDoomed(s, cmds[..|cmds| - 1], id, e, block);
      StepKeepsDoomed(Run(s, cmds[..|cmds| - 1]).state, cmds[|cmds| - 1], id, e, block);
    }
  }

  /** Over any later run a dead entity stays exactly as it was while no tick divisible by 100 is
      reached; once one is, or after a hundred ticks at the latest, it is gone for good. */
  lemma DeadAreGoneWithinHundredTicks(s: SimState, cmds: seq<SimCommand>, id: EntityId)
    requires s.world.Some? && s.world.value.WellFormed() && Orderly(s.world.value.entities) && Roomy(s, cmds)
    requires id in s.world.value.entities && s.world.value.entities[id].state == Dead
    ensures Run(s, cmds).state.world.Some?
    ensures var w, w' := s.world.value, Run(s, cmds).state.world.value;
      && (id in w'.entities ==> w'.entities[id] == w.entities[id] && w'.currentTick / 100 == w.currentTick / 100)
      && (w'.currentTick >= w.currentTick + 100 ==> id !in w'.entities)
  {
    hide Run, Orderly;
    var w := s.world.value;
    RunKeepsDoomed(s, cmds, id, w.entities[id], w.currentTick / 100);
  }

  // ------------------------------------------------------------------------
  // Identity
  // ------------------------------------------------------------------------

  /** The ids of the spawn events of a log, in order. */
  function SpawnedIds(events: seq<SimEvent>): seq<EntityId>
    decreases |events|
  {
    if events == [] then [] else
    var front, last := SpawnedIds(events[..|events| - 1]), events[|events| - 1].data;
    if last.EntitySpawned? then front + [last.entityId] else front
  }

  lemma {:induction false} NoSpawnsAdded(a: seq<SimEvent>, b: seq<SimEvent>)
    requires forall e :: e in b ==> !e.data.EntitySpawned?
    ensures SpawnedIds(a + b) == SpawnedIds(a)
    decreases |b|
  {
    if b == [] {
      assert a + b == a;
    } else {
      assert (a + b)[..|a + b| - 1] == a + b[..|b| - 1];
      NoSpawnsAdded(a, b[..|b| - 1]);
    }
  }

  /** Every id issued so far is below the counter, in strictly increasing order. */
  ghost predicate Issued(ids: seq<EntityId>, next: u64) {
    StrictlyAscending(ids) && forall id :: id in ids ==> id < next
  }

  lemma {:induction false} TicksSpawnNothing(s: SimState, n: nat)
    requires s.world.Some?
    ensures var p := TickManyIn(s, n);
      && p.state.world.Some? && p.state.world.value.nextEntityId == s.world.value.nextEntityId
      && forall e :: e in p.events ==> !e.data.EntitySpawned?
  {
    hide TickSystems, ReplayFrom;
    if n == 0 {
    } else {
      TicksSpawnNothing(s, n - 1);
      TickManyFailsAtOnce(s, n - 1);
      var before := TickManyIn(s, n - 1).state;
      TickReplaysFromStart(before);
      TickSystemsTrack(before.world.value.AdvanceTick(), before.rng.state, before.rng.seed);
    }
  }

  lemma SpawnIssues(past: seq<SimEvent>, e: SimEvent, next: u64)
    requires Issued(SpawnedIds(past), next) && next < U64_MAX
    requires e.data.EntitySpawned? && e.data.entityId == next
    ensures Issued(SpawnedIds(past + [e]), WrapNext(next))
  {
    assert (past + [e])[..|past|] == past;
    var ids := SpawnedIds(past);
    assert forall i :: 0 <= i < |ids| ==> ids[i] in ids;
    assert StrictlyAscending(ids + [next]);
  }

  lemma StepIssues(s: SimState, cmd: SimCommand, past: seq<SimEvent>)
    requires s.world.Some? && RoomFor(s.world.value, cmd) && Step(s, cmd).result.Ok?
    requires Issued(SpawnedIds(past), s.world.value.nextEntityId)
    ensures var out := Step(s, cmd);
      out.state.world.Some? && Issued(SpawnedIds(past + out.result.value), out.state.world.value.nextEntityId)
  {
    hide TickManyIn, TickSystems;
    var events := Step(s, cmd).result.value;
    match cmd {
      case TickOnce =>
        OneTick(s);
        TicksSpawnNothing(s, 1);
        NoSpawnsAdded(past, events);
      case TickN(n) =>
        TickManyFailsAtOnce(s, n);
        TicksSpawnNothing(s, n);
        NoSpawnsAdded(past, events);
      case SpawnEntity(_, _, _) =>
        SpawnIssues(past, events[0], s.world.value.nextEntityId);
        assert events == [events[0]];
      case _ =>
        NoSpawnsAdded(past, events);
    }
  }

  lemma OneTick(s: SimState)
    ensures TickManyIn(s, 1) == TickIn(s)
  {
    hide TickSystems;
    assert TickManyIn(s, 0) == Progress(s, [], None);
    assert [] + TickIn(s).events == TickIn(s).events;
  }

  /** Entity ids in the spawn events of any run from nothing are strictly increasing: no id is
      reused, not even after its entity is gone. */
  lemma {:induction false} SpawnIdsNeverReused(s: SimState, cmds: seq<SimCommand>)
    requires s.world.None? && Roomy(s, cmds)
    ensures var past := Run(s, cmds);
      Issued(SpawnedIds(past.events),
             if past.state.world.Some? then past.state.world.value.nextEntityId else 0)
    decreases |cmds|
  {
    hide Step, Issued;
    if cmds == [] {
      NothingIssued();
    } else {
      var front, cmd := cmds[..|cmds| - 1], cmds[|cmds| - 1];
      RunPrefix(s, cmds);
      SpawnIdsNeverReused(s, front);
      var before := Run(s, front);
      var out := Step(before.state, cmd);
      if out.result.Err? {
        FailedCommandIsInvisible(before.state, cmd);
        assert before.events + [] == before.events;
      } else if before.state.world.Some? {
        StepIssues(before.state, cmd, before.events);
      } else {
        CreationIssuesNothing(s, front, cmd);
      }
    }
  }

  lemma NothingIssued()
    ensures Issued(SpawnedIds([]), 0)
  {
  }

  lemma CreationIssuesNothing(s: SimState, front: seq<SimCommand>, cmd: SimCommand)
    requires Run(s, front).state.world.None? && Issued(SpawnedIds(Run(s, front).events), 0)
    requires Step(Run(s, front).state, cmd).result.Ok?
    ensures var before := Run(s, front); var out := Step(before.state, cmd);
      out.state.world.Some? && Issued(SpawnedIds(before.events + out.result.value), out.state.world.value.nextEntityId)
  {
    hide TickManyIn, TickSystems, Run;
    var before := Run(s, front);
    if cmd.TickN? {
      TickManyFailsAtOnce(before.state, cmd.n);
    }
    NoSpawnsAdded(before.events, Step(before.state, cmd).result.value);
  }
}
