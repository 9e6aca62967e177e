/** Conservation over whole logs: what an entity was spawned with is what it still has plus
    what the log says it lost. */
module Conservation {
  import opened SyTypes
  import opened SyApi
  import opened WorldModel
  import opened Sim
  import opened Replay
  import opened LiveReplay
  import opened History

  /** What the log alone says of a living entity since its last spawn. */
  datatype Account = Account(spawned: EntityProperties, depleted: nat, degraded: nat)

  /** Post one event to the accounts. */
  function Post(books: map<EntityId, Account>, data: EventData): map<EntityId, Account> {
    match data
    case EntitySpawned(id, _, _, properties) => books[id := Account(properties, 0, 0)]
    case EntityDespawned(id, _) => books - {id}
    case ResourceDepleted(id, amount, _) =>
      if id in books then books[id := books[id].(depleted := books[id].depleted + amount)] else books
    case EntityDegraded(id, _, _) =>
      if id in books then books[id := books[id].(degraded := books[id].degraded + 1)] else books
    case _ => books
  }

  function Books(events: seq<SimEvent>): map<EntityId, Account>
    decreases |events|
  {
    if events == [] then map[] else Post(Books(events[..|events| - 1]), events[|events| - 1].data)
  }

  predicate Settles(now: Option<u32>, lost: nat, spawned: Option<u32>) {
    match spawned
    case None => now.None? && lost == 0
    case Some(n) => now.Some? && now.value + lost == n
  }

  /** The books list exactly the living entities and every account balances. */
  ghost predicate Balanced(entities: map<EntityId, Entity>, books: map<EntityId, Account>) {
    && entities.Keys == books.Keys
    && forall id :: id in entities ==> AccountSettles(entities[id], books[id])
  }

  predicate AccountSettles(e: Entity, a: Account) {
    && Settles(e.properties.amount, a.depleted, a.spawned.amount)
    && Settles(e.properties.health, a.degraded, a.spawned.health)
  }

  /** Events the books can follow: a degradation takes one point, and a property change leaves a
      counter at the value it had, after narrowing to 32 bits. */
  predicate Accountable(data: EventData) {
    match data
    case EntityDegraded(_, before, after) => before == after + 1
    case EntityPropertyChanged(_, property, before, after) =>
      property == NameProperty()
      || (before.UIntValue? && after.UIntValue? && after.u % 0x1_0000_0000 == before.u)
    case _ => true
  }

  lemma EntryKeepsBalance(entities: map<EntityId, Entity>, books: map<EntityId, Account>, id: EntityId, e: Entity,
                          a: Account)
    requires Balanced(entities, books)
    ensures Balanced(entities[id := e], books[id := a]) <==> AccountSettles(e, a)
  {
    if Balanced(entities[id := e], books[id := a]) {
      assert id in entities[id := e] && entities[id := e][id] == e;
    }
  }

  lemma RemovalKeepsBalance(entities: map<EntityId, Entity>, books: map<EntityId, Account>, id: EntityId)
    requires Balanced(entities, books)
    ensures Balanced(entities - {id}, books - {id})
  {
  }

  lemma AccountAt(entities: map<EntityId, Entity>, books: map<EntityId, Account>, id: EntityId)
    requires Balanced(entities, books) && id in entities
    ensures id in books && AccountSettles(entities[id], books[id])
    ensures entities[id := entities[id]] == entities && books[id := books[id]] == books
  {
  }

  /** An accepted property change keeps an account exactly when it is accountable. */
  lemma PropertyChangeSettles(e: Entity, a: Account, property: Text, before: PropertyValue, after: PropertyValue)
    requires AccountSettles(e, a) && PropertyOf(e, property) == Ok(before) && WithProperty(e, property, after).Ok?
    ensures AccountSettles(WithProperty(e, property, after).value, a)
       <==> property == NameProperty()
            || (before.UIntValue? && after.UIntValue? && after.u % 0x1_0000_0000 == before.u)
  {
    hide NameProperty, AmountProperty, HealthProperty;
  }

  /** An accepted event keeps every account balanced exactly when it is accountable. */
  lemma PostKeepsBalance(w: WorldState, tick: Tick, data: EventData, books: map<EntityId, Account>)
    requires Balanced(w.entities, books)
    requires ApplyData(w, tick, data).Ok?
    ensures Balanced(ApplyData(w, tick, data).value.entities, Post(books, data)) <==> Accountable(data)
  {
    hide Balanced, PropertyOf, WithProperty, NameProperty;
    var entities' := ApplyData(w, tick, data).value.entities;
    match data {
      case EntitySpawned(id, _, _, properties) =>
        assert entities' == w.entities[id := entities'[id]];
        EntryKeepsBalance(w.entities, books, id, entities'[id], Account(properties, 0, 0));
      case EntityDespawned(id, _) => RemovalKeepsBalance(w.entities, books, id);
      case ResourceDepleted(id, amount, _) =>
        AccountAt(w.entities, books, id);
        EntryKeepsBalance(w.entities, books, id, entities'[id], books[id].(depleted := books[id].depleted + amount));
      case EntityDegraded(id, _, _) =>
        AccountAt(w.entities, books, id);
        EntryKeepsBalance(w.entities, books, id, entities'[id], books[id].(degraded := books[id].degraded + 1));
      case EntityMoved(id, _, _) =>
        AccountAt(w.entities, books, id);
        EntryKeepsBalance(w.entities, books, id, entities'[id], books[id]);
      case EntityStateChanged(id, _, _) =>
        AccountAt(w.entities, books, id);
        EntryKeepsBalance(w.entities, books, id, entities'[id], books[id]);
      case EntityPropertyChanged(id, property, before, after) =>
        AccountAt(w.entities, books, id);
        PropertyChangeSettles(w.entities[id], books[id], property, before, after);
        EntryKeepsBalance(w.entities, books, id, entities'[id], books[id]);
      case _ =>
    }
  }

  /** Any accepted replay of accountable events keeps every account balanced. */
  lemma {:induction false} ReplayConserves(w: WorldState, events: seq<SimEvent>, past: seq<SimEvent>, w': WorldState)
    requires Balanced(w.entities, Books(past)) && Replays(w, events, w')
    requires forall e :: e in events ==> Accountable(e.data)
    ensures Balanced(w'.entities, Books(past + events))
    decreases |events|
  {
    hide ApplyData, Balanced, Accountable;
    if events == [] {
      assert past + events == past;
    } else {
      var e := events[0];
      PostKeepsBalance(CatchUp(w, e), e.tick, e.data, Books(past));
      assert (past + [e])[..|past|] == past;
      ReplayConserves(ApplyEvent(w, e).value, events[1..], past + [e], w');
      assert past + [e] + events[1..] == past + events;
    }
  }

  /** Every event a live command emits is accountable. */
  lemma {:induction false} TicksAreAccountable(s: SimState, n: nat)
    requires s.world.Some?
    ensures forall e :: e in TickManyIn(s, n).events ==> Accountable(e.data)
  {
    hide TickIn, ReplayFrom;
    if n == 0 {
    } else {
      TicksAreAccountable(s, n - 1);
      TickManyFailsAtOnce(s, n - 1);
      TickReplaysFromStart(TickManyIn(s, n - 1).state);
    }
  }

  lemma StepIsAccountable(s: SimState, cmd: SimCommand)
    ensures forall e :: e in EventsOf(Step(s, cmd)) ==> Accountable(e.data)
  {
    hide TickIn, TickManyIn, ReplayFrom;
    match cmd {
      case TickOnce =>
        OneTickIsMany(s);
        if s.world.Some? {
          TicksAreAccountable(s, 1);
        }
      case TickN(n) =>
        TickManyFailsAtOnce(s, n);
        if s.world.Some? {
          TicksAreAccountable(s, n);
        }
      case _ =>
    }
  }

  lemma OneTickIsMany(s: SimState)
    ensures s.world.None? ==> TickIn(s).error.Some?
    ensures TickManyIn(s, 1).events == TickIn(s).events
  {
    hide TickSystems;
    assert TickManyIn(s, 0) == Progress(s, [], None);
  }

  /** Main result: in every run from nothing, for every living entity, the amount it was spawned
      with is its current amount plus everything its `ResourceDepleted` events took, and its
      spawn health is its current health plus the number of its `EntityDegraded` events. */
  lemma {:induction false} RunConserves(s: SimState, cmds: seq<SimCommand>)
    requires s.world.None? && Roomy(s, cmds)
    ensures var past := Run(s, cmds);
      if past.state.world.None? then past.events == []
      else Balanced(past.state.world.value.entities, Books(past.events))
    decreases |cmds|
  {
    hide Step, ReplayFrom, Balanced, Books, Accountable;
    if cmds == [] {
    } else {
      var front, cmd := cmds[..|cmds| - 1], cmds[|cmds| - 1];
      RunPrefix(s, cmds);
      RunConserves(s, front);
      RunKeepsSound(s, front);
      var before := Run(s, front);
      var out := Step(before.state, cmd);
      if out.result.Err? {
        FailedCommandIsInvisible(before.state, cmd);
        assert before.events + [] == before.events;
      } else if before.state.world.Some? {
        LiveReplayAgrees(before.state, cmd);
        StepIsAccountable(before.state, cmd);
        ReplayConserves(before.state.world.value, out.result.value, before.events, out.state.world.value);
      } else {
        CreationBalances(before.state, cmd);
        assert [] + out.result.value == out.result.value;
      }
    }
  }

  lemma CreationBalances(s: SimState, cmd: SimCommand)
    requires s.world.None? && Step(s, cmd).result.Ok?
    ensures Step(s, cmd).state.world.Some?
    ensures Balanced(Step(s, cmd).state.world.value.entities, Books(Step(s, cmd).result.value))
  {
    hide TickManyIn;
    if cmd.TickN? {
      TickManyFailsAtOnce(s, cmd.n);
    }
    var events := Step(s, cmd).result.value;
    assert events[..1][..0] == [];
    assert Books(events[..0]) == map[];
    assert Books(events[..1]) == map[];
  }
}
