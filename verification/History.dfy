/** Whole runs: folding commands over a simulation, what every run keeps, and why a restart,
    the injected generator and clock, and the batching of ticks are all invisible. */
module History {
  import opened SyTypes
  import opened SyApi
  import opened Pcg32
  import opened WorldModel
  import opened Sim
  import opened Replay
  import opened LiveReplay

  /** A simulation with no world, before anything has been run. */
  const BLANK := SimState(None, RngState(0, 0), 0)

  /** The state after a run and the events of its accepted commands. */
  datatype Past = Past(state: SimState, events: seq<SimEvent>)

  function EventsOf(out: Outcome): seq<SimEvent> {
    if out.result.Ok? then out.result.value else []
  }

  function Run(s: SimState, cmds: seq<SimCommand>): Past
    decreases |cmds|
  {
    if cmds == [] then Past(s, []) else
    var before := Run(s, cmds[..|cmds| - 1]);
    var out := Step(before.state, cmds[|cmds| - 1]);
    Past(out.state, before.events + EventsOf(out))
  }

  /** The entity counter never reaches the top of its range during the run. */
  ghost predicate Roomy(s: SimState, cmds: seq<SimCommand>) {
    forall i :: 0 <= i < |cmds| ==> RoomIn(Run(s, cmds[..i]).state, cmds[i])
  }

  ghost predicate RoomIn(s: SimState, cmd: SimCommand) {
    s.world.Some? ==> RoomFor(s.world.value, cmd)
  }

  lemma RunPrefix(s: SimState, cmds: seq<SimCommand>)
    requires cmds != [] && Roomy(s, cmds)
    ensures Roomy(s, cmds[..|cmds| - 1])
    ensures RoomIn(Run(s, cmds[..|cmds| - 1]).state, cmds[|cmds| - 1])
  {
    var front := cmds[..|cmds| - 1];
    forall i | 0 <= i < |front|
      ensures RoomIn(Run(s, front[..i]).state, front[i])
    {
      assert front[..i] == cmds[..i];
    }
  }

  // ------------------------------------------------------------------------
  // What every command keeps
  // ------------------------------------------------------------------------

  /** Command-boundary invariant: a well-formed world, mirrored by generator and clock. */
  ghost predicate Sound(s: SimState) {
    s.Synced() && (s.world.Some? ==> s.world.value.WellFormed())
  }

  lemma TickKeepsSynced(s: SimState)
    requires s.world.Some? && s.Synced()
    ensures TickIn(s).state.Synced()
  {
    hide TickSystems, ReplayFrom;
    TickSystemsTrack(s.world.value.AdvanceTick(), s.rng.state, s.rng.seed);
  }

  lemma {:induction false} TickManyKeepsSynced(s: SimState, n: nat)
    requires s.world.Some? && s.Synced()
    ensures TickManyIn(s, n).state.Synced()
  {
    hide TickIn;
    if n == 0 {
    } else {
      TickManyKeepsSynced(s, n - 1);
      TickManyFailsAtOnce(s, n - 1);
      TickKeepsSynced(TickManyIn(s, n - 1).state);
    }
  }

  lemma StepKeepsSound(s: SimState, cmd: SimCommand)
    requires Sound(s) && RoomIn(s, cmd)
    ensures Sound(Step(s, cmd).state)
  {
    hide TickIn, TickManyIn, ReplayFrom;
    if Step(s, cmd).result.Err? {
      FailedCommandIsInvisible(s, cmd);
    } else if s.world.Some? {
      LiveReplayAgrees(s, cmd);
      match cmd {
        case TickOnce => TickKeepsSynced(s);
        case TickN(n) => TickManyKeepsSynced(s, n);
        case _ =>
      }
    } else {
      FirstStepKeepsSound(s, cmd);
    }
  }

  lemma FirstStepKeepsSound(s: SimState, cmd: SimCommand)
    requires s.world.None? && Step(s, cmd).result.Ok?
    ensures Sound(Step(s, cmd).state)
  {
    hide TickManyIn, TickSystems;
    if cmd.TickN? {
      TickManyFailsAtOnce(s, cmd.n);
    }
  }

  /** Every run from a sound state ends in one. */
  lemma {:induction false} RunKeepsSound(s: SimState, cmds: seq<SimCommand>)
    requires Sound(s) && Roomy(s, cmds)
    ensures Sound(Run(s, cmds).state)
    decreases |cmds|
  {
    hide Step, Sound;
    if cmds == [] {
    } else {
      RunPrefix(s, cmds);
      RunKeepsSound(s, cmds[..|cmds| - 1]);
      StepKeepsSound(Run(s, cmds[..|cmds| - 1]).state, cmds[|cmds| - 1]);
    }
  }

  /** Whole runs replay: from any sound world, the events of any command sequence rebuild the
      world it ends in. */
  lemma {:induction false} RunReplays(s: SimState, cmds: seq<SimCommand>)
    requires Sound(s) && s.world.Some? && Roomy(s, cmds)
    ensures var past := Run(s, cmds);
      past.state.world.Some? && Replays(s.world.value, past.events, past.state.world.value)
    decreases |cmds|
  {
    hide Step, ReplayFrom;
    if cmds == [] {
      NoEventsReplay(s.world.value);
    } else {
      var front, cmd := cmds[..|cmds| - 1], cmds[|cmds| - 1];
      RunPrefix(s, cmds);
      RunReplays(s, front);
      RunKeepsSound(s, front);
      var before := Run(s, front);
      var out := Step(before.state, cmd);
      if out.result.Ok? {
        LiveReplayAgrees(before.state, cmd);
        ReplayConcat(s.world.value, before.events, before.state.world.value, out.result.value, out.state.world.value);
      } else {
        FailedCommandIsInvisible(before.state, cmd);
        assert before.events + [] == before.events;
      }
    }
  }

  // ------------------------------------------------------------------------
  // The recovery cursor is invisible
  // ------------------------------------------------------------------------

  function Moved(s: SimState, tick: Tick, id: EventId): SimState {
    if s.world.Some? then s.(world := Some(s.world.value.WithCursor(tick, id))) else s
  }

  function MovedRun(run: TickRun, tick: Tick, id: EventId): TickRun {
    run.(world := run.world.WithCursor(tick, id))
  }

  lemma ProcessEntityIgnoresCursor(run: TickRun, seed: RngSeed, e: EntityId, tick: Tick, id: EventId)
    ensures ProcessEntity(MovedRun(run, tick, id), seed, e) == MovedRun(ProcessEntity(run, seed, e), tick, id)
  {
    hide Advance, Chance;
  }

  lemma {:induction false} ProcessAllIgnoresCursor(run: TickRun, seed: RngSeed, ids: seq<EntityId>, tick: Tick,
                                                   id: EventId)
    ensures ProcessAll(MovedRun(run, tick, id), seed, ids) == MovedRun(ProcessAll(run, seed, ids), tick, id)
    decreases |ids|
  {
    hide ProcessEntity;
    if ids == [] {
    } else {
      var front := ids[..|ids| - 1];
      ProcessAllIgnoresCursor(run, seed, front, tick, id);
      ProcessEntityIgnoresCursor(ProcessAll(run, seed, front), seed, ids[|ids| - 1], tick, id);
    }
  }

  lemma {:induction false} BuryIgnoresCursor(run: TickRun, ids: seq<EntityId>, tick: Tick, id: EventId)
    ensures Bury(MovedRun(run, tick, id), ids) == MovedRun(Bury(run, ids), tick, id)
    decreases |ids|
  {
    if ids == [] {
    } else {
      BuryIgnoresCursor(run, ids[..|ids| - 1], tick, id);
    }
  }

  lemma TickSystemsIgnoreCursor(w: WorldState, rng: u64, seed: RngSeed, tick: Tick, id: EventId)
    ensures TickSystems(w.WithCursor(tick, id), rng, seed) == MovedRun(TickSystems(w, rng, seed), tick, id)
  {
    hide ProcessAll, Bury, IdsIn;
    var ids := IdsByState(w, Active);
    ProcessAllIgnoresCursor(TickRun(w, rng, [], 0), seed, ids, tick, id);
    var run := ProcessAll(TickRun(w, rng, [], 0), seed, ids);
    BuryIgnoresCursor(run, IdsByState(run.world, Dead), tick, id);
  }

  lemma TickIgnoresCursor(s: SimState, tick: Tick, id: EventId)
    ensures TickIn(Moved(s, tick, id)) == var p := TickIn(s); p.(state := Moved(p.state, tick, id))
  {
    hide TickSystems;
    if s.world.Some? {
      var started := s.world.value.AdvanceTick();
      assert s.world.value.WithCursor(tick, id).AdvanceTick() == started.WithCursor(tick, id);
      TickSystemsIgnoreCursor(started, s.rng.state, s.rng.seed, tick, id);
    }
  }

  lemma {:induction false} TickManyIgnoresCursor(s: SimState, n: nat, tick: Tick, id: EventId)
    ensures TickManyIn(Moved(s, tick, id), n) == var p := TickManyIn(s, n); p.(state := Moved(p.state, tick, id))
  {
    hide TickIn;
    if n == 0 {
    } else {
      TickManyIgnoresCursor(s, n - 1, tick, id);
      TickIgnoresCursor(TickManyIn(s, n - 1).state, tick, id);
    }
  }

  /** A command neither reads nor writes the cursor of a loaded world. */
  lemma StepIgnoresCursor(s: SimState, cmd: SimCommand, tick: Tick, id: EventId)
    requires s.world.Some?
    ensures Step(Moved(s, tick, id), cmd) == var out := Step(s, cmd); out.(state := Moved(out.state, tick, id))
  {
    hide TickIn, TickManyIn;
    TickIgnoresCursor(s, tick, id);
    if cmd.TickN? {
      TickManyIgnoresCursor(s, cmd.n, tick, id);
    }
  }

  lemma StepKeepsWorldLoaded(s: SimState, cmd: SimCommand)
    requires s.world.Some?
    ensures Step(s, cmd).state.world.Some?
  {
    hide TickSystems, TickManyIn;
    if cmd.TickN? {
      TickManyFailsAtOnce(s, cmd.n);
    }
  }

  /** Results of a run, command by command. */
  function Results(s: SimState, cmds: seq<SimCommand>): seq<Result<seq<SimEvent>, ApiError>>
    decreases |cmds|
  {
    if cmds == [] then [] else
    Results(s, cmds[..|cmds| - 1]) + [Step(Run(s, cmds[..|cmds| - 1]).state, cmds[|cmds| - 1]).result]
  }

  lemma {:induction false} RunIgnoresCursor(s: SimState, cmds: seq<SimCommand>, tick: Tick, id: EventId)
    requires s.world.Some?
    ensures Run(s, cmds).state.world.Some?
    ensures Run(Moved(s, tick, id), cmds) == Past(Moved(Run(s, cmds).state, tick, id), Run(s, cmds).events)
    ensures Results(Moved(s, tick, id), cmds) == Results(s, cmds)
    decreases |cmds|
  {
    hide Step;
    if cmds == [] {
    } else {
      var front := cmds[..|cmds| - 1];
      RunIgnoresCursor(s, front, tick, id);
      StepIgnoresCursor(Run(s, front).state, cmds[|cmds| - 1], tick, id);
      StepKeepsWorldLoaded(Run(s, front).state, cmds[|cmds| - 1]);
    }
  }

  /** Two worlds that differ at most in the recovery cursor. */
  predicate SameUpToCursor(a: WorldState, b: WorldState) {
    a.WithCursor(0, 0) == b.WithCursor(0, 0)
  }

  /** Restart transparency: two synced simulations whose worlds agree up to the cursor give the
      same results, the same events and worlds that agree up to the cursor, for every future. */
  lemma RestartIsTransparent(a: SimState, b: SimState, cmds: seq<SimCommand>)
    requires a.world.Some? && b.world.Some? && a.Synced() && b.Synced()
    requires SameUpToCursor(a.world.value, b.world.value)
    ensures Results(a, cmds) == Results(b, cmds)
    ensures Run(a, cmds).events == Run(b, cmds).events
    ensures var wa, wb := Run(a, cmds).state.world, Run(b, cmds).state.world;
      wa.Some? && wb.Some? && SameUpToCursor(wa.value, wb.value)
    ensures Run(a, cmds).state.rng == Run(b, cmds).state.rng && Run(a, cmds).state.clock == Run(b, cmds).state.clock
  {
    hide Step;
    assert Moved(a, 0, 0) == Moved(b, 0, 0);
    RunIgnoresCursor(a, cmds, 0, 0);
    RunIgnoresCursor(b, cmds, 0, 0);
  }

  function MovedResult(r: Result<WorldState, ReplayError>, tick: Tick, id: EventId): Result<WorldState, ReplayError> {
    if r.Ok? then Ok(r.value.WithCursor(tick, id)) else r
  }

  lemma SpawnIgnoresCursor(w: WorldState, at: Tick, e: EntityId, kind: EntityKind, position: WorldPos,
                           properties: EntityProperties, tick: Tick, id: EventId)
    ensures ApplySpawn(w.WithCursor(tick, id), at, e, kind, position, properties)
         == MovedResult(ApplySpawn(w, at, e, kind, position, properties), tick, id)
  {
    hide WrapNext;
  }

  lemma MoveIgnoresCursor(w: WorldState, e: EntityId, from: WorldPos, to: WorldPos, tick: Tick, id: EventId)
    ensures ApplyMove(w.WithCursor(tick, id), e, from, to) == MovedResult(ApplyMove(w, e, from, to), tick, id)
  {
  }

  lemma LossIgnoresCursor(w: WorldState, e: EntityId, a: u32, b: u32, tick: Tick, id: EventId)
    ensures ApplyDepletion(w.WithCursor(tick, id), e, a, b) == MovedResult(ApplyDepletion(w, e, a, b), tick, id)
    ensures ApplyDegradation(w.WithCursor(tick, id), e, a, b) == MovedResult(ApplyDegradation(w, e, a, b), tick, id)
  {
  }

  lemma ApplyDataIgnoresCursor(w: WorldState, at: Tick, data: EventData, tick: Tick, id: EventId)
    ensures ApplyData(w.WithCursor(tick, id), at, data) == MovedResult(ApplyData(w, at, data), tick, id)
  {
    hide PropertyOf, WithProperty, ApplySpawn, ApplyMove, ApplyDepletion, ApplyDegradation;
    match data {
      case EntitySpawned(e, kind, position, properties) =>
        SpawnIgnoresCursor(w, at, e, kind, position, properties, tick, id);
      case EntityMoved(e, from, to) => MoveIgnoresCursor(w, e, from, to, tick, id);
      case ResourceDepleted(e, amount, left) => LossIgnoresCursor(w, e, amount, left, tick, id);
      case EntityDegraded(e, before, after) => LossIgnoresCursor(w, e, before, after, tick, id);
      case _ =>
    }
  }

  /** Replay does not look at the cursor either. */
  lemma ApplyIgnoresCursor(w: WorldState, e: SimEvent, tick: Tick, id: EventId)
    ensures ApplyEvent(w.WithCursor(tick, id), e) == MovedResult(ApplyEvent(w, e), tick, id)
  {
    hide ApplyData;
    assert CatchUp(w.WithCursor(tick, id), e) == CatchUp(w, e).WithCursor(tick, id);
    ApplyDataIgnoresCursor(CatchUp(w, e), e.tick, e.data, tick, id);
  }

  lemma {:induction false} ReplayIgnoresCursor(w: WorldState, events: seq<SimEvent>, tick: Tick, id: EventId)
    ensures var run := ReplayFrom(w, events);
      ReplayFrom(w.WithCursor(tick, id), events) == run.(world := run.world.WithCursor(tick, id))
    decreases |events|
  {
    hide ApplyEvent;
    if events == [] {
    } else {
      ApplyIgnoresCursor(w, events[0], tick, id);
      if ApplyEvent(w, events[0]).Ok? {
        ReplayIgnoresCursor(ApplyEvent(w, events[0]).value, events[1..], tick, id);
      }
    }
  }

  // ------------------------------------------------------------------------
  // Determinism and batching
  // ------------------------------------------------------------------------

  lemma StepWithoutWorld(a: SimState, b: SimState, cmd: SimCommand)
    requires a.world.None? && b.world.None?
    ensures Step(a, cmd).result == Step(b, cmd).result
    ensures if Step(a, cmd).state.world.None?
      then Step(a, cmd).state == a && Step(b, cmd).state == b
      else Step(a, cmd).state == Step(b, cmd).state
  {
    hide TickManyIn;
    if cmd.TickN? {
      TickManyFailsAtOnce(a, cmd.n);
      TickManyFailsAtOnce(b, cmd.n);
    }
  }

  /** A run depends on nothing but its commands: whatever generator and clock are injected, the
      results are the same, and once a world exists so is the whole state. */
  lemma {:induction false} RunDependsOnCommandsOnly(a: SimState, b: SimState, cmds: seq<SimCommand>)
    requires a.world.None? && b.world.None?
    ensures Results(a, cmds) == Results(b, cmds) && Run(a, cmds).events == Run(b, cmds).events
    ensures var sa, sb := Run(a, cmds).state, Run(b, cmds).state;
      if sa.world.None? then sa == a && sb == b else sa == sb
    decreases |cmds|
  {
    hide Step;
    if cmds == [] {
    } else {
      var front := cmds[..|cmds| - 1];
      RunDependsOnCommandsOnly(a, b, front);
      if Run(a, front).state.world.None? {
        StepWithoutWorld(a, b, cmds[|cmds| - 1]);
      } else {
        StepKeepsWorldLoaded(Run(a, front).state, cmds[|cmds| - 1]);
      }
    }
  }

  /** `n` single ticks. */
  function Ticks(n: nat): (cmds: seq<SimCommand>)
    ensures |cmds| == n
  {
    seq(n, _ => TickOnce)
  }

  lemma {:induction false} TicksRunAsMany(s: SimState, n: nat)
    ensures var p := TickManyIn(s, n);
      s.world.Some? ==> Run(s, Ticks(n)) == Past(p.state, p.events)
  {
    hide TickIn;
    if n == 0 || s.world.None? {
    } else {
      TicksRunAsMany(s, n - 1);
      TickManyFailsAtOnce(s, n - 1);
      TickManyFailsAtOnce(s, n);
      assert Ticks(n)[..n - 1] == Ticks(n - 1);
    }
  }

  /** `TickN(n)` is `n` single ticks: same state, and the concatenation of their events. */
  lemma BatchedTicksAreTicks(s: SimState, n: u32)
    requires s.world.Some? && CommandValid(TickN(n))
    ensures var out := Step(s, TickN(n));
      out.result.Ok? && Run(s, Ticks(n)) == Past(out.state, out.result.value)
  {
    hide TickIn;
    TicksRunAsMany(s, n);
    TickManyFailsAtOnce(s, n);
  }
}
