/** The deterministic runner: a schedule of commands between ticks, and canonical hashes at
    checkpoints. */
module Schedule {
  import opened SyTypes
  import opened SyApi
  import opened Pcg32
  import opened WorldModel
  import opened Sim
  import opened History
  import opened CanonicalHash

  datatype Scheduled = Scheduled(tick: Tick, command: SimCommand)

  datatype RunConfig =
    RunConfig(seed: RngSeed, worldName: Text, inputs: seq<Scheduled>, totalTicks: u64, checkpointEvery: u64)

  datatype Checkpoint = Checkpoint(tick: Tick, hash: u64)

  datatype RunResult = RunResult(checkpoints: seq<Checkpoint>, finalTick: Tick)

  // ------------------------------------------------------------------------
  // Stable order
  // ------------------------------------------------------------------------

  /** Insert after every element that is not later. */
  function InsertStable(sorted: seq<Scheduled>, x: Scheduled): seq<Scheduled> {
    if sorted == [] || sorted[|sorted| - 1].tick <= x.tick then sorted + [x]
    else InsertStable(sorted[..|sorted| - 1], x) + [sorted[|sorted| - 1]]
  }

  /** `sort_by_key` on the tick: a stable sort. */
  function SortByTick(inputs: seq<Scheduled>): seq<Scheduled> {
    if inputs == [] then [] else InsertStable(SortByTick(inputs[..|inputs| - 1]), inputs[|inputs| - 1])
  }

  /** The commands scheduled at one tick, in the order given. */
  function AtTick(inputs: seq<Scheduled>, t: nat): seq<SimCommand> {
    if inputs == [] then [] else
    var front, last := AtTick(inputs[..|inputs| - 1], t), inputs[|inputs| - 1];
    if last.tick == t then front + [last.command] else front
  }

  /** What the runner must execute: before each tick, the inputs of that tick, in order. */
  function Agenda(inputs: seq<Scheduled>, ticks: nat): seq<SimCommand> {
    if ticks == 0 then [] else Agenda(inputs, ticks - 1) + AtTick(inputs, ticks - 1) + [TickOnce]
  }

  predicate SortedByTick(s: seq<Scheduled>) {
    forall i, j :: 0 <= i < j < |s| ==> s[i].tick <= s[j].tick
  }

  lemma AtTickSnoc(a: seq<Scheduled>, x: Scheduled, t: nat)
    ensures AtTick(a + [x], t) == if x.tick == t then AtTick(a, t) + [x.command] else AtTick(a, t)
  {
    assert (a + [x])[..|a|] == a;
  }

  lemma SortedSnoc(a: seq<Scheduled>, x: Scheduled)
    requires SortedByTick(a) && forall e :: e in a ==> e.tick <= x.tick
    ensures SortedByTick(a + [x])
  {
    assert forall i :: 0 <= i < |a| ==> a[i] in a;
  }

  lemma SortedFront(a: seq<Scheduled>)
    requires a != [] && SortedByTick(a)
    ensures SortedByTick(a[..|a| - 1]) && forall e :: e in a[..|a| - 1] ==> e.tick <= a[|a| - 1].tick
  {
  }

  lemma {:induction false} InsertKeepsSorted(sorted: seq<Scheduled>, x: Scheduled)
    requires SortedByTick(sorted)
    ensures SortedByTick(InsertStable(sorted, x))
    ensures forall e :: e in InsertStable(sorted, x) ==> e in sorted || e == x
    decreases |sorted|
  {
    hide SortedByTick;
    if sorted == [] {
      SortedSnoc([], x);
    } else {
      var front, last := sorted[..|sorted| - 1], sorted[|sorted| - 1];
      SortedFront(sorted);
      if last.tick <= x.tick {
        SortedSnoc(sorted, x);
      } else {
        InsertKeepsSorted(front, x);
        SortedSnoc(InsertStable(front, x), last);
      }
    }
  }

  /** At every tick, inserting in order is appending. */
  lemma {:induction false} InsertIsStable(sorted: seq<Scheduled>, x: Scheduled, t: nat)
    ensures AtTick(InsertStable(sorted, x), t) == AtTick(sorted + [x], t)
    decreases |sorted|
  {
    hide AtTick;
    if sorted == [] || sorted[|sorted| - 1].tick <= x.tick {
    } else {
      var front, last := sorted[..|sorted| - 1], sorted[|sorted| - 1];
      InsertIsStable(front, x, t);
      AtTickSnoc(InsertStable(front, x), last, t);
      AtTickSnoc(front, x, t);
      AtTickSnoc(front, last, t);
      AtTickSnoc(sorted, x, t);
      assert sorted == front + [last];
    }
  }

  /** The sort is stable: in tick order, and unchanged within each tick. */
  lemma {:induction false} SortIsStable(inputs: seq<Scheduled>, t: nat)
    ensures SortedByTick(SortByTick(inputs)) && AtTick(SortByTick(inputs), t) == AtTick(inputs, t)
    decreases |inputs|
  {
    hide AtTick, InsertStable;
    if inputs == [] {
    } else {
      var front, last := inputs[..|inputs| - 1], inputs[|inputs| - 1];
      SortIsStable(front, t);
      InsertKeepsSorted(SortByTick(front), last);
      InsertIsStable(SortByTick(front), last, t);
      AtTickSnoc(SortByTick(front), last, t);
      AtTickSnoc(front, last, t);
      assert inputs == front + [last];
    }
  }

  lemma {:induction false} AtTickOfOthers(a: seq<Scheduled>, t: nat)
    requires forall e :: e in a ==> e.tick != t
    ensures AtTick(a, t) == []
    decreases |a|
  {
    if a == [] {
    } else {
      AtTickOfOthers(a[..|a| - 1], t);
    }
  }

  /** Dropping later elements changes nothing at `t`. */
  lemma {:induction false} AtTickIgnoresLater(a: seq<Scheduled>, i: nat, t: nat)
    requires i <= |a| && forall j :: i <= j < |a| ==> a[j].tick > t
    ensures AtTick(a[..i], t) == AtTick(a, t)
    decreases |a|
  {
    if i == |a| {
      assert a[..i] == a;
    } else {
      var front := a[..|a| - 1];
      assert front[..i] == a[..i];
      AtTickIgnoresLater(front, i, t);
    }
  }

  /** The commands of the inputs scheduled before tick `t`. */
  function DueBefore(inputs: seq<Scheduled>, t: nat): seq<SimCommand> {
    if inputs == [] then [] else
    var front, last := DueBefore(inputs[..|inputs| - 1], t), inputs[|inputs| - 1];
    if last.tick < t then front + [last.command] else front
  }

  lemma {:induction false} DueSplits(inputs: seq<Scheduled>, t: nat)
    ensures multiset(DueBefore(inputs, t + 1)) == multiset(DueBefore(inputs, t)) + multiset(AtTick(inputs, t))
    decreases |inputs|
  {
    if inputs == [] {
    } else {
      DueSplits(inputs[..|inputs| - 1], t);
    }
  }

  lemma {:induction false} NothingDueAtStart(inputs: seq<Scheduled>)
    ensures DueBefore(inputs, 0) == []
    decreases |inputs|
  {
    if inputs == [] {
    } else {
      NothingDueAtStart(inputs[..|inputs| - 1]);
    }
  }

  /** Over `t` ticks the runner executes each input scheduled before `t` exactly once, besides the
      `t` ticks themselves, and nothing else. */
  lemma {:induction false} AgendaRunsEachDueInputOnce(inputs: seq<Scheduled>, t: nat)
    ensures multiset(Agenda(inputs, t)) == multiset(DueBefore(inputs, t)) + multiset(Ticks(t))
  {
    hide AtTick, DueBefore;
    if t == 0 {
      NothingDueAtStart(inputs);
    } else {
      AgendaRunsEachDueInputOnce(inputs, t - 1);
      DueSplits(inputs, t - 1);
      assert Ticks(t) == Ticks(t - 1) + [TickOnce];
    }
  }

  // ------------------------------------------------------------------------
  // The result as a function of the configuration
  // ------------------------------------------------------------------------

  function Script(config: RunConfig, ticks: nat): seq<SimCommand> {
    [CreateWorld(config.worldName, config.seed)] + Agenda(config.inputs, ticks)
  }

  /** The world of the ideal run after so many ticks of the schedule. */
  function WorldAfter(config: RunConfig, ticks: nat): Option<WorldState> {
    Run(BLANK, Script(config, ticks)).state.world
  }

  predicate IsCheckpoint(config: RunConfig, done: nat) {
    (config.checkpointEvery > 0 && done % config.checkpointEvery == 0) || done == config.totalTicks
  }

  function CheckpointsUpTo(config: RunConfig, digest: seq<byte> -> u64, ticks: nat): seq<Checkpoint> {
    if ticks == 0 then [] else
    var before := CheckpointsUpTo(config, digest, ticks - 1);
    var w := WorldAfter(config, ticks);
    if IsCheckpoint(config, ticks) && w.Some?
    then before + [Checkpoint(w.value.currentTick, digest(CanonicalBytes(w.value)))] else before
  }

  /** Every command of the script succeeds: the runner panics on the first that does not. */
  ghost predicate Succeeds(config: RunConfig, ticks: nat) {
    forall r :: r in Results(BLANK, Script(config, ticks)) ==> r.Ok?
  }

  /** The simulation has executed exactly `ran`, each command with success. */
  ghost predicate Executed(sim: SimState, start: SimState, ran: seq<SimCommand>) {
    && Run(start, ran).state == sim
    && (forall r :: r in Results(start, ran) ==> r.Ok?)
  }

  lemma RunSnoc(s: SimState, ran: seq<SimCommand>, cmd: SimCommand)
    ensures Run(s, ran + [cmd]).state == Step(Run(s, ran).state, cmd).state
    ensures Results(s, ran + [cmd]) == Results(s, ran) + [Step(Run(s, ran).state, cmd).result]
  {
    hide Step;
    assert (ran + [cmd])[..|ran|] == ran;
  }

  lemma ExecutedNext(sim: SimState, start: SimState, ran: seq<SimCommand>, cmd: SimCommand)
    requires Executed(sim, start, ran)
    ensures Step(sim, cmd).result.Ok? ==> Executed(Step(sim, cmd).state, start, ran + [cmd])
    ensures Step(sim, cmd).result in Results(start, ran + [cmd])
  {
    hide Step, Run, Results;
    RunSnoc(start, ran, cmd);
    var out := Step(sim, cmd).result;
    InSnoc(Results(start, ran), out);
  }

  lemma InSnoc<T>(a: seq<T>, x: T)
    ensures x in a + [x] && forall y :: y in a + [x] ==> y in a || y == x
  {
    assert (a + [x])[|a|] == x;
  }

  lemma {:induction false} ResultsExtend(s: SimState, a: seq<SimCommand>, b: seq<SimCommand>)
    ensures Results(s, a) <= Results(s, a + b)
    decreases |b|
  {
    hide Step;
    if b == [] {
      assert a + b == a;
    } else {
      assert (a + b)[..|a + b| - 1] == a + b[..|b| - 1];
      ResultsExtend(s, a, b[..|b| - 1]);
    }
  }

  lemma {:induction false} AgendaPrefix(inputs: seq<Scheduled>, t: nat, total: nat)
    requires t <= total
    ensures Agenda(inputs, t) <= Agenda(inputs, total)
    decreases total
  {
    hide AtTick;
    if t == total {
    } else {
      AgendaPrefix(inputs, t, total - 1);
    }
  }

  /** The inputs of a tick, as the loop consumes them: a prefix of the agenda at every point. */
  lemma ConsumedIsPrefix(config: RunConfig, t: nat, done: seq<SimCommand>)
    requires t < config.totalTicks && done <= AtTick(config.inputs, t) + [TickOnce]
    ensures Script(config, t) + done <= Script(config, config.totalTicks)
  {
    hide AtTick;
    AgendaPrefix(config.inputs, t + 1, config.totalTicks);
    assert Agenda(config.inputs, t + 1) == Agenda(config.inputs, t) + (AtTick(config.inputs, t) + [TickOnce]);
    assert Agenda(config.inputs, t) + done <= Agenda(config.inputs, t + 1);
  }

  lemma {:induction false} AtTickPrefix(sorted: seq<Scheduled>, i: nat, t: nat)
    requires i <= |sorted|
    ensures AtTick(sorted[..i], t) <= AtTick(sorted, t)
    decreases |sorted|
  {
    if i == |sorted| {
      assert sorted[..i] == sorted;
    } else {
      assert sorted[..|sorted| - 1][..i] == sorted[..i];
      AtTickPrefix(sorted[..|sorted| - 1], i, t);
    }
  }

  lemma ScriptStep(config: RunConfig, t: nat)
    ensures Script(config, t + 1) == Script(config, t) + AtTick(config.inputs, t) + [TickOnce]
  {
    hide AtTick;
  }

  /** Executed scripts reach the ideal world, whatever generator and clock were injected. */
  lemma ExecutedReachesIdeal(config: RunConfig, sim: SimState, start: SimState, t: nat)
    requires start.world.None? && Executed(sim, start, Script(config, t))
    ensures sim.world == WorldAfter(config, t) && sim.world.Some?
  {
    hide Step;
    RunDependsOnCommandsOnly(start, BLANK, Script(config, t));
    hide Run, Results;
    FirstCreates(config, start, t);
  }

  lemma FirstCreates(config: RunConfig, start: SimState, t: nat)
    requires start.world.None? && forall r :: r in Results(start, Script(config, t)) ==> r.Ok?
    ensures Run(start, Script(config, t)).state.world.Some?
  {
    hide Step, Agenda;
    var create := CreateWorld(config.worldName, config.seed);
    ResultsExtend(start, [create], Agenda(config.inputs, t));
    var rest := Agenda(config.inputs, t);
    assert [] + [create] == [create];
    RunSnoc(start, [], create);
    assert Results(start, [create])[0] == Step(start, create).result;
    assert Step(start, create).result in Results(start, Script(config, t));
    CreateLoads(start, create);
    RunFrom(start, [create], rest);
  }

  lemma CreateLoads(s: SimState, cmd: SimCommand)
    requires cmd.CreateWorld? && Step(s, cmd).result.Ok?
    ensures Step(s, cmd).state.world.Some?
  {
  }

  lemma {:induction false} RunFrom(s: SimState, a: seq<SimCommand>, b: seq<SimCommand>)
    requires Run(s, a).state.world.Some?
    ensures Run(s, a + b).state.world.Some?
    decreases |b|
  {
    hide Step;
    if b == [] {
      assert a + b == a;
    } else {
      var front := b[..|b| - 1];
      assert (a + b)[..|a + b| - 1] == a + front;
      RunFrom(s, a, front);
      StepKeepsWorldLoaded(Run(s, a + front).state, b[|b| - 1]);
    }
  }

  /** A failure at any point of the script is a failure of the script. */
  lemma FailureSpoils(config: RunConfig, start: SimState, ran: seq<SimCommand>, cmd: SimCommand, sim: SimState)
    requires start.world.None? && Executed(sim, start, ran) && Step(sim, cmd).result.Err?
    requires ran + [cmd] <= Script(config, config.totalTicks)
    ensures !Succeeds(config, config.totalTicks)
  {
    hide Run, Results, Script, Step;
    ExecutedNext(sim, start, ran, cmd);
    RunDependsOnCommandsOnly(BLANK, start, ran + [cmd]);
    var all := Script(config, config.totalTicks);
    assert all == ran + [cmd] + all[|ran + [cmd]|..];
    ResultsExtend(BLANK, ran + [cmd], all[|ran + [cmd]|..]);
    assert Step(sim, cmd).result in Results(BLANK, all);
  }

  /** The same inside tick `t`, after the commands `done` of that tick. */
  lemma TickFailureSpoils(config: RunConfig, start: SimState, t: nat, done: seq<SimCommand>, cmd: SimCommand,
                          sim: SimState)
    requires start.world.None? && Executed(sim, start, Script(config, t) + done) && Step(sim, cmd).result.Err?
    requires t < config.totalTicks && done + [cmd] <= AtTick(config.inputs, t) + [TickOnce]
    ensures !Succeeds(config, config.totalTicks)
  {
    hide Run, Results, Script, Step, AtTick, Executed, Succeeds;
    ConsumedIsPrefix(config, t, done + [cmd]);
    assert Script(config, t) + (done + [cmd]) == Script(config, t) + done + [cmd];
    FailureSpoils(config, start, Script(config, t) + done, cmd, sim);
  }

  lemma StartsExecuted(config: RunConfig, start: SimState)
    requires start.world.None?
    ensures var out := Step(start, CreateWorld(config.worldName, config.seed));
      if out.result.Ok? then Executed(out.state, start, Script(config, 0)) else !Succeeds(config, config.totalTicks)
  {
    hide Step;
    var create := CreateWorld(config.worldName, config.seed);
    assert Executed(start, start, []);
    ExecutedNext(start, start, [], create);
    assert [] + [create] == [create];
    assert Script(config, 0) == [create];
    if Step(start, create).result.Err? {
      FailureSpoils(config, start, [], create, start);
    }
  }

  lemma EndSucceeds(config: RunConfig, sim: SimState, start: SimState)
    requires start.world.None? && Executed(sim, start, Script(config, config.totalTicks))
    ensures Succeeds(config, config.totalTicks)
  {
    hide Run, Results, Script;
    RunDependsOnCommandsOnly(BLANK, start, Script(config, config.totalTicks));
  }

  // ------------------------------------------------------------------------
  // The runner
  // ------------------------------------------------------------------------

  /** The inner loop: run the inputs due at tick `t`, from position `from` of the sorted list. */
  method RunInputs(sim: Simulation, config: RunConfig, inputs: seq<Scheduled>, from: nat, t: nat, ghost start: SimState)
    returns (next: nat, ok: bool)
    requires sim.Valid() && start.world.None? && t < config.totalTicks
    requires inputs == SortByTick(config.inputs) && from <= |inputs|
    requires forall j :: 0 <= j < from ==> inputs[j].tick < t
    requires forall j :: from <= j < |inputs| ==> inputs[j].tick >= t
    requires Executed(sim.State(), start, Script(config, t))
    modifies sim.Footprint()
    ensures sim.Valid() && fresh(sim.Footprint() - old(sim.Footprint()))
    ensures !ok ==> !Succeeds(config, config.totalTicks)
    ensures ok ==> Executed(sim.State(), start, Script(config, t) + AtTick(config.inputs, t))
    ensures ok ==> next <= |inputs| && (forall j :: 0 <= j < next ==> inputs[j].tick < t + 1)
    ensures ok ==> forall j :: next <= j < |inputs| ==> inputs[j].tick >= t + 1
  {
    hide Step, Run, Results, Agenda, AtTick, Script, SortByTick, Executed, Succeeds;
    next := from;
    SortIsStable(config.inputs, t);
    AtTickOfOthers(inputs[..from], t);
    assert Script(config, t) + [] == Script(config, t);
    while next < |inputs| && inputs[next].tick <= t
      invariant sim.Valid() && fresh(sim.Footprint() - old(sim.Footprint()))
      invariant from <= next <= |inputs| && forall j :: 0 <= j < next ==> inputs[j].tick <= t
      invariant Executed(sim.State(), start, Script(config, t) + AtTick(inputs[..next], t))
    {
      ghost var done := AtTick(inputs[..next], t);
      ghost var before := sim.State();
      var cmd := inputs[next].command;
      NextAtTick(inputs, next, t);
      var result := sim.ProcessCommand(cmd);
      if result.Err? {
        TickFailureSpoils(config, start, t, done, cmd, before);
        return next, false;
      }
      ExecutedNext(before, start, Script(config, t) + done, cmd);
      Reassociate(Script(config, t), done, cmd);
      next := next + 1;
    }
    AtTickIgnoresLater(inputs, next, t);
    ok := true;
  }

  lemma Reassociate<T>(a: seq<T>, b: seq<T>, x: T)
    ensures a + (b + [x]) == a + b + [x]
  {
  }

  /** The input at `next` is the next command of tick `t`. */
  lemma NextAtTick(inputs: seq<Scheduled>, next: nat, t: nat)
    requires next < |inputs| && inputs[next].tick == t
    ensures AtTick(inputs[..next + 1], t) == AtTick(inputs[..next], t) + [inputs[next].command]
    ensures AtTick(inputs[..next], t) + [inputs[next].command] <= AtTick(inputs, t) + [TickOnce]
  {
    hide AtTick;
    assert inputs[..next + 1] == inputs[..next] + [inputs[next]];
    AtTickSnoc(inputs[..next], inputs[next], t);
    AtTickPrefix(inputs, next + 1, t);
    PrefixThen(AtTick(inputs[..next + 1], t), AtTick(inputs, t), TickOnce);
  }

  lemma PrefixThen<T>(a: seq<T>, b: seq<T>, x: T)
    requires a <= b
    ensures a <= b + [x]
  {
  }

  /** The end of an iteration: tick, then hash the world if a checkpoint is due. */
  method TickAndCheck(sim: Simulation, config: RunConfig, t: nat, before: seq<Checkpoint>, hasher: StateHasher,
                      ghost start: SimState)
    returns (checkpoints: seq<Checkpoint>, ok: bool)
    requires sim.Valid() && start.world.None? && t < config.totalTicks
    requires Executed(sim.State(), start, Script(config, t) + AtTick(config.inputs, t))
    requires before == CheckpointsUpTo(config, hasher.digest, t)
    modifies sim.Footprint(), hasher
    ensures sim.Valid() && fresh(sim.Footprint() - old(sim.Footprint()))
    ensures !ok ==> !Succeeds(config, config.totalTicks)
    ensures ok ==> Executed(sim.State(), start, Script(config, t + 1))
    ensures ok ==> checkpoints == CheckpointsUpTo(config, hasher.digest, t + 1)
  {
    hide Step, Run, Results, Agenda, AtTick, Script, CanonicalBytes, Executed, Succeeds, WorldAfter;
    ghost var ready, done := sim.State(), AtTick(config.inputs, t);
    var ticked := sim.ProcessCommand(TickOnce);
    if ticked.Err? {
      TickFailureSpoils(config, start, t, done, TickOnce, ready);
      return before, false;
    }
    ExecutedNext(ready, start, Script(config, t) + done, TickOnce);
    ScriptStep(config, t);
    ExecutedReachesIdeal(config, sim.State(), start, t + 1);
    checkpoints := before;
    var due := config.checkpointEvery > 0 && (t + 1) % config.checkpointEvery == 0;
    if due || t + 1 == config.totalTicks {
      var w := sim.world.Snapshot();
      var hash := hasher.ComputeCanonicalHash(w);
      checkpoints := checkpoints + [Checkpoint(w.currentTick, hash)];
    }
    ok := true;
  }

  /** `run_deterministic`. It fails (the source panics) exactly when some command of the script
      fails; otherwise its result is a function of the configuration and the digest alone,
      whatever generator and clock are injected. */
  method RunDeterministic(config: RunConfig, rng: Pcg32Rng, clock: UnlimitedClock, hasher: StateHasher)
    returns (r: Option<RunResult>)
    requires rng.Valid()
    modifies rng, clock, hasher
    ensures r.Some? <==> Succeeds(config, config.totalTicks)
    ensures r.Some? ==> WorldAfter(config, config.totalTicks).Some?
    ensures r.Some? ==> r.value == RunResult(CheckpointsUpTo(config, hasher.digest, config.totalTicks),
                                             WorldAfter(config, config.totalTicks).value.currentTick)
  {
    hide Step, Run, Results, Agenda, AtTick, Script, SortByTick, CanonicalBytes, Executed, Succeeds, WorldAfter;
    var sim := new Simulation(rng, clock);
    ghost var start := sim.State();
    var inputs := SortByTick(config.inputs);
    var checkpoints: seq<Checkpoint> := [];
    StartsExecuted(config, start);
    var created := sim.ProcessCommand(CreateWorld(config.worldName, config.seed));
    if created.Err? {
      return None;
    }
    var idx: nat := 0;
    for t := 0 to config.totalTicks
      invariant sim.Valid() && fresh(sim.Footprint() - {rng, clock})
      invariant Executed(sim.State(), start, Script(config, t))
      invariant idx <= |inputs| && forall j :: 0 <= j < idx ==> inputs[j].tick < t
      invariant forall j :: idx <= j < |inputs| ==> inputs[j].tick >= t
      invariant checkpoints == CheckpointsUpTo(config, hasher.digest, t)
    {
      var ok: bool;
      idx, ok := RunInputs(sim, config, inputs, idx, t, start);
      if !ok {
        return None;
      }
      checkpoints, ok := TickAndCheck(sim, config, t, checkpoints, hasher, start);
      if !ok {
        return None;
      }
    }
    EndSucceeds(config, sim.State(), start);
    ExecutedReachesIdeal(config, sim.State(), start, config.totalTicks);
    r := Some(RunResult(checkpoints, sim.world.currentTick));
  }
}
