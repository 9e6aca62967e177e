/** What the deterministic runner returns: at which ticks its checkpoints stand, and what they hash. */
module Checkpoints {
  import opened SyTypes
  import opened SyApi
  import opened Sim
  import opened Replay
  import opened LiveReplay
  import opened History
  import opened CanonicalHash
  import opened Schedule

  // ------------------------------------------------------------------------
  // How far commands move the tick
  // ------------------------------------------------------------------------

  function TicksOf(cmd: SimCommand): nat {
    match cmd
    case TickOnce => 1
    case TickN(n) => n
    case _ => 0
  }

  function TicksIn(cmds: seq<SimCommand>): nat {
    if cmds == [] then 0 else TicksIn(cmds[..|cmds| - 1]) + TicksOf(cmds[|cmds| - 1])
  }

  /** The tick counter stops at the top of its range. */
  function Capped(n: nat): Tick {
    if n < 0xFFFF_FFFF_FFFF_FFFF then n else 0xFFFF_FFFF_FFFF_FFFF
  }

  lemma {:induction false} TicksInBoth(a: seq<SimCommand>, b: seq<SimCommand>)
    ensures TicksIn(a + b) == TicksIn(a) + TicksIn(b)
    decreases |b|
  {
    if b == [] {
      assert a + b == a;
    } else {
      var front := b[..|b| - 1];
      assert (a + b)[..|a + b| - 1] == a + front;
      TicksInBoth(a, front);
    }
  }

  lemma {:induction false} ManyTicksMove(s: SimState, n: nat)
    requires s.world.Some?
    ensures var w' := TickManyIn(s, n).state.world;
      w'.Some? && w'.value.currentTick == Capped(s.world.value.currentTick + n)
  {
    hide TickSystems, ReplayFrom;
    if n == 0 {
    } else {
      ManyTicksMove(s, n - 1);
      TickManyFailsAtOnce(s, n - 1);
      var before := TickManyIn(s, n - 1).state;
      TickSystemsTrack(before.world.value.AdvanceTick(), before.rng.state, before.rng.seed);
    }
  }

  lemma OneTickMoves(s: SimState)
    requires s.world.Some?
    ensures var w' := TickIn(s).state.world;
      w'.Some? && w'.value.currentTick == Capped(s.world.value.currentTick + 1)
  {
    hide TickSystems, ReplayFrom;
    TickSystemsTrack(s.world.value.AdvanceTick(), s.rng.state, s.rng.seed);
  }

  lemma CommandMoves(s: SimState, cmd: SimCommand)
    requires s.world.Some? && Step(s, cmd).result.Ok?
    ensures var w' := Step(s, cmd).state.world;
      w'.Some? && w'.value.currentTick == Capped(s.world.value.currentTick + TicksOf(cmd))
  {
    hide TickIn, TickManyIn;
    match cmd {
      case TickOnce => OneTickMoves(s);
      case TickN(n) => ManyTicksMove(s, n);
      case _ =>
    }
  }

  /** A successful run that creates a world stands at the sum of its ticks. */
  lemma {:induction false} RunMoves(ran: seq<SimCommand>)
    requires ran != [] && ran[0].CreateWorld? && forall r :: r in Results(BLANK, ran) ==> r.Ok?
    ensures var w := Run(BLANK, ran).state.world; w.Some? && w.value.currentTick == Capped(TicksIn(ran))
    decreases |ran|
  {
    var front, last := ran[..|ran| - 1], ran[|ran| - 1];
    assert ran == front + [last];
    RunSnoc(BLANK, front, last);
    InSnoc(Results(BLANK, front), Step(Run(BLANK, front).state, last).result);
    TicksInBoth(front, [last]);
    assert TicksIn([last]) == TicksIn([]) + TicksOf(last) by {
      assert [last][..0] == [];
    }
    hide Step, Run, Results, TicksIn;
    if |ran| == 1 {
      FirstMoves(last);
    } else {
      RunMoves(front);
      CommandMoves(Run(BLANK, front).state, last);
    }
  }

  lemma FirstMoves(cmd: SimCommand)
    requires cmd.CreateWorld? && Step(Run(BLANK, []).state, cmd).result.Ok?
    ensures TicksIn([]) == 0 && TicksOf(cmd) == 0
    ensures var w := Step(Run(BLANK, []).state, cmd).state.world; w.Some? && w.value.currentTick == 0
  {
  }

  // ------------------------------------------------------------------------
  // How far the schedule moves it
  // ------------------------------------------------------------------------

  lemma {:induction false} DueBeforeMoves(inputs: seq<Scheduled>, t: nat)
    ensures TicksIn(DueBefore(inputs, t + 1)) == TicksIn(DueBefore(inputs, t)) + TicksIn(AtTick(inputs, t))
    decreases |inputs|
  {
    if inputs == [] {
    } else {
      var front, last := inputs[..|inputs| - 1], inputs[|inputs| - 1];
      DueBeforeMoves(front, t);
      TicksInBoth(DueBefore(front, t + 1), [last.command]);
      TicksInBoth(DueBefore(front, t), [last.command]);
      TicksInBoth(AtTick(front, t), [last.command]);
      hide TicksIn;
    }
  }

  lemma {:induction false} AgendaMoves(inputs: seq<Scheduled>, t: nat)
    ensures TicksIn(Agenda(inputs, t)) == t + TicksIn(DueBefore(inputs, t))
  {
    if t == 0 {
      NothingDueAtStart(inputs);
    } else {
      AgendaMoves(inputs, t - 1);
      DueBeforeMoves(inputs, t - 1);
      TicksInBoth(Agenda(inputs, t - 1), AtTick(inputs, t - 1));
      TicksInBoth(Agenda(inputs, t - 1) + AtTick(inputs, t - 1), [TickOnce]);
      assert [TickOnce][..0] == [];
      assert TicksIn([TickOnce]) == 1;
    }
  }

  /** After n rounds of a successful schedule the world stands at tick n, plus the ticks that inputs
      due by then add. */
  lemma RoundTickLaw(config: RunConfig, n: nat)
    requires Succeeds(config, config.totalTicks) && n <= config.totalTicks
    ensures WorldAfter(config, n).Some?
    ensures WorldAfter(config, n).value.currentTick == Capped(n + TicksIn(DueBefore(config.inputs, n)))
  {
    hide Run, Results, Agenda, TicksIn, DueBefore;
    var ran, all := Script(config, n), Script(config, config.totalTicks);
    AgendaPrefix(config.inputs, n, config.totalTicks);
    assert all == ran + all[|ran|..];
    ResultsExtend(BLANK, ran, all[|ran|..]);
    assert forall r :: r in Results(BLANK, ran) ==> r in Results(BLANK, all);
    RunMoves(ran);
    ScriptMoves(config, n);
  }

  lemma ScriptMoves(config: RunConfig, n: nat)
    ensures TicksIn(Script(config, n)) == n + TicksIn(DueBefore(config.inputs, n))
  {
    hide Agenda, DueBefore;
    var create := CreateWorld(config.worldName, config.seed);
    AgendaMoves(config.inputs, n);
    TicksInBoth([create], Agenda(config.inputs, n));
    assert [create][..0] == [];
  }

  // ------------------------------------------------------------------------
  // The checkpoints
  // ------------------------------------------------------------------------

  ghost predicate Rising(ns: seq<nat>) {
    forall i, j :: 0 <= i < j < |ns| ==> ns[i] < ns[j]
  }

  /** The rounds that end in a checkpoint: the last, and every multiple of a positive interval. */
  predicate Ends(config: RunConfig, n: nat) {
    n == config.totalTicks || (config.checkpointEvery > 0 && n % config.checkpointEvery == 0)
  }

  /** Checkpoint of round `n`: the tick the world stands at, and the digest of its canonical bytes. */
  ghost predicate Records(config: RunConfig, digest: seq<byte> -> u64, n: nat, c: Checkpoint) {
    && WorldAfter(config, n).Some?
    && c.tick == Capped(n + TicksIn(DueBefore(config.inputs, n)))
    && c.hash == digest(CanonicalBytes(WorldAfter(config, n).value))
  }

  /** `ns` are the rounds up to `m` that end in a checkpoint, and `cs` their checkpoints. */
  ghost predicate Match(config: RunConfig, digest: seq<byte> -> u64, m: nat, ns: seq<nat>, cs: seq<Checkpoint>) {
    && Rising(ns) && (forall n :: n in ns <==> 0 < n <= m && Ends(config, n))
    && |cs| == |ns| && forall i :: 0 <= i < |ns| ==> Records(config, digest, ns[i], cs[i])
  }

  lemma MatchOneMore(config: RunConfig, digest: seq<byte> -> u64, m: nat, ns: seq<nat>, cs: seq<Checkpoint>,
                     c: Checkpoint)
    requires m > 0 && Match(config, digest, m - 1, ns, cs)
    ensures !Ends(config, m) ==> Match(config, digest, m, ns, cs)
    ensures Ends(config, m) && Records(config, digest, m, c) ==> Match(config, digest, m, ns + [m], cs + [c])
  {
    hide Ends, Records;
    assert forall i :: 0 <= i < |ns| ==> ns[i] in ns;
    assert forall n :: n in ns + [m] <==> n in ns || n == m;
  }

  lemma {:induction false} CheckpointsOfRounds(config: RunConfig, digest: seq<byte> -> u64, m: nat)
    returns (ns: seq<nat>)
    requires Succeeds(config, config.totalTicks) && m <= config.totalTicks
    ensures Match(config, digest, m, ns, CheckpointsUpTo(config, digest, m))
  {
    hide Succeeds, Records, Ends, WorldAfter, CanonicalBytes;
    if m == 0 {
      ns := [];
    } else {
      hide CheckpointsUpTo, Match;
      var before := CheckpointsOfRounds(config, digest, m - 1);
      var cs, cs' := CheckpointsUpTo(config, digest, m - 1), CheckpointsUpTo(config, digest, m);
      OneMoreRound(config, digest, m);
      if Ends(config, m) {
        ns := before + [m];
        assert cs' == cs + [cs'[|cs|]];
        MatchOneMore(config, digest, m, before, cs, cs'[|cs|]);
      } else {
        ns := before;
        MatchOneMore(config, digest, m, before, cs, Checkpoint(0, 0));
      }
    }
  }

  /** A round adds its checkpoint if it ends in one, and else nothing. */
  lemma OneMoreRound(config: RunConfig, digest: seq<byte> -> u64, m: nat)
    requires Succeeds(config, config.totalTicks) && 0 < m <= config.totalTicks
    ensures var before, after := CheckpointsUpTo(config, digest, m - 1), CheckpointsUpTo(config, digest, m);
      if Ends(config, m)
      then |after| == |before| + 1 && after[..|before|] == before && Records(config, digest, m, after[|before|])
      else after == before
  {
    hide WorldAfter, CanonicalBytes, Succeeds, DueBefore, TicksIn, Capped;
    RoundTickLaw(config, m);
  }

  /** The checkpoints of a successful run: one for each round that ends in one, in ascending order,
      with the tick and the hash of that round's world. */
  lemma CheckpointLaw(config: RunConfig, digest: seq<byte> -> u64) returns (ns: seq<nat>)
    requires Succeeds(config, config.totalTicks)
    ensures Rising(ns)
    ensures forall n :: n in ns <==>
      && 0 < n <= config.totalTicks
      && (n == config.totalTicks || (config.checkpointEvery > 0 && n % config.checkpointEvery == 0))
    ensures var cs := CheckpointsUpTo(config, digest, config.totalTicks);
      |cs| == |ns| && forall i :: 0 <= i < |ns| ==> Records(config, digest, ns[i], cs[i])
  {
    hide CheckpointsUpTo, Records, Succeeds, WorldAfter;
    ns := CheckpointsOfRounds(config, digest, config.totalTicks);
  }

  lemma {:induction false} NoInputTicks(inputs: seq<Scheduled>, t: nat)
    requires forall e :: e in inputs ==> !e.command.TickOnce? && !e.command.TickN?
    ensures TicksIn(DueBefore(inputs, t)) == 0
    decreases |inputs|
  {
    if inputs == [] {
    } else {
      var front, last := inputs[..|inputs| - 1], inputs[|inputs| - 1];
      NoInputTicks(front, t);
      assert last in inputs;
      TicksInBoth(DueBefore(front, t), [last.command]);
      assert [last.command][..0] == [];
    }
  }

  ghost predicate StandsAt(cs: seq<Checkpoint>, n: nat) {
    exists i :: 0 <= i < |cs| && cs[i].tick == n
  }

  /** When no input ticks by itself, the checkpoints stand exactly at the multiples of the interval and
      at the last tick, each once, ascending. */
  lemma PlainCheckpointLaw(config: RunConfig, digest: seq<byte> -> u64)
    requires Succeeds(config, config.totalTicks)
    requires forall e :: e in config.inputs ==> !e.command.TickOnce? && !e.command.TickN?
    ensures var cs := CheckpointsUpTo(config, digest, config.totalTicks);
      && (forall i, j :: 0 <= i < j < |cs| ==> cs[i].tick < cs[j].tick)
      && (forall n: nat :: StandsAt(cs, n) <==>
           && 0 < n <= config.totalTicks
           && (n == config.totalTicks || (config.checkpointEvery > 0 && n % config.checkpointEvery == 0)))
      && forall i :: 0 <= i < |cs| ==>
           && WorldAfter(config, cs[i].tick).Some?
           && cs[i].hash == digest(CanonicalBytes(WorldAfter(config, cs[i].tick).value))
  {
    hide WorldAfter, CanonicalBytes, Succeeds, DueBefore, TicksIn, CheckpointsUpTo;
    var ns := CheckpointLaw(config, digest);
    var cs := CheckpointsUpTo(config, digest, config.totalTicks);
    forall i | 0 <= i < |ns|
      ensures cs[i].tick == ns[i]
    {
      assert ns[i] in ns && Records(config, digest, ns[i], cs[i]);
      NoInputTicks(config.inputs, ns[i]);
    }
    forall n: nat
      ensures StandsAt(cs, n) <==> n in ns
    {
      if n in ns {
        var i :| 0 <= i < |ns| && ns[i] == n;
        assert cs[i].tick == n;
      }
    }
  }
}
