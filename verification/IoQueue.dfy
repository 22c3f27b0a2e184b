/** The `io` queue: handlers run one at a time in FIFO order, every change of a clean signal
    queues an evaluation, and other threads append handlers at any time. */
module IoQueue {
  import opened Netlist
  import opened Propagation
  import Convergence

  /** `Boot` is the first update queued by a unit's constructor. `Do` is any other callback:
      it drives signals and posts further handlers, in program order. */
  datatype Handler<S, U> = Eval | Boot(unit: U) | Do(cmds: seq<Cmd<S, U>>)
  datatype Cmd<S, U> = Set(signal: S, value: bool) | Post(handler: Handler<S, U>)

  datatype Sys<S, U> = Sys(engine: Engine<S, U>, queue: seq<Handler<S, U>>)

  /** The listener posts one evaluation per call. */
  ghost function Notify<S, U>(sys: Sys<S, U>, e: Engine<S, U>): Sys<S, U>
    requires e.notices >= sys.engine.notices
  {
    Sys(e, sys.queue + seq(e.notices - sys.engine.notices, _ => Eval))
  }

  ghost function RunCmd<S, U>(sys: Sys<S, U>, c: Cmd<S, U>): Sys<S, U> {
    match c
    case Set(s, v) => Notify(sys, SetLevel(sys.engine, s, v))
    case Post(h) => sys.(queue := sys.queue + [h])
  }

  ghost function RunCmds<S, U>(sys: Sys<S, U>, cmds: seq<Cmd<S, U>>): Sys<S, U>
    decreases |cmds|
  {
    if cmds == [] then sys else RunCmds(RunCmd(sys, cmds[0]), cmds[1..])
  }

  /** Takes the handler at the head of the queue and runs it to completion. */
  ghost function Step<S, U>(net: Net<U, S>, fan: Fan<S, U>, sys: Sys<S, U>): Sys<S, U> {
    if sys.queue == [] then sys
    else
      var popped := sys.(queue := sys.queue[1..]);
      match sys.queue[0]
      case Eval =>
        EvaluateLater(net, fan, sys.engine);
        Notify(popped, Evaluate(net, fan, sys.engine))
      case Boot(u) => Notify(popped, Update(net, sys.engine, u))
      case Do(cmds) => RunCmds(popped, cmds)
  }

  /** A run: one handler per entry of `env`, which lists what others append after it. The
      states between handlers are the runs of the prefixes of `env`. */
  ghost function Run<S, U>(net: Net<U, S>, fan: Fan<S, U>, sys: Sys<S, U>, env: seq<seq<Handler<S, U>>>): Sys<S, U>
    decreases |env|
  {
    if env == [] then sys
    else
      var next := Step(net, fan, sys);
      Run(net, fan, next.(queue := next.queue + env[0]), env[1..])
  }

  // ---------- No lost wake-up ----------

  ghost predicate Awake<S, U>(sys: Sys<S, U>) {
    sys.engine.pending != [] ==> Eval in sys.queue
  }

  lemma {:induction false} RunCmdsAwake<S, U>(sys: Sys<S, U>, cmds: seq<Cmd<S, U>>)
    requires Awake(sys)
    ensures Awake(RunCmds(sys, cmds))
    decreases |cmds|
  {
    if cmds != [] {
      var next := RunCmd(sys, cmds[0]);
      assert Awake(next) by {
        assert forall h | h in sys.queue :: h in next.queue;
        if next.engine.notices > sys.engine.notices {
          assert next.queue[|sys.queue|] == Eval;
        }
      }
      RunCmdsAwake(next, cmds[1..]);
    }
  }

  lemma StepAwake<S, U>(net: Net<U, S>, fan: Fan<S, U>, sys: Sys<S, U>)
    requires Awake(sys)
    ensures Awake(Step(net, fan, sys))
  {
    if sys.queue != [] {
      var popped := sys.(queue := sys.queue[1..]);
      assert forall h | h in sys.queue :: h == sys.queue[0] || h in popped.queue;
      match sys.queue[0]
      case Eval =>
        RoundsFetch(net, fan, Fetched(sys.engine), sys.engine.pending, ROUND_LIMIT);
      case Boot(u) =>
        var e := Update(net, sys.engine, u);
        var next := Notify(popped, e);
        assert forall h | h in popped.queue :: h in next.queue;
        if e.notices > sys.engine.notices {
          assert next.queue[|popped.queue|] == Eval;
        }
      case Do(cmds) =>
        RunCmdsAwake(popped, cmds);
    }
  }

  /** For every netlist, even one that exhausts the budget, whatever foreign receivers do within
      an evaluation and whatever other threads post: as long as signals are on the dirty list
      an evaluation is queued. */
  lemma {:induction false} RunAwake<S, U>(net: Net<U, S>, fan: Fan<S, U>, sys: Sys<S, U>, env: seq<seq<Handler<S, U>>>)
    requires Awake(sys)
    ensures Awake(Run(net, fan, sys, env))
    decreases |env|
  {
    if env != [] {
      StepAwake(net, fan, sys);
      var next := Step(net, fan, sys);
      assert forall h | h in next.queue :: h in next.queue + env[0];
      RunAwake(net, fan, next.(queue := next.queue + env[0]), env[1..]);
    }
  }

  // ---------- The dirty list as a set ----------

  lemma {:induction false} RunCmdsDistinct<S, U>(sys: Sys<S, U>, cmds: seq<Cmd<S, U>>)
    requires Distinct(sys.engine.pending)
    ensures Distinct(RunCmds(sys, cmds).engine.pending)
    decreases |cmds|
  {
    if cmds != [] {
      RunCmdsDistinct(RunCmd(sys, cmds[0]), cmds[1..]);
    }
  }

  lemma StepDistinct<S, U>(net: Net<U, S>, fan: Fan<S, U>, sys: Sys<S, U>)
    requires sys.queue != []
    ensures sys.queue[0] == Eval ==> Step(net, fan, sys).engine.pending == []
    ensures Distinct(sys.engine.pending) ==> Distinct(Step(net, fan, sys).engine.pending)
  {
    match sys.queue[0]
    case Eval => RoundsFetch(net, fan, Fetched(sys.engine), sys.engine.pending, ROUND_LIMIT);
    case Boot(u) =>
    case Do(cmds) =>
      if Distinct(sys.engine.pending) {
        RunCmdsDistinct(sys.(queue := sys.queue[1..]), cmds);
      }
  }

  /** New signals are listed twice, but from the first evaluation on no signal is. */
  lemma {:induction false} RunDistinct<S, U>(net: Net<U, S>, fan: Fan<S, U>, sys: Sys<S, U>,
                                             env: seq<seq<Handler<S, U>>>)
    requires Distinct(sys.engine.pending) || (env != [] && sys.queue != [] && sys.queue[0] == Eval)
    ensures Distinct(Run(net, fan, sys, env).engine.pending)
    decreases |env|
  {
    if env != [] {
      if sys.queue != [] {
        StepDistinct(net, fan, sys);
      }
      var next := Step(net, fan, sys);
      RunDistinct(net, fan, next.(queue := next.queue + env[0]), env[1..]);
    }
  }

  // ---------- No lost update over whole runs ----------

  /** The handler, and every handler it posts, drives only signals without a unit. */
  ghost predicate DrivesSources<S, U>(net: Net<U, S>, h: Handler<S, U>)
    decreases h
  {
    h.Do? ==> forall c | c in h.cmds :: CmdDrivesSources(net, c)
  }

  ghost predicate CmdDrivesSources<S, U>(net: Net<U, S>, c: Cmd<S, U>)
    decreases c
  {
    match c
    case Set(s, _) => !IsOutput(net, s)
    case Post(h) => DrivesSources(net, h)
  }

  ghost predicate AllDriveSources<S, U>(net: Net<U, S>, hs: seq<Handler<S, U>>) {
    forall h | h in hs :: DrivesSources(net, h)
  }

  ghost function BootUnits<S, U>(net: Net<U, S>, queue: seq<Handler<S, U>>): set<U> {
    set u | u in net && Boot(u) in queue
  }

  ghost function Idle<S, U>(boot: set<U>): Front<S, U> {
    Front([], [], [], boot)
  }

  ghost predicate Consistent<S, U>(net: Net<U, S>, sys: Sys<S, U>) {
    && Awake(sys)
    && AllDriveSources(net, sys.queue)
    && NothingLost(net, sys.engine, Idle(BootUnits(net, sys.queue)))
  }

  /** When the main loop starts: no unit has been updated, each has its first update queued,
      and so is an evaluation. Levels, dirty list and foreign receivers are arbitrary. */
  ghost predicate Started<S, U>(net: Net<U, S>, sys: Sys<S, U>) {
    && sys.engine.last == map[] && Benign(net, sys.engine.foreign)
    && (forall u | u in net :: Boot(u) in sys.queue)
    && Eval in sys.queue
    && AllDriveSources(net, sys.queue)
  }

  /** If the next handler is an evaluation, it ends because its list came back empty. */
  ghost predicate EndsEmpty<S, U>(net: Net<U, S>, fan: Fan<S, U>, sys: Sys<S, U>) {
    sys.queue != [] && sys.queue[0] == Eval ==> Loop(net, fan, sys.engine).batch == []
  }

  /** So do all evaluations of the run. */
  ghost predicate AllEndEmpty<S, U>(net: Net<U, S>, fan: Fan<S, U>, sys: Sys<S, U>, env: seq<seq<Handler<S, U>>>)
    decreases |env|
  {
    env == [] ||
    (EndsEmpty(net, fan, sys) &&
     var next := Step(net, fan, sys);
     AllEndEmpty(net, fan, next.(queue := next.queue + env[0]), env[1..]))
  }

  lemma MoreBoot<S, U>(net: Net<U, S>, e: Engine<S, U>, boot: set<U>, queue: seq<Handler<S, U>>)
    requires NothingLost(net, e, Idle(boot)) && boot <= BootUnits(net, queue)
    ensures NothingLost(net, e, Idle(BootUnits(net, queue)))
  {
  }

  lemma NotifyDrivesSources<S, U>(net: Net<U, S>, sys: Sys<S, U>, e: Engine<S, U>)
    requires e.notices >= sys.engine.notices && AllDriveSources(net, sys.queue)
    ensures AllDriveSources(net, Notify(sys, e).queue)
  {
  }

  lemma {:induction false} RunCmdsConsistent<S, U>(net: Net<U, S>, sys: Sys<S, U>, cmds: seq<Cmd<S, U>>)
    requires Consistent(net, sys)
    requires forall c | c in cmds :: CmdDrivesSources(net, c)
    ensures Consistent(net, RunCmds(sys, cmds))
    decreases |cmds|
  {
    if cmds != [] {
      var c := cmds[0];
      var next := RunCmd(sys, c);
      assert CmdDrivesSources(net, c);
      assert DrivesSources(net, Handler<S, U>.Eval);
      RunCmdsAwake(sys, [c]);
      assert RunCmds(sys, [c]) == next by {
        assert [c][1..] == [];
      }
      if c.Set? {
        SourceKeeps(net, sys.engine, Idle(BootUnits(net, sys.queue)), c.signal, c.value);
      }
      MoreBoot(net, next.engine, BootUnits(net, sys.queue), next.queue);
      RunCmdsConsistent(net, next, cmds[1..]);
    }
  }

  lemma StepConsistent<S, U>(net: Net<U, S>, fan: Fan<S, U>, sys: Sys<S, U>)
    requires SoleDrivers(net) && Wired(net, fan)
    requires Consistent(net, sys) && EndsEmpty(net, fan, sys)
    ensures Consistent(net, Step(net, fan, sys))
  {
    if sys.queue != [] {
      var head, popped := sys.queue[0], sys.(queue := sys.queue[1..]);
      var next := Step(net, fan, sys);
      var boot := BootUnits(net, sys.queue);
      StepAwake(net, fan, sys);
      assert forall h | h in sys.queue :: h == head || h in popped.queue;
      assert DrivesSources(net, head) && DrivesSources(net, Handler<S, U>.Eval);
      match head
      case Eval =>
        EvaluateLater(net, fan, sys.engine);
        NotifyDrivesSources(net, popped, Evaluate(net, fan, sys.engine));
        LoopKeeps(net, fan, sys.engine, boot);
        MoreBoot(net, next.engine, boot, next.queue);
      case Boot(u) =>
        BootKeeps(net, sys.engine, Idle(boot), u);
        MoreBoot(net, next.engine, boot - {u}, next.queue);
      case Do(cmds) =>
        MoreBoot(net, popped.engine, boot, popped.queue);
        RunCmdsConsistent(net, popped, cmds);
    }
  }

  /** In every state between handlers, from the start of the main loop on, every unit is
      settled, or has a waking signal on the dirty list with an evaluation queued, or still
      has its first update queued. Cycles, delayed and filtered units beside the netlist and
      other threads are all allowed, as long as no evaluation exhausts its budget. */
  lemma {:induction false} RunConsistent<S, U>(net: Net<U, S>, fan: Fan<S, U>, sys: Sys<S, U>,
                                               env: seq<seq<Handler<S, U>>>)
    requires SoleDrivers(net) && Wired(net, fan)
    requires Consistent(net, sys) && AllEndEmpty(net, fan, sys, env)
    requires forall hs | hs in env :: AllDriveSources(net, hs)
    ensures Consistent(net, Run(net, fan, sys, env))
    decreases |env|
  {
    if env != [] {
      StepConsistent(net, fan, sys);
      var next := Step(net, fan, sys);
      var n := next.(queue := next.queue + env[0]);
      assert env[0] in env;
      MoreBoot(net, n.engine, BootUnits(net, next.queue), n.queue);
      RunConsistent(net, fan, n, env[1..]);
    }
  }

  lemma StartIsConsistent<S, U>(net: Net<U, S>, sys: Sys<S, U>)
    requires Started(net, sys)
    ensures Consistent(net, sys)
  {
  }

  /** Whatever happened before, when the queue has drained every unit of the netlist is settled. */
  lemma DrainedIsFixpoint<S, U>(net: Net<U, S>, fan: Fan<S, U>, sys: Sys<S, U>, env: seq<seq<Handler<S, U>>>)
    requires SoleDrivers(net) && Wired(net, fan)
    requires Started(net, sys) && AllEndEmpty(net, fan, sys, env)
    requires forall hs | hs in env :: AllDriveSources(net, hs)
    requires Run(net, fan, sys, env).queue == []
    ensures Fixpoint(net, Run(net, fan, sys, env).engine)
  {
    StartIsConsistent(net, sys);
    RunConsistent(net, fan, sys, env);
    var n := Run(net, fan, sys, env);
    assert forall u | u in net :: !Awaits(net, n.engine, Idle(BootUnits(net, n.queue)), u);
  }

  /** In a circuit that is acyclic up to hold loops, filtered units included, no evaluation of
      any run exhausts its budget. */
  lemma {:induction false} RankedEndsEmpty<S, U>(net: Net<U, S>, fan: Fan<S, U>, sys: Sys<S, U>,
                                                 env: seq<seq<Handler<S, U>>>, rank: map<S, nat>, depth: nat)
    requires SoleDrivers(net) && Wired(net, fan) && Ranked(net, rank) && DepthAtMost(rank, depth)
    requires depth + 1 <= 10000 && Orderly(net, fan, sys.engine, rank)
    requires Consistent(net, sys)
    requires forall hs | hs in env :: AllDriveSources(net, hs)
    ensures AllEndEmpty(net, fan, sys, env)
    decreases |env|
  {
    if env != [] {
      if sys.queue != [] && sys.queue[0] == Eval {
        Convergence.LoopEnds(net, fan, sys.engine, BootUnits(net, sys.queue), rank, depth);
      }
      StepConsistent(net, fan, sys);
      StepLater(net, fan, sys);
      var next := Step(net, fan, sys);
      var n := next.(queue := next.queue + env[0]);
      assert env[0] in env;
      MoreBoot(net, n.engine, BootUnits(net, next.queue), n.queue);
      RankedEndsEmpty(net, fan, n, env[1..], rank, depth);
    }
  }

  /** So there, without further ado, a drained queue means that every unit is settled. */
  lemma RankedDrainsToFixpoint<S, U>(net: Net<U, S>, fan: Fan<S, U>, sys: Sys<S, U>, env: seq<seq<Handler<S, U>>>,
                                     rank: map<S, nat>, depth: nat)
    requires SoleDrivers(net) && Wired(net, fan) && Ranked(net, rank) && DepthAtMost(rank, depth)
    requires depth + 1 <= 10000 && Orderly(net, fan, sys.engine, rank)
    requires Started(net, sys)
    requires forall hs | hs in env :: AllDriveSources(net, hs)
    requires Run(net, fan, sys, env).queue == []
    ensures Fixpoint(net, Run(net, fan, sys, env).engine)
  {
    StartIsConsistent(net, sys);
    RankedEndsEmpty(net, fan, sys, env, rank, depth);
    DrainedIsFixpoint(net, fan, sys, env);
  }

  lemma {:induction false} RunCmdsLater<S, U>(sys: Sys<S, U>, cmds: seq<Cmd<S, U>>)
    ensures RunCmds(sys, cmds).engine.script == sys.engine.script &&
            RunCmds(sys, cmds).engine.foreign == sys.engine.foreign
    decreases |cmds|
  {
    if cmds != [] {
      RunCmdsLater(RunCmd(sys, cmds[0]), cmds[1..]);
    }
  }

  lemma StepLater<S, U>(net: Net<U, S>, fan: Fan<S, U>, sys: Sys<S, U>)
    ensures Step(net, fan, sys).engine.foreign == sys.engine.foreign
    ensures Step(net, fan, sys).engine.script == sys.engine.script
  {
    if sys.queue != [] {
      match sys.queue[0]
      case Eval => EvaluateLater(net, fan, sys.engine);
      case Boot(u) => UpdateLater(net, sys.engine, u);
      case Do(cmds) => RunCmdsLater(sys.(queue := sys.queue[1..]), cmds);
    }
  }

  /** If the netlist is loop-free as well, the drained levels are the recursive evaluation of the
      present sources, filtered outputs among them. */
  lemma DrainedIsValue<S, U>(net: Net<U, S>, fan: Fan<S, U>, sys: Sys<S, U>, env: seq<seq<Handler<S, U>>>,
                             rank: map<S, nat>, depth: nat, s: S)
    requires SoleDrivers(net) && Wired(net, fan) && Ranked(net, rank) && LoopFree(net) && DepthAtMost(rank, depth)
    requires depth + 1 <= 10000 && Orderly(net, fan, sys.engine, rank)
    requires Started(net, sys)
    requires forall hs | hs in env :: AllDriveSources(net, hs)
    requires Run(net, fan, sys, env).queue == []
    ensures var levels := Run(net, fan, sys, env).engine.levels;
            At(levels, s) == Convergence.Value(net, rank, levels, s)
  {
    RankedDrainsToFixpoint(net, fan, sys, env, rank, depth);
    var e := Run(net, fan, sys, env).engine;
    Convergence.FixpointIsValue(net, e, rank, e.levels, s);
  }

  // ---------- Posting twice puts a full evaluation in between ----------

  /** io.post of a callback that itself posts `act`. */
  ghost function Hop<S, U>(act: Handler<S, U>): Handler<S, U> {
    Do([Post(act)])
  }

  /** A request: drive `s`, then post `act` by two hops. */
  ghost function Request<S, U>(s: S, value: bool, act: Handler<S, U>): Handler<S, U> {
    Do([Set(s, value), Post(Hop(act))])
  }

  ghost predicate Touches<S, U>(h: Handler<S, U>, s: S) {
    h.Do? && exists c | c in h.cmds :: c.Set? && c.signal == s
  }

  lemma {:induction false} RunCmdsAppend<S, U>(sys: Sys<S, U>, cmds: seq<Cmd<S, U>>)
    ensures sys.queue <= RunCmds(sys, cmds).queue
    decreases |cmds|
  {
    if cmds != [] {
      RunCmdsAppend(RunCmd(sys, cmds[0]), cmds[1..]);
    }
  }

  lemma {:induction false} RunCmdsLevel<S, U>(sys: Sys<S, U>, cmds: seq<Cmd<S, U>>, s: S)
    requires !exists c | c in cmds :: c.Set? && c.signal == s
    ensures At(RunCmds(sys, cmds).engine.levels, s) == At(sys.engine.levels, s)
    decreases |cmds|
  {
    if cmds != [] {
      assert cmds[0] in cmds;
      RunCmdsLevel(RunCmd(sys, cmds[0]), cmds[1..], s);
    }
  }

  /** Handlers queue behind what is there, and leave sources alone that they do not drive. */
  lemma StepIsFifo<S, U>(net: Net<U, S>, fan: Fan<S, U>, sys: Sys<S, U>, s: S)
    requires sys.queue != []
    ensures sys.queue[1..] <= Step(net, fan, sys).queue
    ensures Untouched(net, sys.engine, s) ==> Untouched(net, Step(net, fan, sys).engine, s)
    ensures Untouched(net, sys.engine, s) && !Touches(sys.queue[0], s) ==>
              At(Step(net, fan, sys).engine.levels, s) == At(sys.engine.levels, s)
  {
    var popped := sys.(queue := sys.queue[1..]);
    StepLater(net, fan, sys);
    match sys.queue[0]
    case Eval =>
      EvaluateLater(net, fan, sys.engine);
      if Untouched(net, sys.engine, s) {
        Convergence.SourcesUnchanged(net, fan, sys.engine, s);
      }
    case Boot(u) =>
      if Untouched(net, sys.engine, s) {
        Convergence.UpdateSources(net, sys.engine, u, s);
      }
    case Do(cmds) =>
      RunCmdsAppend(popped, cmds);
      if !Touches(sys.queue[0], s) {
        RunCmdsLevel(popped, cmds, s);
      }
  }

  /** The first |ahead| handlers of the queue run in order before anything behind them. */
  lemma {:induction false} RunIsFifo<S, U>(net: Net<U, S>, fan: Fan<S, U>, sys: Sys<S, U>, env: seq<seq<Handler<S, U>>>,
                                           i: nat, s: S)
    requires i <= |env| && i <= |sys.queue|
    ensures sys.queue[i..] <= Run(net, fan, sys, env[..i]).queue
    ensures Untouched(net, sys.engine, s) && (forall k | 0 <= k < i :: !Touches(sys.queue[k], s)) ==>
              At(Run(net, fan, sys, env[..i]).engine.levels, s) == At(sys.engine.levels, s)
    decreases i
  {
    if i > 0 {
      StepIsFifo(net, fan, sys, s);
      var next := Step(net, fan, sys);
      var n := next.(queue := next.queue + env[0]);
      assert env[..i][1..] == env[1..][..i - 1];
      assert sys.queue[1..] <= n.queue;
      RunIsFifo(net, fan, n, env[1..], i - 1, s);
      assert n.queue[i - 1..][..|sys.queue| - i] == sys.queue[i..];
      if forall k | 0 <= k < i :: !Touches(sys.queue[k], s) {
        assert forall k | 0 <= k < i - 1 :: n.queue[k] == sys.queue[k + 1];
      }
    }
  }

  /** Running on from a state reached by a run. */
  lemma {:induction false} RunSplit<S, U>(net: Net<U, S>, fan: Fan<S, U>, sys: Sys<S, U>, a: seq<seq<Handler<S, U>>>,
                                          b: seq<seq<Handler<S, U>>>)
    ensures Run(net, fan, sys, a + b) == Run(net, fan, Run(net, fan, sys, a), b)
    decreases |a|
  {
    if a == [] {
      assert a + b == b;
    } else {
      assert (a + b)[1..] == a[1..] + b;
      var next := Step(net, fan, sys);
      RunSplit(net, fan, next.(queue := next.queue + a[0]), a[1..], b);
    }
  }

  /** Number of handlers that run before the first hop of a request at the head of the queue. */
  ghost function AheadOfHop<S, U>(sys: Sys<S, U>, s: S, value: bool): nat {
    |RunCmd(sys.(queue := if sys.queue == [] then [] else sys.queue[1..]), Set(s, value)).queue|
  }

  /** What the request itself does. */
  lemma RequestStep<S, U>(net: Net<U, S>, fan: Fan<S, U>, sys: Sys<S, U>, s: S, value: bool, act: Handler<S, U>)
    requires sys.queue != [] && sys.queue[0] == Request(s, value, act)
    ensures var driven := RunCmd(sys.(queue := sys.queue[1..]), Set(s, value));
            Step(net, fan, sys) == driven.(queue := driven.queue + [Hop(act)])
  {
    var popped := sys.(queue := sys.queue[1..]);
    var driven := RunCmd(popped, Set(s, value));
    var cmds := [Set(s, value), Post(Hop(act))];
    assert cmds[1..] == [Post(Hop(act))] && cmds[1..][1..] == [];
    assert RunCmds(driven, cmds[1..]) == RunCmds(RunCmd(driven, Post(Hop(act))), cmds[1..][1..]);
  }

  lemma HopStep<S, U>(net: Net<U, S>, fan: Fan<S, U>, sys: Sys<S, U>, act: Handler<S, U>)
    requires sys.queue != [] && sys.queue[0] == Hop(act)
    ensures Step(net, fan, sys) == sys.(queue := sys.queue[1..] + [act])
  {
    var cmds := [Post(act)];
    assert cmds[1..] == [];
    var popped := sys.(queue := sys.queue[1..]);
    assert RunCmds(popped, cmds) == RunCmds(RunCmd(popped, cmds[0]), cmds[1..]);
  }

  /** The hop reaches the head after the handlers ahead of it, and `act` after whatever had
      been queued by then. */
  lemma ActRunsLast<S, U>(net: Net<U, S>, fan: Fan<S, U>, first: Sys<S, U>, n: nat, act: Handler<S, U>,
                          env: seq<seq<Handler<S, U>>>, s: S)
    requires |first.queue| == n + 1 && first.queue[n] == Hop(act)
    requires n < |env| && |env| == n + |Run(net, fan, first, env[..n]).queue|
    ensures Run(net, fan, first, env).queue != [] && Run(net, fan, first, env).queue[0] == act
  {
    RunIsFifo(net, fan, first, env, n, s);
    var hop := Run(net, fan, first, env[..n]);
    assert hop.queue[0] == first.queue[n..][0] == Hop(act);
    HopStep(net, fan, hop, act);
    var m := |hop.queue| - 1;
    var next := Step(net, fan, hop);
    var n2 := next.(queue := next.queue + env[n]);
    assert n2.queue[m] == act;
    RunIsFifo(net, fan, n2, env[n + 1..], m, s);
    assert env[n + 1..][..m] == env[n + 1..] && env[n..][1..] == env[n + 1..] && env[..n] + env[n..] == env;
    RunSplit(net, fan, first, env[..n], env[n..]);
    assert n2.queue[m..][0] == act;
  }

  /** Driving a signal that then stands on the dirty list leaves an evaluation in the queue,
      whether it was posted now or before. */
  lemma DrivenIsAwake<S, U>(sys: Sys<S, U>, s: S, value: bool) returns (k: nat)
    requires sys.engine.pending != [] ==> Eval in sys.queue
    requires s in RunCmd(sys, Set(s, value)).engine.pending
    ensures k < |RunCmd(sys, Set(s, value)).queue| && RunCmd(sys, Set(s, value)).queue[k] == Eval
    ensures sys.queue <= RunCmd(sys, Set(s, value)).queue
  {
    var driven := RunCmd(sys, Set(s, value));
    assert sys.queue <= driven.queue;
    if driven.engine.notices > sys.engine.notices {
      k := |sys.queue|;
    } else {
      k :| 0 <= k < |sys.queue| && sys.queue[k] == Eval;
    }
  }

  /** A request at the head of the queue drives `s` and runs `act` two hops later. If that left
      `s` on the dirty list, an evaluation starts and completes with `s` at the requested
      level before `act` runs, whatever other threads post meanwhile; if it did not, `s` had
      the requested level already and an earlier evaluation has fetched it. */
  lemma TwoHopsSpanEvaluation<S, U>(net: Net<U, S>, fan: Fan<S, U>, sys: Sys<S, U>, s: S, value: bool,
                                    act: Handler<S, U>, env: seq<seq<Handler<S, U>>>) returns (evaluated: nat)
    requires Awake(sys) && Untouched(net, sys.engine, s)
    requires sys.queue != [] && sys.queue[0] == Request(s, value, act)
    requires forall h | h in sys.queue[1..] :: !Touches(h, s)
    requires var first := Step(net, fan, sys); var n := AheadOfHop(sys, s, value);
             n < |env| && |env| == n + |Run(net, fan, first, env[..n]).queue|
    ensures var first := Step(net, fan, sys);
            && At(first.engine.levels, s) == FromBool(value)
            && Run(net, fan, first, env).queue != []
            && Run(net, fan, first, env).queue[0] == act
            && (s !in first.engine.pending ==> At(sys.engine.levels, s) == FromBool(value) && s !in sys.engine.pending)
            && (s in first.engine.pending ==>
                  && evaluated < AheadOfHop(sys, s, value)
                  && Run(net, fan, first, env[..evaluated]).queue != []
                  && Run(net, fan, first, env[..evaluated]).queue[0] == Eval
                  && At(Run(net, fan, first, env[..evaluated]).engine.levels, s) == FromBool(value))
  {
    var popped := sys.(queue := sys.queue[1..]);
    var driven := RunCmd(popped, Set(s, value));
    var first := Step(net, fan, sys);
    var n := |driven.queue|;
    RequestStep(net, fan, sys, s, value, act);
    ActRunsLast(net, fan, first, n, act, env, s);
    evaluated := 0;
    if s in first.engine.pending {
      evaluated := DrivenIsAwake(popped, s, value);
      forall k | 0 <= k < n
        ensures !Touches(first.queue[k], s)
      {
        assert k < |popped.queue| ==> first.queue[k] == sys.queue[k + 1];
      }
      RunIsFifo(net, fan, first, env, evaluated, s);
      assert first.queue[evaluated..][0] == Eval;
    }
  }
}
