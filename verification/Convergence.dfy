/** Termination of the evaluation loop on ranked netlists, agreement with recursive
    evaluation, and what happens when the round budget runs out. */
module Convergence {
  import opened Netlist
  import opened Propagation

  // ---------- Depth bounds the number of rounds ----------

  /** Round j visits signals of rank j and above only; what it makes dirty ranks higher. */
  ghost predicate Layered<S, U>(net: Net<U, S>, e: Engine<S, U>, f: Front<S, U>, rank: map<S, nat>, j: nat) {
    && (forall s | s in f.rest :: RankOf(rank, s) >= j)
    && (forall s | s in f.current :: RankOf(rank, s) >= j)
    && (forall s | s in e.pending :: RankOf(rank, s) >= j + 1)
    && (forall u | u in net && net[u].out in e.pending :: u in e.last)
    && (j >= 1 ==> forall u | u in net && (net[u].out in f.rest || net[u].out in f.current) :: u in e.last)
  }

  lemma UpdateLayers<S, U>(net: Net<U, S>, e: Engine<S, U>, f: Front<S, U>, rank: map<S, nat>, j: nat, u: U, s: S)
    requires SoleDrivers(net) && NothingLost(net, e, f) && Ranked(net, rank) && Layered(net, e, f, rank, j)
    requires u in net && f.current == [s] && s in Inputs(net[u])
    ensures Layered(net, Update(net, e, u), f, rank, j)
  {
    var out := net[u].out;
    if s !in Wakers(net[u]) && RankOf(rank, out) <= j {
      // Triggered by its own hold input only; the inputs that matter are of lower rank and
      // clean, so the unit is settled and its update does nothing.
      assert s == out && u in e.last;
      assert Settled(net, e, u) by {
        assert forall w | w in Wakers(net[u]) :: !Wakes(net, e, f, u, w);
      }
    }
  }

  lemma ForeignLayers<S, U>(net: Net<U, S>, e: Engine<S, U>, f: Front<S, U>, rank: map<S, nat>, j: nat, u: U, s: S)
    requires Benign(net, e.foreign) && Layered(net, e, f, rank, j) && f.current == [s]
    requires e.script == [] || (u in e.foreign ==> RankOf(rank, s) < RankOf(rank, e.foreign[u]))
    ensures Layered(net, Foreign(e, u), f, rank, j)
  {
  }

  lemma {:induction false} UpdateAllLayers<S, U>(net: Net<U, S>, e: Engine<S, U>, f: Front<S, U>, rank: map<S, nat>,
                                                 j: nat, s: S)
    requires SoleDrivers(net) && NothingLost(net, e, f) && Ranked(net, rank) && Layered(net, e, f, rank, j)
    requires f.current == [s] && forall u | u in f.todo && u in net :: s in Inputs(net[u])
    requires e.script == [] ||
             forall u | u in f.todo && u !in net && u in e.foreign :: RankOf(rank, s) < RankOf(rank, e.foreign[u])
    ensures Layered(net, UpdateAll(net, e, f.todo), f.(todo := []), rank, j)
    decreases |f.todo|
  {
    if f.todo != [] {
      UpdateKeeps(net, e, f, f.todo[0]);
      if f.todo[0] in net {
        UpdateLayers(net, e, f, rank, j, f.todo[0], s);
      } else {
        ForeignLayers(net, e, f, rank, j, f.todo[0], s);
      }
      UpdateLater(net, e, f.todo[0]);
      UpdateAllLayers(net, Update(net, e, f.todo[0]), f.(todo := f.todo[1..]), rank, j, s);
    }
  }

  lemma {:induction false} VisitLayers<S, U>(net: Net<U, S>, fan: Fan<S, U>, e: Engine<S, U>, f: Front<S, U>,
                                             rank: map<S, nat>, j: nat)
    requires SoleDrivers(net) && Wired(net, fan) && NothingLost(net, e, f) && Ranked(net, rank)
    requires Orderly(net, fan, e, rank) && f.todo == [] && Layered(net, e, f, rank, j)
    ensures var n := Visit(net, fan, e, f.rest);
            && (forall s | s in n.pending :: RankOf(rank, s) >= j + 1)
            && (forall u | u in net && net[u].out in n.pending :: u in n.last)
    decreases |f.rest|
  {
    if f.rest != [] {
      NextKeeps(net, fan, e, f);
      var g := Front(f.rest[1..], [f.rest[0]], Receivers(fan, f.rest[0]), f.boot);
      UpdateAllKeeps(net, e, g);
      UpdateAllLayers(net, e, g, rank, j, f.rest[0]);
      UpdateAllLater(net, e, g.todo);
      VisitLayers(net, fan, UpdateAll(net, e, g.todo), g.(todo := []), rank, j);
    }
  }

  /** Started on a batch of rank j and above the loop spends at most one round per layer, and
      a batch it leaves unvisited ranks as high as the rounds spent. */
  lemma {:induction false} RoundsEnd<S, U>(net: Net<U, S>, fan: Fan<S, U>, e: Engine<S, U>, batch: seq<S>, boot: set<U>,
                                           budget: nat, rank: map<S, nat>, depth: nat, j: nat)
    requires SoleDrivers(net) && Wired(net, fan) && Ranked(net, rank) && DepthAtMost(rank, depth)
    requires NothingLost(net, e, Front(batch, [], [], boot))
    requires Orderly(net, fan, e, rank) && e.pending == [] && Layered(net, e, Front(batch, [], [], boot), rank, j)
    requires j <= depth + 1
    ensures var o := Rounds(net, fan, e, batch, budget);
            && (forall s | s in o.batch :: RankOf(rank, s) >= j + budget)
            && (depth + 1 <= budget + j ==> o.batch == [] && o.budget + (depth + 1 - j) >= budget)
    decreases budget
  {
    if batch != [] && budget != 0 {
      assert j <= RankOf(rank, batch[0]) <= depth;
      var f := Front(batch, [], [], boot);
      VisitKeeps(net, fan, e, f);
      VisitLayers(net, fan, e, f, rank, j);
      var v := Visit(net, fan, e, batch);
      VisitLater(net, fan, e, batch);
      Regroup(net, v, Fetched(v), Front([], [], [], boot), Front(v.pending, [], [], boot));
      RoundsEnd(net, fan, Fetched(v), v.pending, boot, budget - 1, rank, depth, j + 1);
    } else if batch != [] {
      assert j <= RankOf(rank, batch[0]) <= depth;
    }
  }

  /** A circuit that is acyclic up to hold loops, of depth D, is evaluated in at most D + 1
      rounds, whatever its filtered units do: up to the limit the list is emptied, and below it
      the failure branch is not taken. */
  lemma LoopEnds<S, U>(net: Net<U, S>, fan: Fan<S, U>, e: Engine<S, U>, boot: set<U>, rank: map<S, nat>, depth: nat)
    requires SoleDrivers(net) && Wired(net, fan) && Ranked(net, rank) && DepthAtMost(rank, depth)
    requires depth + 1 <= 10000 && Orderly(net, fan, e, rank)
    requires NothingLost(net, e, Front([], [], [], boot))
    ensures var o := Loop(net, fan, e);
            o.batch == [] && o.budget >= 10000 - (depth + 1)
    ensures NothingLost(net, Evaluate(net, fan, e), Front([], [], [], boot))
    ensures Evaluate(net, fan, e).pending == []
  {
    var f := Front(e.pending, [], [], boot);
    Regroup(net, e, Fetched(e), Front([], [], [], boot), f);
    RoundsEnd(net, fan, Fetched(e), e.pending, boot, ROUND_LIMIT, rank, depth, 0);
    LoopKeeps(net, fan, e, boot);
  }

  /** Even at a depth of exactly the limit, where the last batch is not visited any more: it
      holds outputs of the top layer only, which nobody waits for. */
  lemma RankedReachesFixpoint<S, U>(net: Net<U, S>, fan: Fan<S, U>, e: Engine<S, U>, rank: map<S, nat>, depth: nat)
    requires SoleDrivers(net) && Wired(net, fan) && Ranked(net, rank) && DepthAtMost(rank, depth)
    requires depth <= 10000 && Orderly(net, fan, e, rank)
    requires NothingLost(net, e, Front([], [], [], {}))
    ensures Fixpoint(net, Evaluate(net, fan, e))
  {
    var f := Front(e.pending, [], [], {});
    Regroup(net, e, Fetched(e), Front([], [], [], {}), f);
    RoundsEnd(net, fan, Fetched(e), e.pending, {}, ROUND_LIMIT, rank, depth, 0);
    RoundsKeep(net, fan, Fetched(e), e.pending, {}, ROUND_LIMIT);
    RoundsFetch(net, fan, Fetched(e), e.pending, ROUND_LIMIT);
    var o := Loop(net, fan, e);
    forall u | u in net
      ensures Settled(net, Evaluate(net, fan, e), u)
    {
      assert RankOf(rank, net[u].out) <= depth;
      assert forall s | s in Wakers(net[u]) :: !Wakes(net, o.engine, Front(o.batch, [], [], {}), u, s);
    }
  }

  // ---------- Agreement with recursive evaluation ----------

  /** A signal of no unit and no foreign receiver keeps its level through an evaluation. */
  lemma {:induction false} SourcesUnchanged<S, U>(net: Net<U, S>, fan: Fan<S, U>, e: Engine<S, U>, s: S)
    requires Untouched(net, e, s)
    ensures At(Evaluate(net, fan, e).levels, s) == At(e.levels, s)
  {
    RoundsSources(net, fan, Fetched(e), e.pending, ROUND_LIMIT, s);
  }

  lemma UpdateSources<S, U>(net: Net<U, S>, e: Engine<S, U>, u: U, s: S)
    requires Untouched(net, e, s)
    ensures At(Update(net, e, u).levels, s) == At(e.levels, s) && Untouched(net, Update(net, e, u), s)
  {
  }

  lemma {:induction false} UpdateAllSources<S, U>(net: Net<U, S>, e: Engine<S, U>, us: seq<U>, s: S)
    requires Untouched(net, e, s)
    ensures At(UpdateAll(net, e, us).levels, s) == At(e.levels, s) && Untouched(net, UpdateAll(net, e, us), s)
    decreases |us|
  {
    if us != [] {
      UpdateSources(net, e, us[0], s);
      UpdateAllSources(net, Update(net, e, us[0]), us[1..], s);
    }
  }

  lemma {:induction false} VisitSources<S, U>(net: Net<U, S>, fan: Fan<S, U>, e: Engine<S, U>, batch: seq<S>, s: S)
    requires Untouched(net, e, s)
    ensures At(Visit(net, fan, e, batch).levels, s) == At(e.levels, s) && Untouched(net, Visit(net, fan, e, batch), s)
    decreases |batch|
  {
    if batch != [] {
      UpdateAllSources(net, e, Receivers(fan, batch[0]), s);
      VisitSources(net, fan, UpdateAll(net, e, Receivers(fan, batch[0])), batch[1..], s);
    }
  }

  lemma {:induction false} RoundsSources<S, U>(net: Net<U, S>, fan: Fan<S, U>, e: Engine<S, U>, batch: seq<S>,
                                               budget: nat, s: S)
    requires Untouched(net, e, s)
    ensures At(Rounds(net, fan, e, batch, budget).engine.levels, s) == At(e.levels, s)
    decreases budget
  {
    if batch != [] && budget != 0 {
      VisitSources(net, fan, e, batch, s);
      var v := Visit(net, fan, e, batch);
      RoundsSources(net, fan, Fetched(v), v.pending, budget - 1, s);
    }
  }

  /** The plain reading of a loop-free netlist: a driven signal is its unit's gate on the
      recursively evaluated inputs, a source is what it is. Nothing here knows about dirty
      lists, rounds or caches. */
  ghost function Value<S, U>(net: Net<U, S>, rank: map<S, nat>, sources: map<S, Level>, s: S): Level
    requires Ranked(net, rank) && LoopFree(net)
    decreases RankOf(rank, s), 1
  {
    if IsOutput(net, s) then
      var u :| u in net && net[u].out == s;
      FromBool(Gate(net[u], InputValues(net, rank, sources, u)))
    else At(sources, s)
  }

  ghost function InputValues<S, U>(net: Net<U, S>, rank: map<S, nat>, sources: map<S, Level>,
                                   u: U): (values: map<S, Level>)
    requires Ranked(net, rank) && LoopFree(net) && u in net
    decreases RankOf(rank, net[u].out), 0
  {
    assert Wakers(net[u]) == Inputs(net[u]);
    map s | s in Inputs(net[u]) :: Value(net, rank, sources, s)
  }

  /** A fixpoint of a loop-free netlist is determined by its sources. */
  lemma {:induction false} FixpointIsValue<S, U>(net: Net<U, S>, e: Engine<S, U>, rank: map<S, nat>,
                                                 sources: map<S, Level>, s: S)
    requires Ranked(net, rank) && LoopFree(net) && Fixpoint(net, e)
    requires forall x | x in e.levels || x in sources :: IsOutput(net, x) || At(e.levels, x) == At(sources, x)
    ensures At(e.levels, s) == Value(net, rank, sources, s)
    decreases RankOf(rank, s), 1
  {
    if IsOutput(net, s) {
      var u :| u in net && net[u].out == s &&
          Value(net, rank, sources, s) == FromBool(Gate(net[u], InputValues(net, rank, sources, u)));
      FixpointInputs(net, e, rank, sources, u);
      GateFrame(net[u], e.levels, InputValues(net, rank, sources, u));
      assert Settled(net, e, u);
    }
  }

  lemma {:induction false} FixpointInputs<S, U>(net: Net<U, S>, e: Engine<S, U>, rank: map<S, nat>,
                                                sources: map<S, Level>, u: U)
    requires Ranked(net, rank) && LoopFree(net) && Fixpoint(net, e) && u in net
    requires forall x | x in e.levels || x in sources :: IsOutput(net, x) || At(e.levels, x) == At(sources, x)
    ensures forall s | s in Inputs(net[u]) :: At(e.levels, s) == At(InputValues(net, rank, sources, u), s)
    decreases RankOf(rank, net[u].out), 0
  {
    assert Wakers(net[u]) == Inputs(net[u]);
    forall s | s in Inputs(net[u])
      ensures At(e.levels, s) == At(InputValues(net, rank, sources, u), s)
    {
      FixpointIsValue(net, e, rank, sources, s);
    }
  }

  /** The evaluation loop computes the recursive evaluation of the netlist from its sources,
      filtered outputs among them, as they are in the end; and if foreign receivers do nothing,
      from the levels the sources had at the start. Neither the order of the dirty list nor
      that of the receivers, nor the cached results and old outputs, occur on the right-hand
      side. */
  lemma EvaluateIsValue<S, U>(net: Net<U, S>, fan: Fan<S, U>, e: Engine<S, U>, rank: map<S, nat>, depth: nat, s: S)
    requires SoleDrivers(net) && Wired(net, fan) && Ranked(net, rank) && LoopFree(net) && DepthAtMost(rank, depth)
    requires depth <= 10000 && Orderly(net, fan, e, rank)
    requires NothingLost(net, e, Front([], [], [], {}))
    ensures At(Evaluate(net, fan, e).levels, s) == Value(net, rank, Evaluate(net, fan, e).levels, s)
    ensures e.script == [] ==> At(Evaluate(net, fan, e).levels, s) == Value(net, rank, e.levels, s)
  {
    var n := Evaluate(net, fan, e);
    RankedReachesFixpoint(net, fan, e, rank, depth);
    FixpointIsValue(net, n, rank, n.levels, s);
    if e.script == [] {
      forall x | x in n.levels || x in e.levels
        ensures IsOutput(net, x) || At(n.levels, x) == At(e.levels, x)
      {
        if !IsOutput(net, x) {
          SourcesUnchanged(net, fan, e, x);
        }
      }
      FixpointIsValue(net, n, rank, e.levels, s);
    }
  }

  /** Two engines on the same netlist with the same sources agree after evaluation, however
      their dirty lists, receiver orders and histories differ. */
  lemma OrderDoesNotMatter<S, U>(net: Net<U, S>, fan1: Fan<S, U>, fan2: Fan<S, U>, e1: Engine<S, U>, e2: Engine<S, U>,
                                 rank: map<S, nat>, depth: nat, s: S)
    requires SoleDrivers(net) && Wired(net, fan1) && Wired(net, fan2)
    requires Ranked(net, rank) && LoopFree(net) && DepthAtMost(rank, depth) && depth <= 10000
    requires e1.script == [] && e2.script == []
    requires NothingLost(net, e1, Front([], [], [], {})) && NothingLost(net, e2, Front([], [], [], {}))
    requires forall x | x in e1.levels || x in e2.levels :: IsOutput(net, x) || At(e1.levels, x) == At(e2.levels, x)
    ensures At(Evaluate(net, fan1, e1).levels, s) == At(Evaluate(net, fan2, e2).levels, s)
  {
    var n := Evaluate(net, fan1, e1);
    EvaluateIsValue(net, fan2, e2, rank, depth, s);
    RankedReachesFixpoint(net, fan1, e1, rank, depth);
    forall x | x in n.levels || x in e2.levels
      ensures IsOutput(net, x) || At(n.levels, x) == At(e2.levels, x)
    {
      if !IsOutput(net, x) {
        SourcesUnchanged(net, fan1, e1, x);
      }
    }
    FixpointIsValue(net, n, rank, e2.levels, s);
  }

  // ---------- The exhausted budget loses an update ----------

  /** One round leads from the one state to the other. */
  ghost predicate Follows<S, U>(net: Net<U, S>, fan: Fan<S, U>, a: Engine<S, U>, b: Engine<S, U>) {
    a.pending != [] && Visit(net, fan, Fetched(a), a.pending) == b
  }

  /** One inverter reading its own output. */
  ghost function Oscillator(): Net<nat, nat> {
    map[0 := Unit([Input(0, true)], [], false, false, false, 0)]
  }

  ghost function OscillatorFan(): Fan<nat, nat> {
    map[0 := [0]]
  }

  ghost function OscillatorAt(high: bool, pending: seq<nat>, notices: nat): Engine<nat, nat> {
    Engine(map[0 := FromBool(high)], pending, map[0 := high], notices, map[], [], 0)
  }

  lemma OscillatorGate(high: bool)
    ensures Gate(Oscillator()[0], map[0 := FromBool(high)]) == !high
  {
    var u := Oscillator()[0];
    assert u.ands[0] in u.ands;
  }

  lemma OscillatorUpdate(high: bool, notices: nat)
    ensures Update(Oscillator(), OscillatorAt(high, [], notices), 0) == OscillatorAt(!high, [0], notices + 1)
  {
    var e := OscillatorAt(high, [], notices);
    OscillatorGate(high);
    assert e.levels[0 := FromBool(!high)] == map[0 := FromBool(!high)];
    assert e.last[0 := !high] == map[0 := !high];
  }

  lemma OscillatorRound(high: bool, notices: nat)
    ensures Follows(Oscillator(), OscillatorFan(), OscillatorAt(high, [0], notices),
                    OscillatorAt(!high, [0], notices + 1))
  {
    var e, n := OscillatorAt(high, [], notices), OscillatorAt(!high, [0], notices + 1);
    OscillatorUpdate(high, notices);
    assert |[0][1..]| == 0;
    assert UpdateAll(Oscillator(), n, [0][1..]) == n;
    assert Receivers(OscillatorFan(), 0) == [0];
    assert Visit(Oscillator(), OscillatorFan(), n, [0][1..]) == n;
  }

  /** States that follow each other round by round with the list never empty use up the budget. */
  lemma {:induction false} EndlessRounds<S, U>(net: Net<U, S>, fan: Fan<S, U>, states: seq<Engine<S, U>>)
    requires states != []
    requires forall k | 0 <= k < |states| - 1 :: Follows(net, fan, states[k], states[k + 1])
    ensures var n := |states| - 1;
            Rounds(net, fan, Fetched(states[0]), states[0].pending, n) ==
                Outcome(Fetched(states[n]), states[n].pending, 0)
    decreases |states|
  {
    if |states| > 1 {
      assert Follows(net, fan, states[0], states[1]);
      EndlessRounds(net, fan, states[1..]);
    }
  }

  ghost function OscillatorRun(high: bool, notices: nat, budget: nat): (states: seq<Engine<nat, nat>>)
    ensures |states| == budget + 1
    ensures forall k | 0 <= k <= budget :: states[k] == OscillatorAt(high == (k % 2 == 0), [0], notices + k)
  {
    seq(budget + 1, k requires 0 <= k => OscillatorAt(high == (k % 2 == 0), [0], notices + k))
  }

  lemma OscillatorStep(high: bool, notices: nat, k: nat)
    ensures Follows(Oscillator(), OscillatorFan(), OscillatorAt(high == (k % 2 == 0), [0], notices + k),
                    OscillatorAt(high == ((k + 1) % 2 == 0), [0], notices + (k + 1)))
  {
    assert (k + 1) % 2 == 0 <==> k % 2 != 0;
    OscillatorRound(high == (k % 2 == 0), notices + k);
  }

  lemma OscillatorRunFollows(high: bool, notices: nat, budget: nat)
    ensures forall k | 0 <= k < budget ::
              Follows(Oscillator(), OscillatorFan(), OscillatorRun(high, notices, budget)[k],
                      OscillatorRun(high, notices, budget)[k + 1])
  {
    forall k | 0 <= k < budget
      ensures Follows(Oscillator(), OscillatorFan(), OscillatorRun(high, notices, budget)[k],
                      OscillatorRun(high, notices, budget)[k + 1])
    {
      OscillatorStep(high, notices, k);
    }
  }

  lemma OscillatorRounds(high: bool, notices: nat, budget: nat)
    ensures Rounds(Oscillator(), OscillatorFan(), OscillatorAt(high, [], notices), [0], budget) ==
            Outcome(OscillatorAt(high == (budget % 2 == 0), [], notices + budget), [0], 0)
  {
    OscillatorRunFollows(high, notices, budget);
    EndlessRounds(Oscillator(), OscillatorFan(), OscillatorRun(high, notices, budget));
  }

  lemma OscillatorStarts(high: bool, notices: nat)
    ensures NothingLost(Oscillator(), OscillatorAt(high, [0], notices), Front([], [], [], {}))
  {
    var e := OscillatorAt(high, [0], notices);
    assert Wakes(Oscillator(), e, Front([], [], [], {}), 0, 0) by {
      var u := Oscillator()[0];
      assert u.ands[0] in u.ands + u.ors && u.ands[0].invert;
      assert !PlainHold(u);
    }
  }

  /** With a cycle through an inverter the failure branch is taken, the dirty list is left
      empty although the unit is not settled, and the run posted as a retry finds nothing to
      do: the update of the last fetched batch is lost for good. */
  lemma ExhaustedRunLosesUpdate(high: bool, notices: nat)
    ensures var e := OscillatorAt(high, [0], notices);
            var n := Evaluate(Oscillator(), OscillatorFan(), e);
            && NothingLost(Oscillator(), e, Front([], [], [], {}))
            && Loop(Oscillator(), OscillatorFan(), e).batch == [0]
            && n.pending == [] && n.notices == notices + 10001
            && !Settled(Oscillator(), n, 0)
            && Evaluate(Oscillator(), OscillatorFan(), n) == n
  {
    var e := OscillatorAt(high, [0], notices);
    OscillatorStarts(high, notices);
    assert Fetched(e) == OscillatorAt(high, [], notices);
    OscillatorRounds(high, notices, ROUND_LIMIT);
    OscillatorGate(high);
  }

  // ---------- The depth bound is exact ----------

  ghost function Below(n: nat): (ks: set<nat>)
    ensures forall k: nat :: k in ks <==> k < n
  {
    if n == 0 then {} else Below(n - 1) + {n - 1}
  }

  ghost function Nodes(n: nat): (ks: set<nat>)
    ensures forall k: nat :: k in ks <==> k <= n
  {
    Below(n + 1)
  }

  /** A chain of `n` buffers: unit k copies signal k to signal k + 1. */
  ghost function Chain(n: nat): Net<nat, nat> {
    map k | k in Below(n) :: Unit([Input(k, false)], [], false, false, false, k + 1)
  }

  ghost function ChainFan(n: nat): Fan<nat, nat> {
    map k | k in Below(n) :: [k]
  }

  ghost function ChainRank(n: nat): map<nat, nat> {
    map k | k in Nodes(n) :: k
  }

  /** Signals up to `j` have gone high, and signal `j` is listed. */
  ghost function ChainAt(n: nat, j: nat): Engine<nat, nat> {
    Engine(map k | k in Nodes(n) :: FromBool(k <= j), [j], map k | k in Below(n) :: k < j, j, map[], [], 0)
  }

  lemma ChainUnit(n: nat, k: nat, levels: map<nat, Level>)
    requires k < n
    ensures Inputs(Chain(n)[k]) == {k} == Wakers(Chain(n)[k])
    ensures Gate(Chain(n)[k], levels) == (At(levels, k) == 1)
  {
    var u := Chain(n)[k];
    assert u.ands[0] in u.ands && u.ands + u.ors == [Input(k, false)];
  }

  lemma ChainIsRanked(n: nat)
    ensures SoleDrivers(Chain(n)) && Wired(Chain(n), ChainFan(n)) && LoopFree(Chain(n))
    ensures Ranked(Chain(n), ChainRank(n)) && DepthAtMost(ChainRank(n), n)
  {
    forall k | k in Chain(n)
      ensures Inputs(Chain(n)[k]) == {k} == Wakers(Chain(n)[k])
    {
      ChainUnit(n, k, map[]);
    }
  }

  lemma ChainUpdate(n: nat, j: nat)
    requires j < n
    ensures Update(Chain(n), Fetched(ChainAt(n, j)), j) == ChainAt(n, j + 1)
  {
    var e := Fetched(ChainAt(n, j));
    var m := Update(Chain(n), e, j);
    ChainUnit(n, j, e.levels);
    assert m.levels == ChainAt(n, j + 1).levels;
    assert m.last == ChainAt(n, j + 1).last;
  }

  lemma ChainRound(n: nat, j: nat)
    requires j < n
    ensures Follows(Chain(n), ChainFan(n), ChainAt(n, j), ChainAt(n, j + 1))
  {
    var e, m := Fetched(ChainAt(n, j)), ChainAt(n, j + 1);
    ChainUpdate(n, j);
    assert Receivers(ChainFan(n), j) == [j] && [j][1..] == [];
    assert UpdateAll(Chain(n), m, [j][1..]) == m;
    assert Visit(Chain(n), ChainFan(n), m, [j][1..]) == m;
  }

  lemma ChainStarts(n: nat)
    ensures NothingLost(Chain(n), ChainAt(n, 0), Front([], [], [], {}))
  {
    var e := ChainAt(n, 0);
    forall k | k in Chain(n)
      ensures Settled(Chain(n), e, k) || Awaits(Chain(n), e, Front([], [], [], {}), k)
    {
      ChainUnit(n, k, e.levels);
      assert k == 0 ==> Wakes(Chain(n), e, Front([], [], [], {}), 0, 0);
    }
  }

  ghost function ChainRun(n: nat, budget: nat): (states: seq<Engine<nat, nat>>)
    ensures |states| == budget + 1
    ensures forall k | 0 <= k <= budget :: states[k] == ChainAt(n, k)
  {
    seq(budget + 1, k requires 0 <= k => ChainAt(n, k))
  }

  lemma ChainRunFollows(n: nat, budget: nat)
    requires budget <= n
    ensures forall k | 0 <= k < budget ::
              Follows(Chain(n), ChainFan(n), ChainRun(n, budget)[k], ChainRun(n, budget)[k + 1])
  {
    forall k | 0 <= k < budget
      ensures Follows(Chain(n), ChainFan(n), ChainRun(n, budget)[k], ChainRun(n, budget)[k + 1])
    {
      ChainRound(n, k);
    }
  }

  lemma ChainRounds(n: nat, budget: nat)
    requires budget <= n
    ensures Rounds(Chain(n), ChainFan(n), Fetched(ChainAt(n, 0)), [0], budget) ==
            Outcome(Fetched(ChainAt(n, budget)), [budget], 0)
  {
    ChainRunFollows(n, budget);
    EndlessRounds(Chain(n), ChainFan(n), ChainRun(n, budget));
  }

  /** One layer more than `RankedReachesFixpoint` allows and a perfectly acyclic netlist is left
      unsettled with nothing listed: the last unit never hears of its input, and the retry
      changes nothing. */
  lemma DeepChainLosesUpdate(n: nat)
    requires n == 10001
    ensures var e := ChainAt(n, 0);
            var after := Evaluate(Chain(n), ChainFan(n), e);
            && SoleDrivers(Chain(n)) && Wired(Chain(n), ChainFan(n))
            && Ranked(Chain(n), ChainRank(n)) && DepthAtMost(ChainRank(n), n)
            && NothingLost(Chain(n), e, Front([], [], [], {}))
            && after.pending == [] && !Settled(Chain(n), after, n - 1)
            && Evaluate(Chain(n), ChainFan(n), after) == after
  {
    ChainIsRanked(n);
    ChainStarts(n);
    ChainRounds(n, n - 1);
    ChainUnit(n, n - 1, ChainAt(n, n - 1).levels);
  }
}
