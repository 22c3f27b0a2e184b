/** The PCH rail chain of the sbp1 board on the propagation engine, input filters set to 0. */
module PchRails {
  import opened Netlist
  import opened Propagation
  import Convergence
  import Hold

  datatype Rail = P3V3 | P1V8 | P1V05
  datatype Cpu = Cpu0 | Cpu1 | Cpu2 | Cpu3

  datatype Sig =
    | On(rail: Rail) | PowerGood(rail: Rail) | Enabled(rail: Rail) | Fault(rail: Rail) | IsDummy(rail: Rail)
    | P5VIsDummy | CpuVrOff(cpu: Cpu) | Rtcrst | Chassis
    | VrOff | VrFault | FaultShutdown | DummyPresent

  /** Units by the signal they drive; every other signal is a source. */
  type Pch = Net<Sig, Sig>

  function Plain(s: Sig): Input<Sig> {
    Input(s, false)
  }

  function Not(s: Sig): Input<Sig> {
    Input(s, true)
  }

  const P3V3_UNIT := Unit([Not(Rtcrst), Plain(Chassis), Not(FaultShutdown), Not(DummyPresent)],
                          [Plain(PowerGood(P1V8))], true, false, false, On(P3V3))

  const P1V8_UNIT := Unit([Plain(Chassis), Plain(PowerGood(P3V3)), Plain(PowerGood(P3V3)),
                           Not(FaultShutdown), Not(DummyPresent)],
                          [Plain(PowerGood(P1V05))], true, false, false, On(P1V8))

  const P1V05_UNIT := Unit([Plain(Chassis), Plain(PowerGood(P1V8)), Plain(PowerGood(P1V8)),
                            Not(FaultShutdown), Not(DummyPresent)],
                           [Not(CpuVrOff(Cpu0)), Not(CpuVrOff(Cpu1)), Not(CpuVrOff(Cpu2)), Not(CpuVrOff(Cpu3))],
                           true, false, false, On(P1V05))

  const VR_OFF_UNIT := Unit([], [Plain(Enabled(P1V05)), Plain(Enabled(P1V8)), Plain(Enabled(P3V3)),
                                 Plain(PowerGood(P1V05)), Plain(PowerGood(P1V8)), Plain(PowerGood(P3V3)),
                                 Plain(VrFault)],
                            false, false, true, VrOff)

  const VR_FAULT_UNIT := Unit([], [Plain(Fault(P1V05)), Plain(Fault(P1V8)), Plain(Fault(P3V3))],
                              false, false, false, VrFault)

  const FAULT_KEEP_UNIT := Unit([Not(VrOff)], [Plain(VrFault), Plain(FaultShutdown)],
                                false, false, false, FaultShutdown)

  const DUMMY_UNIT := Unit([], [Plain(IsDummy(P3V3)), Plain(IsDummy(P1V8)), Plain(IsDummy(P1V05)), Plain(P5VIsDummy)],
                           false, false, false, DummyPresent)

  const OUTPUTS := {On(P3V3), On(P1V8), On(P1V05), VrOff, VrFault, FaultShutdown, DummyPresent}

  function UnitOf(s: Sig): (u: Unit<Sig>)
    requires s in OUTPUTS
    ensures u.out == s
  {
    match s
    case On(P3V3) => P3V3_UNIT
    case On(P1V8) => P1V8_UNIT
    case On(P1V05) => P1V05_UNIT
    case VrOff => VR_OFF_UNIT
    case VrFault => VR_FAULT_UNIT
    case FaultShutdown => FAULT_KEEP_UNIT
    case DummyPresent => DUMMY_UNIT
  }

  const NET: Pch := map s | s in OUTPUTS :: UnitOf(s)

  function Layer(s: Sig): nat {
    match s
    case On(_) => 4
    case FaultShutdown => 3
    case VrOff => 2
    case VrFault => 1
    case DummyPresent => 1
    case _ => 0
  }

  const RANK: map<Sig, nat> := map s | s in OUTPUTS :: Layer(s)

  // ---------- The netlist is one the engine's theorems are about ----------

  lemma FaultKeepIsHold()
    ensures Hold.HoldShape(NET[FaultShutdown], VrFault, VrOff)
    ensures Wakers(NET[FaultShutdown]) == {VrFault, VrOff}
  {
  }

  ghost predicate AllBelow(ins: seq<Input<Sig>>, layer: nat) {
    forall k | 0 <= k < |ins| :: Layer(ins[k].signal) < layer
  }

  ghost predicate Below(u: Unit<Sig>) {
    AllBelow(u.ands, Layer(u.out)) && AllBelow(u.ors, Layer(u.out))
  }

  lemma UnitIsLayered(u: Sig)
    requires u in OUTPUTS && u != FaultShutdown
    ensures Below(UnitOf(u))
  {
  }

  lemma WakersBelow(u: Unit<Sig>, s: Sig)
    requires Below(u) && s in Wakers(u)
    ensures Layer(s) < Layer(u.out)
  {
  }

  lemma RankIsLayer(s: Sig)
    ensures RankOf(RANK, s) == Layer(s) <= 4
  {
    if s.On? {
      match s.rail
      case P3V3 =>
      case P1V8 =>
      case P1V05 =>
    }
  }

  lemma UnitIsRanked(u: Sig)
    requires u in OUTPUTS
    ensures RankOf(RANK, u) >= 1
    ensures forall s | s in Wakers(UnitOf(u)) :: RankOf(RANK, s) < RankOf(RANK, u)
  {
    RankIsLayer(u);
    forall s | s in Wakers(UnitOf(u))
      ensures RankOf(RANK, s) < RankOf(RANK, u)
    {
      RankIsLayer(s);
      if u == FaultShutdown {
        FaultKeepIsHold();
      } else {
        UnitIsLayered(u);
        WakersBelow(UnitOf(u), s);
      }
    }
  }

  /** Every signal has one driver, and but for the fault hold the units form layers. */
  lemma NetIsRanked()
    ensures SoleDrivers(NET) && Ranked(NET, RANK) && DepthAtMost(RANK, 4)
  {
    forall u | u in NET
      ensures NET[u].out == u && RankOf(RANK, u) >= 1
      ensures forall s | s in Wakers(NET[u]) :: RankOf(RANK, s) < RankOf(RANK, u)
    {
      UnitIsRanked(u);
    }
    forall s | s in RANK
      ensures RANK[s] <= 4
    {
      RankIsLayer(s);
    }
  }

  /** The units are looked at without the board's other units, whose outputs are sources. */
  ghost predicate Alone(e: Engine<Sig, Sig>) {
    e.foreign == map[] && e.script == []
  }

  ghost predicate Is(e: Engine<Sig, Sig>, s: Sig, level: Level) {
    At(e.levels, s) == level
  }

  /** Some CPU rail is not off yet: the term that keeps p1v05 on. */
  ghost predicate CpuHolds(e: Engine<Sig, Sig>) {
    exists c: Cpu :: Is(e, CpuVrOff(c), 0)
  }

  /** No shutdown by fault, and no dummy regulator. */
  ghost predicate Clear(e: Engine<Sig, Sig>) {
    Is(e, FaultShutdown, 0) && Is(e, DummyPresent, 0)
  }

  lemma P3v3Gate(e: Engine<Sig, Sig>)
    ensures Gate(P3V3_UNIT, e.levels) <==>
              (Is(e, Rtcrst, 0) && Is(e, Chassis, 1) && Clear(e)) || Is(e, PowerGood(P1V8), 1)
  {
    var u := P3V3_UNIT;
    assert u.ands[0] in u.ands && u.ands[1] in u.ands && u.ands[2] in u.ands && u.ands[3] in u.ands &&
           u.ors[0] in u.ors;
  }

  lemma P1v8Gate(e: Engine<Sig, Sig>)
    ensures Gate(P1V8_UNIT, e.levels) <==>
              (Is(e, Chassis, 1) && Is(e, PowerGood(P3V3), 1) && Clear(e)) || Is(e, PowerGood(P1V05), 1)
  {
    var u := P1V8_UNIT;
    assert u.ands[0] in u.ands && u.ands[1] in u.ands && u.ands[3] in u.ands && u.ands[4] in u.ands &&
           u.ors[0] in u.ors;
  }

  lemma P1v05Gate(e: Engine<Sig, Sig>)
    ensures Gate(P1V05_UNIT, e.levels) <==>
              (Is(e, Chassis, 1) && Is(e, PowerGood(P1V8), 1) && Clear(e)) || CpuHolds(e)
  {
    var u := P1V05_UNIT;
    assert u.ands[0] in u.ands && u.ands[1] in u.ands && u.ands[3] in u.ands && u.ands[4] in u.ands;
    assert u.ors[0] in u.ors && u.ors[1] in u.ors && u.ors[2] in u.ors && u.ors[3] in u.ors;
    CpuHoldsCases(e);
  }

  // ---------- The rails power up and down in order ----------

  lemma OutputAtFixpoint(e: Engine<Sig, Sig>, s: Sig)
    requires Fixpoint(NET, e) && s in OUTPUTS
    ensures Is(e, s, 1) <==> Gate(UnitOf(s), e.levels)
    ensures Is(e, s, 0) <==> !Gate(UnitOf(s), e.levels)
  {
    assert s in NET && Settled(NET, e, s);
  }

  lemma CpuHoldsCases(e: Engine<Sig, Sig>)
    ensures CpuHolds(e) <==> || Is(e, CpuVrOff(Cpu0), 0) || Is(e, CpuVrOff(Cpu1), 0)
                             || Is(e, CpuVrOff(Cpu2), 0) || Is(e, CpuVrOff(Cpu3), 0)
  {
    if c: Cpu :| Is(e, CpuVrOff(c), 0) {
      assert c == Cpu0 || c == Cpu1 || c == Cpu2 || c == Cpu3;
    }
  }

  /** At a fixpoint: what each rail is told. */
  lemma RailsAtFixpoint(e: Engine<Sig, Sig>)
    requires Fixpoint(NET, e)
    ensures At(e.levels, On(P3V3)) == 1 <==>
              || (At(e.levels, Rtcrst) == 0 && At(e.levels, Chassis) == 1
                  && At(e.levels, FaultShutdown) == 0 && At(e.levels, DummyPresent) == 0)
              || At(e.levels, PowerGood(P1V8)) == 1
    ensures At(e.levels, On(P1V8)) == 1 <==>
              || (At(e.levels, Chassis) == 1 && At(e.levels, PowerGood(P3V3)) == 1
                  && At(e.levels, FaultShutdown) == 0 && At(e.levels, DummyPresent) == 0)
              || At(e.levels, PowerGood(P1V05)) == 1
    ensures At(e.levels, On(P1V05)) == 1 <==>
              || (At(e.levels, Chassis) == 1 && At(e.levels, PowerGood(P1V8)) == 1
                  && At(e.levels, FaultShutdown) == 0 && At(e.levels, DummyPresent) == 0)
              || At(e.levels, CpuVrOff(Cpu0)) == 0 || At(e.levels, CpuVrOff(Cpu1)) == 0
              || At(e.levels, CpuVrOff(Cpu2)) == 0 || At(e.levels, CpuVrOff(Cpu3)) == 0
  {
    OutputAtFixpoint(e, On(P3V3));
    OutputAtFixpoint(e, On(P1V8));
    OutputAtFixpoint(e, On(P1V05));
    P3v3Gate(e);
    P1v8Gate(e);
    P1v05Gate(e);
    CpuHoldsCases(e);
  }

  /** The same with the abbreviations. */
  lemma CommandsAtFixpoint(e: Engine<Sig, Sig>)
    requires Fixpoint(NET, e)
    ensures Is(e, On(P3V3), 1) <==> (Is(e, Rtcrst, 0) && Is(e, Chassis, 1) && Clear(e)) || Is(e, PowerGood(P1V8), 1)
    ensures Is(e, On(P1V8), 1) <==>
            (Is(e, Chassis, 1) && Is(e, PowerGood(P3V3), 1) && Clear(e)) || Is(e, PowerGood(P1V05), 1)
    ensures Is(e, On(P1V05), 1) <==> (Is(e, Chassis, 1) && Is(e, PowerGood(P1V8), 1) && Clear(e)) || CpuHolds(e)
  {
    RailsAtFixpoint(e);
    CpuHoldsCases(e);
  }

  ghost function Driven(e: Engine<Sig, Sig>, changes: seq<(Sig, bool)>): Engine<Sig, Sig>
    decreases |changes|
  {
    if changes == [] then e else Driven(SetLevel(e, changes[0].0, changes[0].1), changes[1..])
  }

  /** A rail becomes good only while told to be on, and stops being good only while not. */
  ghost predicate FollowCommands(e: Engine<Sig, Sig>, n: Engine<Sig, Sig>) {
    && (forall r: Rail :: Is(n, PowerGood(r), 1) && !Is(e, PowerGood(r), 1) ==> Is(e, On(r), 1))
    && (forall r: Rail :: !Is(n, PowerGood(r), 1) && Is(e, PowerGood(r), 1) ==> !Is(e, On(r), 1))
  }

  /** How the world may answer a fixpoint `e`: with any changes of any sources, as long as
      every regulator follows its command and CPU rails are switched on only with p1v05 good.
      Faults, dummies, RTCRST and the chassis request are free. */
  ghost predicate Answers(e: Engine<Sig, Sig>, changes: seq<(Sig, bool)>) {
    var n := Driven(e, changes);
    && (forall c | c in changes :: !IsOutput(NET, c.0))
    && FollowCommands(e, n)
    && (CpuHolds(n) && !CpuHolds(e) ==> Is(e, PowerGood(P1V05), 1) && Is(n, PowerGood(P1V05), 1))
  }

  /** RTCRST has taken back the command of p3v3 but not the one of p1v8, and both answers
      arrive before the next evaluation. */
  ghost predicate ResetRace(e: Engine<Sig, Sig>, n: Engine<Sig, Sig>) {
    && !Is(e, Rtcrst, 0)
    && !Is(e, PowerGood(P1V8), 1) && Is(n, PowerGood(P1V8), 1)
    && Is(e, PowerGood(P3V3), 1) && !Is(n, PowerGood(P3V3), 1)
  }

  /** What rules the race out beforehand: RTCRST low, or one source changing at a time. */
  ghost predicate Careful(e: Engine<Sig, Sig>, changes: seq<(Sig, bool)>) {
    Is(e, Rtcrst, 0) || |changes| <= 1
  }

  /** Power-good is closed under prefixes of the chain, and CPU rails need the whole chain. */
  ghost predicate Chain(e: Engine<Sig, Sig>) {
    && (Is(e, PowerGood(P1V8), 1) ==> Is(e, PowerGood(P3V3), 1))
    && (Is(e, PowerGood(P1V05), 1) ==> Is(e, PowerGood(P1V8), 1))
    && (CpuHolds(e) ==> Is(e, PowerGood(P1V05), 1))
  }

  /** A run: the world answers, the engine evaluates. */
  ghost predicate Possible(fan: Fan<Sig, Sig>, e: Engine<Sig, Sig>, run: seq<seq<(Sig, bool)>>)
    decreases |run|
  {
    run == [] ||
    (Answers(e, run[0]) && Careful(e, run[0]) && Possible(fan, Evaluate(NET, fan, Driven(e, run[0])), run[1..]))
  }

  ghost function After(fan: Fan<Sig, Sig>, e: Engine<Sig, Sig>, run: seq<seq<(Sig, bool)>>): Engine<Sig, Sig>
    decreases |run|
  {
    if run == [] then e else After(fan, Evaluate(NET, fan, Driven(e, run[0])), run[1..])
  }

  lemma {:induction false} DrivenKeeps(e: Engine<Sig, Sig>, changes: seq<(Sig, bool)>)
    requires NothingLost(NET, e, Front([], [], [], {})) && forall c | c in changes :: !IsOutput(NET, c.0)
    ensures NothingLost(NET, Driven(e, changes), Front([], [], [], {}))
    ensures Alone(e) ==> Alone(Driven(e, changes))
    decreases |changes|
  {
    if changes != [] {
      assert changes[0] in changes;
      SourceKeeps(NET, e, Front([], [], [], {}), changes[0].0, changes[0].1);
      DrivenKeeps(SetLevel(e, changes[0].0, changes[0].1), changes[1..]);
    }
  }

  lemma FixpointLosesNothing(e: Engine<Sig, Sig>)
    requires Fixpoint(NET, e) && Alone(e)
    ensures NothingLost(NET, e, Front([], [], [], {}))
  {
  }

  lemma AnswerReachesFixpoint(fan: Fan<Sig, Sig>, e: Engine<Sig, Sig>, changes: seq<(Sig, bool)>)
    requires Wired(NET, fan) && Fixpoint(NET, e) && Alone(e) && forall c | c in changes :: !IsOutput(NET, c.0)
    ensures Fixpoint(NET, Evaluate(NET, fan, Driven(e, changes))) && Alone(Evaluate(NET, fan, Driven(e, changes)))
  {
    FixpointLosesNothing(e);
    DrivenKeeps(e, changes);
    NetIsRanked();
    Convergence.RankedReachesFixpoint(NET, fan, Driven(e, changes), RANK, 4);
    EvaluateLater(NET, fan, Driven(e, changes));
  }

  /** What the chain is about are sources, which the evaluation leaves alone. */
  lemma SourcesStay(fan: Fan<Sig, Sig>, e: Engine<Sig, Sig>)
    requires Alone(e)
    ensures var n := Evaluate(NET, fan, e);
            && (forall r: Rail :: At(n.levels, PowerGood(r)) == At(e.levels, PowerGood(r)))
            && (forall c: Cpu :: At(n.levels, CpuVrOff(c)) == At(e.levels, CpuVrOff(c)))
            && Chain(n) == Chain(e)
  {
    var n := Evaluate(NET, fan, e);
    forall r: Rail
      ensures At(n.levels, PowerGood(r)) == At(e.levels, PowerGood(r))
    {
      Convergence.SourcesUnchanged(NET, fan, e, PowerGood(r));
    }
    forall c: Cpu
      ensures At(n.levels, CpuVrOff(c)) == At(e.levels, CpuVrOff(c))
    {
      Convergence.SourcesUnchanged(NET, fan, e, CpuVrOff(c));
    }
    assert forall c: Cpu :: Is(n, CpuVrOff(c), 0) == Is(e, CpuVrOff(c), 0);
  }

  /** Exactly when an answer keeps the chain: unless it is the race. */
  lemma AnswerKeepsChainIff(e: Engine<Sig, Sig>, changes: seq<(Sig, bool)>)
    requires Fixpoint(NET, e) && Chain(e) && Answers(e, changes)
    ensures Chain(Driven(e, changes)) <==> !ResetRace(e, Driven(e, changes))
  {
    CommandsAtFixpoint(e);
  }

  lemma CarefulIsNoRace(e: Engine<Sig, Sig>, changes: seq<(Sig, bool)>)
    requires Careful(e, changes)
    ensures !ResetRace(e, Driven(e, changes))
  {
    if |changes| == 1 {
      assert changes == [(changes[0].0, changes[0].1)];
      DrivenOne(e, changes[0].0, changes[0].1);
    }
  }

  /** Powering up and powering down, whatever the world does within those rules: at every
      fixpoint p1v05 good implies p1v8 good implies p3v3 good. */
  lemma {:induction false} RailsInOrder(fan: Fan<Sig, Sig>, e: Engine<Sig, Sig>, run: seq<seq<(Sig, bool)>>)
    requires Wired(NET, fan) && Fixpoint(NET, e) && Alone(e) && Chain(e) && Possible(fan, e, run)
    ensures Fixpoint(NET, After(fan, e, run)) && Chain(After(fan, e, run))
    decreases |run|
  {
    if run != [] {
      AnswerReachesFixpoint(fan, e, run[0]);
      AnswerKeepsChainIff(e, run[0]);
      CarefulIsNoRace(e, run[0]);
      FixpointLosesNothing(e);
      DrivenKeeps(e, run[0]);
      SourcesStay(fan, Driven(e, run[0]));
      RailsInOrder(fan, Evaluate(NET, fan, Driven(e, run[0])), run[1..]);
    }
  }

  /** The chain does break under reset: with p3v3 good, p1v8 coming up and RTCRST high, p3v3 is
      told to go down and p1v8 to come up. If both have obeyed when the next evaluation runs,
      p1v8 is good without p3v3. */
  lemma ResetRaceBreaksChain(e: Engine<Sig, Sig>)
    requires Fixpoint(NET, e) && Chain(e) && Clear(e)
    requires Is(e, Rtcrst, 1) && Is(e, Chassis, 1) && Is(e, PowerGood(P3V3), 1) && Is(e, PowerGood(P1V8), 0)
    ensures Answers(e, RaceChanges()) && !Chain(Driven(e, RaceChanges()))
  {
    RaceCommands(e);
    RaceLevels(e);
    RaceIsAnswer(e);
  }

  ghost function RaceChanges(): seq<(Sig, bool)> {
    [(PowerGood(P1V8), true), (PowerGood(P3V3), false)]
  }

  lemma RaceCommands(e: Engine<Sig, Sig>)
    requires Fixpoint(NET, e) && Chain(e) && Clear(e)
    requires Is(e, Rtcrst, 1) && Is(e, Chassis, 1) && Is(e, PowerGood(P3V3), 1) && Is(e, PowerGood(P1V8), 0)
    ensures !Is(e, On(P3V3), 1) && Is(e, On(P1V8), 1)
  {
    CommandsAtFixpoint(e);
  }

  lemma RaceLevels(e: Engine<Sig, Sig>)
    ensures var n := Driven(e, RaceChanges());
            && Is(n, PowerGood(P1V8), 1) && Is(n, PowerGood(P3V3), 0)
            && forall t | t != PowerGood(P1V8) && t != PowerGood(P3V3) :: At(n.levels, t) == At(e.levels, t)
  {
    var up := SetLevel(e, PowerGood(P1V8), true);
    assert RaceChanges()[1..] == [(PowerGood(P3V3), false)];
    DrivenOne(up, PowerGood(P3V3), false);
  }

  lemma RaceIsAnswer(e: Engine<Sig, Sig>)
    requires !Is(e, On(P3V3), 1) && Is(e, On(P1V8), 1)
    ensures Answers(e, RaceChanges())
  {
    RaceFollows(e);
    RaceHolds(e);
  }

  lemma RaceFollows(e: Engine<Sig, Sig>)
    requires !Is(e, On(P3V3), 1) && Is(e, On(P1V8), 1)
    ensures FollowCommands(e, Driven(e, RaceChanges()))
  {
    RaceLevels(e);
    assert At(Driven(e, RaceChanges()).levels, PowerGood(P1V05)) == At(e.levels, PowerGood(P1V05));
  }

  lemma RaceHolds(e: Engine<Sig, Sig>)
    ensures CpuHolds(Driven(e, RaceChanges())) ==> CpuHolds(e)
  {
    RaceLevels(e);
    if c: Cpu :| Is(Driven(e, RaceChanges()), CpuVrOff(c), 0) {
      assert Is(e, CpuVrOff(c), 0);
    }
  }

  /** The rule for CPU rails is needed: one that is on while p1v05 is not good switches p1v05
      on ahead of the rails before it. */
  lemma EarlyCpuBreaksChain(fan: Fan<Sig, Sig>, e: Engine<Sig, Sig>)
    requires Wired(NET, fan) && Fixpoint(NET, e) && Alone(e)
    requires !Is(e, PowerGood(P1V05), 1) && !Is(e, PowerGood(P1V8), 1)
    ensures var n := Evaluate(NET, fan, Driven(e, [(CpuVrOff(Cpu0), false)]));
            var m := Driven(n, [(PowerGood(P1V05), true)]);
            Fixpoint(NET, n) && Is(n, On(P1V05), 1) && FollowCommands(n, m) && !Chain(m)
  {
    var changes := [(CpuVrOff(Cpu0), false)];
    AnswerReachesFixpoint(fan, e, changes);
    EarlyCpuLevels(fan, e);
    HeldCommandBreaks(Evaluate(NET, fan, Driven(e, changes)));
  }

  lemma EarlyCpuLevels(fan: Fan<Sig, Sig>, e: Engine<Sig, Sig>)
    requires Alone(e)
    ensures var n := Evaluate(NET, fan, Driven(e, [(CpuVrOff(Cpu0), false)]));
            Is(n, CpuVrOff(Cpu0), 0) && At(n.levels, PowerGood(P1V8)) == At(e.levels, PowerGood(P1V8))
  {
    DrivenOne(e, CpuVrOff(Cpu0), false);
    SourcesStay(fan, Driven(e, [(CpuVrOff(Cpu0), false)]));
  }

  lemma HeldCommandBreaks(n: Engine<Sig, Sig>)
    requires Fixpoint(NET, n) && Is(n, CpuVrOff(Cpu0), 0) && !Is(n, PowerGood(P1V8), 1)
    ensures var m := Driven(n, [(PowerGood(P1V05), true)]);
            Is(n, On(P1V05), 1) && FollowCommands(n, m) && !Chain(m)
  {
    assert CpuHolds(n);
    CommandsAtFixpoint(n);
    CommandedUp(n, P1V05);
  }

  lemma CommandedUp(n: Engine<Sig, Sig>, rail: Rail)
    requires Is(n, On(rail), 1)
    ensures var m := Driven(n, [(PowerGood(rail), true)]);
            && FollowCommands(n, m) && Is(m, PowerGood(rail), 1)
            && forall r: Rail | r != rail :: At(m.levels, PowerGood(r)) == At(n.levels, PowerGood(r))
  {
    DrivenOne(n, PowerGood(rail), true);
  }

  lemma DrivenOne(e: Engine<Sig, Sig>, s: Sig, value: bool)
    ensures Driven(e, [(s, value)]) == SetLevel(e, s, value)
    ensures forall t :: At(Driven(e, [(s, value)]).levels, t) == if t == s then FromBool(value) else At(e.levels, t)
  {
  }

  /** So a rail is told to come up only when the one before it is good, and to go down only
      when the one after it has gone; with a fault latched no rail is told to come up. */
  lemma CommandsFollowChain(e: Engine<Sig, Sig>)
    requires Fixpoint(NET, e) && Chain(e)
    ensures Is(e, On(P1V8), 1) ==> Is(e, PowerGood(P3V3), 1)
    ensures Is(e, On(P1V05), 1) ==> Is(e, PowerGood(P1V8), 1)
    ensures Is(e, PowerGood(P1V8), 1) ==> Is(e, On(P3V3), 1)
    ensures Is(e, PowerGood(P1V05), 1) ==> Is(e, On(P1V8), 1)
    ensures CpuHolds(e) ==> Is(e, On(P1V05), 1)
    ensures !Clear(e) ==> forall r: Rail :: Is(e, On(r), 1) ==> Is(e, PowerGood(r), 1)
  {
    CommandsAtFixpoint(e);
    forall r: Rail | !Clear(e) && Is(e, On(r), 1)
      ensures Is(e, PowerGood(r), 1)
    {
      match r
      case P3V3 =>
      case P1V8 =>
      case P1V05 =>
    }
  }

  // ---------- The PCH fault latch ----------

  /** What keeps the latch from being cleared: a rail enabled or good. */
  ghost predicate RailUp(e: Engine<Sig, Sig>) {
    exists r: Rail :: Is(e, Enabled(r), 1) || Is(e, PowerGood(r), 1)
  }

  lemma RailUpCases(e: Engine<Sig, Sig>)
    ensures RailUp(e) <==>
              || Is(e, Enabled(P1V05), 1) || Is(e, Enabled(P1V8), 1) || Is(e, Enabled(P3V3), 1)
              || Is(e, PowerGood(P1V05), 1) || Is(e, PowerGood(P1V8), 1) || Is(e, PowerGood(P3V3), 1)
  {
    if r: Rail :| Is(e, Enabled(r), 1) || Is(e, PowerGood(r), 1) {
      assert r == P3V3 || r == P1V8 || r == P1V05;
    }
  }

  lemma VrOffGate(e: Engine<Sig, Sig>)
    ensures Gate(VR_OFF_UNIT, e.levels) <==> !(RailUp(e) || Is(e, VrFault, 1))
  {
    var u := VR_OFF_UNIT;
    RailUpCases(e);
    assert u.ors[0] in u.ors && u.ors[1] in u.ors && u.ors[2] in u.ors && u.ors[3] in u.ors && u.ors[4] in u.ors
           && u.ors[5] in u.ors && u.ors[6] in u.ors;
  }

  lemma VrFaultGate(e: Engine<Sig, Sig>)
    ensures Gate(VR_FAULT_UNIT, e.levels) <==>
              Is(e, Fault(P3V3), 1) || Is(e, Fault(P1V8), 1) || Is(e, Fault(P1V05), 1)
  {
    var u := VR_FAULT_UNIT;
    assert u.ors[0] in u.ors && u.ors[1] in u.ors && u.ors[2] in u.ors;
  }

  lemma DummyGate(e: Engine<Sig, Sig>)
    ensures Gate(DUMMY_UNIT, e.levels) <==>
              || Is(e, IsDummy(P3V3), 1) || Is(e, IsDummy(P1V8), 1) || Is(e, IsDummy(P1V05), 1)
              || Is(e, P5VIsDummy, 1)
  {
    var u := DUMMY_UNIT;
    assert u.ors[0] in u.ors && u.ors[1] in u.ors && u.ors[2] in u.ors && u.ors[3] in u.ors;
  }

  /** What the monitoring units say at a fixpoint: some rail is in fault, and no rail is on and
      none in fault. */
  lemma MonitorsAtFixpoint(e: Engine<Sig, Sig>)
    requires Fixpoint(NET, e)
    ensures At(e.levels, VrFault) == 1 <==> exists r: Rail :: At(e.levels, Fault(r)) == 1
    ensures At(e.levels, VrOff) == 1 <==>
              forall r: Rail :: At(e.levels, Enabled(r)) != 1 && At(e.levels, PowerGood(r)) != 1
                                && At(e.levels, Fault(r)) != 1
    ensures At(e.levels, VrFault) >= 0 && At(e.levels, VrOff) >= 0
  {
    OutputAtFixpoint(e, VrFault);
    OutputAtFixpoint(e, VrOff);
    VrFaultGate(e);
    VrOffGate(e);
    FaultCases(e);
    assert RailUp(e) <==> exists r: Rail :: At(e.levels, Enabled(r)) == 1 || At(e.levels, PowerGood(r)) == 1;
  }

  /** A dummy regulator is fitted. */
  lemma DummyAtFixpoint(e: Engine<Sig, Sig>)
    requires Fixpoint(NET, e)
    ensures At(e.levels, DummyPresent) >= 0
    ensures At(e.levels, DummyPresent) == 1 <==>
              At(e.levels, P5VIsDummy) == 1 || exists r: Rail :: At(e.levels, IsDummy(r)) == 1
  {
    OutputAtFixpoint(e, DummyPresent);
    DummyGate(e);
    DummyCases(e);
  }

  lemma FaultCases(e: Engine<Sig, Sig>)
    ensures (exists r: Rail :: At(e.levels, Fault(r)) == 1) <==>
              Is(e, Fault(P3V3), 1) || Is(e, Fault(P1V8), 1) || Is(e, Fault(P1V05), 1)
  {
    if r: Rail :| At(e.levels, Fault(r)) == 1 {
      assert r == P3V3 || r == P1V8 || r == P1V05;
    }
  }

  lemma DummyCases(e: Engine<Sig, Sig>)
    ensures (exists r: Rail :: At(e.levels, IsDummy(r)) == 1) <==>
              Is(e, IsDummy(P3V3), 1) || Is(e, IsDummy(P1V8), 1) || Is(e, IsDummy(P1V05), 1)
  {
    if r: Rail :| At(e.levels, IsDummy(r)) == 1 {
      assert r == P3V3 || r == P1V8 || r == P1V05;
    }
  }

  /** At a fixpoint the latch is high whenever a rail is in fault, and low once none is and all
      are off. */
  lemma LatchAtFixpoint(e: Engine<Sig, Sig>)
    requires Fixpoint(NET, e)
    ensures (exists r: Rail :: At(e.levels, Fault(r)) == 1) ==> At(e.levels, FaultShutdown) == 1
    ensures (forall r: Rail :: At(e.levels, Enabled(r)) != 1 && At(e.levels, PowerGood(r)) != 1
                               && At(e.levels, Fault(r)) != 1)
            ==> At(e.levels, FaultShutdown) == 0
  {
    OutputAtFixpoint(e, FaultShutdown);
    LatchSettles(e);
    MonitorsAtFixpoint(e);
  }

  lemma LatchSettles(e: Engine<Sig, Sig>)
    requires Fixpoint(NET, e)
    ensures Is(e, VrFault, 1) ==> Is(e, FaultShutdown, 1)
    ensures Is(e, VrOff, 1) ==> Is(e, FaultShutdown, 0)
  {
    OutputAtFixpoint(e, VrOff);
    OutputAtFixpoint(e, FaultShutdown);
    VrOffGate(e);
    FaultKeepIsHold();
    Hold.HoldGate(FAULT_KEEP_UNIT, VrFault, VrOff, e.levels);
  }

  /** So a rail's own fault switches every rail off that the one behind it does not need. */
  lemma FaultStopsRails(e: Engine<Sig, Sig>, faulty: Rail)
    requires Fixpoint(NET, e) && At(e.levels, Fault(faulty)) == 1
    ensures At(e.levels, On(P3V3)) == 1 <==> At(e.levels, PowerGood(P1V8)) == 1
    ensures At(e.levels, On(P1V8)) == 1 <==> At(e.levels, PowerGood(P1V05)) == 1
    ensures At(e.levels, On(P1V05)) == 1 <==> exists c: Cpu :: At(e.levels, CpuVrOff(c)) == 0
  {
    LatchAtFixpoint(e);
    RailsAtFixpoint(e);
    CpuHoldsCases(e);
    assert CpuHolds(e) <==> exists c: Cpu :: At(e.levels, CpuVrOff(c)) == 0;
  }

  lemma RunSpares(e: Engine<Sig, Sig>, u: Sig, s: Sig)
    requires s != u && Alone(e)
    ensures At(Update(NET, e, u).levels, s) == At(e.levels, s)
  {
    if u in NET {
      assert NET[u] == UnitOf(u);
      UpdateMovesOutput(NET, e, u, s);
    }
  }

  lemma RailStaysUp(e: Engine<Sig, Sig>, u: Sig)
    requires RailUp(e) && Alone(e)
    ensures RailUp(Update(NET, e, u))
  {
    var r: Rail :| Is(e, Enabled(r), 1) || Is(e, PowerGood(r), 1);
    if u in NET {
      RunSpares(e, u, Enabled(r));
      RunSpares(e, u, PowerGood(r));
    }
  }

  lemma VrOffStaysLow(e: Engine<Sig, Sig>, u: Sig)
    requires RailUp(e) && Is(e, VrOff, 0) && Alone(e)
    ensures Is(Update(NET, e, u), VrOff, 0)
  {
    if u == VrOff {
      VrOffGate(e);
      assert NET[u] == VR_OFF_UNIT;
    } else {
      RunSpares(e, u, VrOff);
    }
  }

  lemma LatchOutputStays(e: Engine<Sig, Sig>, u: Sig)
    requires CacheShown(NET, e) && Is(e, FaultShutdown, 1) && Is(e, VrOff, 0)
    ensures Is(Update(NET, e, u), FaultShutdown, 1)
  {
    NetIsRanked();
    FaultKeepIsHold();
    Hold.HoldStep(NET, e, Hold.Run(u), FaultShutdown, VrFault, VrOff);
  }

  lemma CacheStaysShown(e: Engine<Sig, Sig>, u: Sig)
    requires CacheShown(NET, e)
    ensures CacheShown(NET, Update(NET, e, u))
  {
    NetIsRanked();
    Hold.OutputStep(NET, e, Hold.Run(u), FaultShutdown);
  }

  /** While the latch is set, the off signal low and a rail up, a unit's update changes none
      of these. */
  lemma LatchStep(e: Engine<Sig, Sig>, u: Sig)
    requires CacheShown(NET, e) && Alone(e) && RailUp(e) && Is(e, FaultShutdown, 1) && Is(e, VrOff, 0)
    ensures var n := Update(NET, e, u);
            CacheShown(NET, n) && Alone(n) && RailUp(n) && Is(n, FaultShutdown, 1) && Is(n, VrOff, 0)
  {
    UpdateLater(NET, e, u);
    CacheStaysShown(e, u);
    LatchOutputStays(e, u);
    RailStaysUp(e, u);
    VrOffStaysLow(e, u);
  }

  lemma {:induction false} LatchStaysOverRun(e: Engine<Sig, Sig>, moves: seq<Hold.Move<Sig, Sig>>)
    requires CacheShown(NET, e) && Alone(e) && RailUp(e) && Is(e, FaultShutdown, 1) && Is(e, VrOff, 0)
    requires forall m | m in moves :: m.Run?
    ensures Is(Hold.Trace(NET, e, moves), FaultShutdown, 1)
    decreases |moves|
  {
    if moves != [] {
      assert moves[0] in moves;
      LatchStep(e, moves[0].unit);
      LatchStaysOverRun(Hold.Step(NET, e, moves[0]), moves[1..]);
    }
  }

  /** The faults may go and any source may change: while a rail stays enabled or good, no
      evaluation clears the latch. */
  lemma LatchStays(fan: Fan<Sig, Sig>, e: Engine<Sig, Sig>, changes: seq<(Sig, bool)>)
    requires Fixpoint(NET, e) && Alone(e) && Is(e, FaultShutdown, 1) && forall c | c in changes :: !IsOutput(NET, c.0)
    requires var d := Driven(e, changes);
             exists r: Rail :: At(d.levels, Enabled(r)) == 1 || At(d.levels, PowerGood(r)) == 1
    ensures At(Evaluate(NET, fan, Driven(e, changes)).levels, FaultShutdown) == 1
  {
    var d := Driven(e, changes);
    assert RailUp(d);
    FixpointLosesNothing(e);
    DrivenKeeps(e, changes);
    DrivenSpares(e, changes, FaultShutdown);
    DrivenSpares(e, changes, VrOff);
    NetIsRanked();
    FaultKeepIsHold();
    assert Settled(NET, e, FaultShutdown);
    Hold.HoldGate(NET[FaultShutdown], VrFault, VrOff, e.levels);
    var moves := Hold.EvaluationHolds(NET, fan, d, FaultShutdown, VrFault, VrOff);
    LatchStaysOverRun(d, moves);
  }

  lemma {:induction false} DrivenSpares(e: Engine<Sig, Sig>, changes: seq<(Sig, bool)>, u: Sig)
    requires u in NET && forall c | c in changes :: !IsOutput(NET, c.0)
    ensures At(Driven(e, changes).levels, NET[u].out) == At(e.levels, NET[u].out)
    decreases |changes|
  {
    if changes != [] {
      assert changes[0] in changes;
      DrivenSpares(SetLevel(e, changes[0].0, changes[0].1), changes[1..], u);
    }
  }
}
