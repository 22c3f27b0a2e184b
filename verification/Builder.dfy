/** Building the circuit from the units of a configuration. */
module Builder {
  import opened Options
  import opened Circuit
  import opened Propagation
  import opened Replay
  import IoQueue

  datatype InputConfig = InputConfig(name: string, invert: bool, stable: nat)

  datatype UnitConfig = UnitConfig(ands: seq<InputConfig>, ors: seq<InputConfig>, andThenOr: bool, invertFirst: bool,
                                   activeLow: bool, delay: nat, out: string)

  ghost predicate IsInput(i: LogicInput, cfg: InputConfig) {
    i.input.name == cfg.name && i.invert == cfg.invert && i.inputStableUsec == cfg.stable
  }

  ghost predicate AreInputs(ins: seq<LogicInput>, cfgs: seq<InputConfig>) {
    |ins| == |cfgs| && forall k | 0 <= k < |ins| :: IsInput(ins[k], cfgs[k])
  }

  ghost predicate IsUnit(l: Logic, cfg: UnitConfig) {
    && AreInputs(l.andInputs, cfg.ands) && AreInputs(l.orInputs, cfg.ors)
    && l.andThenOr == cfg.andThenOr && l.invertFirstGate == cfg.invertFirst && l.outputActiveLow == cfg.activeLow
    && l.delayOutputUsec == cfg.delay && l.signal.name == cfg.out
  }

  ghost predicate NamelessInput(cfgs: seq<InputConfig>) {
    exists c | c in cfgs :: c.name == ""
  }

  /** A unit with an input or an output without a name. */
  ghost predicate Nameless(cfg: UnitConfig) {
    cfg.out == "" || NamelessInput(cfg.ands) || NamelessInput(cfg.ors)
  }

  /** As long as nothing has been evaluated: every signal is listed, and all have names. */
  ghost predicate AllListed(sp: SignalProvider)
    reads sp
  {
    "" !in sp.signals && forall s | s in sp.signals.Values :: s in sp.Active()
  }

  /** The signals added so far, if all is well. */
  ghost function Wires(sp: SignalProvider, logic: seq<Logic>): Option<set<Signal>>
    reads sp, sp.signals.Values
  {
    if Connected(sp, logic) && AllListed(sp) then Some(sp.signals.Values) else None
  }

  /** The signal of that name, added if it is not known; one without a name is refused. Units
      built before stay connected. */
  method FindSignal(sp: SignalProvider, ghost logic: seq<Logic>, name: string, now: nat) returns (s: Option<Signal>)
    requires Wires(sp, logic).Some?
    modifies sp`signals, sp`dirtyA, sp`dirtyB, sp`notices
    ensures Wires(sp, logic).Some? && old(sp.signals.Values) <= sp.signals.Values
    ensures forall s | s in sp.signals.Values :: s in old(sp.signals.Values) || fresh(s)
    ensures s.None? <==> name == ""
    ensures s.Some? ==> s.value in sp.signals.Values && s.value.name == name
  {
    ghost var before := sp.signals;
    s := sp.FindOrAdd(name, now);
    assert forall n | n in before :: n in sp.signals && sp.signals[n] == before[n];
    assert s.Some? ==> sp.signals[name] == s.value;
  }

  method BuildInputs(sp: SignalProvider, ghost logic: seq<Logic>, cfgs: seq<InputConfig>, now: nat, garbage: bool)
      returns (ins: Option<seq<LogicInput>>)
    requires Wires(sp, logic).Some?
    modifies sp`signals, sp`dirtyA, sp`dirtyB, sp`notices
    ensures Wires(sp, logic).Some? && old(sp.signals.Values) <= sp.signals.Values
    ensures forall s | s in sp.signals.Values :: s in old(sp.signals.Values) || fresh(s)
    ensures ins.None? <==> NamelessInput(cfgs)
    ensures ins.Some? ==> AreInputs(ins.value, cfgs) && forall i | i in ins.value :: i.input in sp.signals.Values
  {
    var built: seq<LogicInput> := [];
    for k := 0 to |cfgs|
      invariant Wires(sp, logic).Some? && old(sp.signals.Values) <= sp.signals.Values
      invariant forall c | c in cfgs[..k] :: c.name != ""
      invariant forall s | s in sp.signals.Values :: s in old(sp.signals.Values) || fresh(s)
      invariant AreInputs(built, cfgs[..k]) && forall i | i in built :: i.input in sp.signals.Values
    {
      var s := FindSignal(sp, logic, cfgs[k].name, now);
      if s.None? {
        assert cfgs[k] in cfgs;
        return None;
      }
      var i := new LogicInput(s.value, cfgs[k].invert, cfgs[k].stable, now, garbage);
      built := built + [i];
    }
    assert cfgs[..|cfgs|] == cfgs;
    ins := Some(built);
  }

  /** Registers a unit's inputs with the signals they read, in order. */
  method Register(sp: SignalProvider, ghost logic: seq<Logic>, l: Logic)
    requires Connected(sp, logic) && l !in logic && l.signal in sp.signals.Values
    requires forall i | i in l.InputSet() :: i.input in sp.signals.Values
    modifies sp.signals.Values`receivers
    ensures Connected(sp, logic + [l])
    ensures forall s | s in sp.signals.Values ::
              s.receivers == old(s.receivers) + Registrations(l, s, |l.andInputs + l.orInputs|)
  {
    ghost var before, n := Listeners(sp), |l.andInputs + l.orInputs|;
    RegistrationStarts(sp, logic, l);
    RegisterInputs(sp, logic, l, |l.andInputs + l.orInputs|);
    RegistrationEnds(sp, logic, l);
    forall s | s in sp.signals.Values
      ensures s.receivers == before[s] + Registrations(l, s, n)
    {
      RegistrationsOf(before, l, n, s);
    }
  }

  method RegisterInputs(sp: SignalProvider, ghost logic: seq<Logic>, l: Logic, n: nat)
    requires Stage(sp, logic, l, 0) == Some(0) && n == |l.andInputs + l.orInputs|
    modifies sp.signals.Values`receivers
    ensures Stage(sp, logic, l, n) == Some(n)
    ensures Listeners(sp) == WithInputs(old(Listeners(sp)), l, n)
  {
    for k := 0 to n
      invariant Stage(sp, logic, l, k) == Some(k)
      invariant Listeners(sp) == WithInputs(old(Listeners(sp)), l, k)
    {
      RegisterInput(sp, logic, l, k);
    }
  }

  method RegisterInput(sp: SignalProvider, ghost logic: seq<Logic>, l: Logic, k: nat)
    requires Stage(sp, logic, l, k) == Some(k) && k < |l.andInputs + l.orInputs|
    modifies sp.signals.Values`receivers
    ensures Stage(sp, logic, l, k + 1) == Some(k + 1)
    ensures Listeners(sp) == WithInput(old(Listeners(sp)), l, k)
  {
    var i := (l.andInputs + l.orInputs)[k];
    assert i in l.InputSet();
    i.input.AddReceiver(ToUnit(i, l));
    assert forall s | s in sp.signals.Values && s != i.input :: s.receivers == old(s.receivers) + [];
    assert Listeners(sp) == WithInput(old(Listeners(sp)), l, k);
  }

  /** The unit's entries with a signal, AND inputs first, each input that reads it once. */
  ghost function Registrations(l: Logic, s: Signal, n: nat): seq<Receiver>
    requires n <= |l.andInputs + l.orInputs|
  {
    if n == 0 then []
    else
      var i := (l.andInputs + l.orInputs)[n - 1];
      Registrations(l, s, n - 1) + if i.input == s then [ToUnit(i, l)] else []
  }

  ghost function Listeners(sp: SignalProvider): map<Signal, seq<Receiver>>
    reads sp, sp.signals.Values
  {
    map s | s in sp.signals.Values :: s.receivers
  }

  ghost function WithInput(m: map<Signal, seq<Receiver>>, l: Logic, k: nat): map<Signal, seq<Receiver>>
    requires k < |l.andInputs + l.orInputs|
  {
    var i := (l.andInputs + l.orInputs)[k];
    map s | s in m :: m[s] + if i.input == s then [ToUnit(i, l)] else []
  }

  ghost function WithInputs(m: map<Signal, seq<Receiver>>, l: Logic, n: nat): map<Signal, seq<Receiver>>
    requires n <= |l.andInputs + l.orInputs|
  {
    if n == 0 then m else WithInput(WithInputs(m, l, n - 1), l, n - 1)
  }

  lemma {:induction false} RegistrationsOf(m: map<Signal, seq<Receiver>>, l: Logic, n: nat, s: Signal)
    requires n <= |l.andInputs + l.orInputs| && s in m
    ensures s in WithInputs(m, l, n) && WithInputs(m, l, n)[s] == m[s] + Registrations(l, s, n)
    decreases n
  {
    if n > 0 {
      RegistrationsOf(m, l, n - 1, s);
    }
  }

  ghost function Stage(sp: SignalProvider, logic: seq<Logic>, l: Logic, n: nat): Option<nat>
    reads sp, sp.signals.Values
  {
    if Registered(sp, logic, l, n) then Some(n) else None
  }

  lemma RegistrationStarts(sp: SignalProvider, logic: seq<Logic>, l: Logic)
    requires Connected(sp, logic) && forall i | i in l.InputSet() :: i.input in sp.signals.Values
    ensures Stage(sp, logic, l, 0) == Some(0)
  {
    var all := l.andInputs + l.orInputs;
    assert forall j | 0 <= j < |all| :: all[j] in l.InputSet();
  }

  lemma RegistrationEnds(sp: SignalProvider, logic: seq<Logic>, l: Logic)
    requires var n := |l.andInputs + l.orInputs|; Stage(sp, logic, l, n) == Some(n)
    requires l.signal in sp.signals.Values && forall m | m in logic :: m.signal in sp.signals.Values
    ensures Connected(sp, logic + [l])
  {
    var all := l.andInputs + l.orInputs;
    forall i | i in l.InputSet()
      ensures i.input in sp.signals.Values && ToUnit(i, l) in i.input.receivers
    {
      var j :| 0 <= j < |all| && all[j] == i;
    }
  }

  /** As far as the first `n` inputs of the new unit. */
  ghost predicate Registered(sp: SignalProvider, logic: seq<Logic>, l: Logic, n: nat)
    reads sp, sp.signals.Values
  {
    var all := l.andInputs + l.orInputs;
    && n <= |all| && sp.Valid() && (forall j | 0 <= j < |all| :: all[j].input in sp.signals.Values)
    && (forall m, i | m in logic && i in m.InputSet() ::
          i.input in sp.signals.Values && ToUnit(i, m) in i.input.receivers)
    && (forall j | 0 <= j < n :: ToUnit(all[j], l) in all[j].input.receivers)
    && (forall s, r | s in sp.signals.Values && r in s.receivers && r.ToUnit? ::
          (r.unit in logic || r.unit == l) && r.input.input == s && r.input in r.unit.InputSet())
  }

  /** A unit with its inputs and its output, not yet registered. */
  method BuildParts(sp: SignalProvider, ghost logic: seq<Logic>, cfg: UnitConfig, now: nat, garbage: bool)
      returns (l: Option<Logic>)
    requires Wires(sp, logic).Some?
    modifies sp`signals, sp`dirtyA, sp`dirtyB, sp`notices
    ensures Wires(sp, logic).Some? && (l.None? <==> Nameless(cfg))
    ensures forall s | s in sp.signals.Values :: s in old(sp.signals.Values) || fresh(s)
    ensures l.Some? ==>
              && fresh(l.value) && IsUnit(l.value, cfg) && !l.value.lastValueValid
              && l.value.signal in sp.signals.Values
              && forall i | i in l.value.InputSet() :: i.input in sp.signals.Values
  {
    var ands := BuildInputs(sp, logic, cfg.ands, now, garbage);
    if ands.None? {
      return None;
    }
    var ors := BuildInputs(sp, logic, cfg.ors, now, garbage);
    if ors.None? {
      return None;
    }
    var out := FindSignal(sp, logic, cfg.out, now);
    if out.None? {
      return None;
    }
    var unit := new Logic(out.value, ands.value, ors.value, cfg.activeLow, cfg.andThenOr, cfg.invertFirst, cfg.delay);
    l := Some(unit);
  }

  method BuildUnit(sp: SignalProvider, ghost logic: seq<Logic>, cfg: UnitConfig, now: nat, garbage: bool)
      returns (l: Option<Logic>)
    requires Wires(sp, logic).Some?
    modifies sp`signals, sp`dirtyA, sp`dirtyB, sp`notices, sp.signals.Values`receivers
    ensures l.None? <==> Nameless(cfg)
    ensures l.Some? ==> IsUnit(l.value, cfg) && !l.value.lastValueValid && Wires(sp, logic + [l.value]).Some?
    ensures forall s | s in sp.signals.Values :: s in old(sp.signals.Values) || fresh(s)
  {
    l := BuildParts(sp, logic, cfg, now, garbage);
    if l.Some? {
      Register(sp, logic, l.value);
    }
  }

  /** As it is built: no unit has been updated, and every signal is listed. */
  ghost predicate Unevaluated(sm: StateMachine)
    reads sm.sp, sm.sp.signals.Values, sm.wires, sm.units
  {
    && sm.Now().Some? && sm.Now().value.last == map[]
    && forall s | s in sm.wires :: s in sm.Now().value.pending
  }

  /** The whole circuit. From an empty provider the constructors leave a valid state machine that
      nothing has been evaluated in, unless some input or output has no name: only such a
      configuration is refused. */
  method Build(floating: seq<string>, cfgs: seq<UnitConfig>, now: nat, garbage: bool) returns (sm: Option<StateMachine>)
    ensures sm.None? <==> exists cfg | cfg in cfgs :: Nameless(cfg)
    ensures sm.Some? ==>
              && fresh(sm.value) && Unevaluated(sm.value) && |sm.value.logic| == |cfgs|
              && sm.value.sp.floatingSignals == floating
    ensures sm.Some? ==>
              forall k | 0 <= k < |cfgs| ::
                var l, c := sm.value.logic[k], cfgs[k];
                && l.andThenOr == c.andThenOr && l.invertFirstGate == c.invertFirst && l.outputActiveLow == c.activeLow
                && l.delayOutputUsec == c.delay && l.signal.name == c.out
                && |l.andInputs| == |c.ands| && |l.orInputs| == |c.ors|
                && (forall j | 0 <= j < |c.ands| ::
                      && l.andInputs[j].input.name == c.ands[j].name && l.andInputs[j].invert == c.ands[j].invert
                      && l.andInputs[j].inputStableUsec == c.ands[j].stable)
                && (forall j | 0 <= j < |c.ors| ::
                      && l.orInputs[j].input.name == c.ors[j].name && l.orInputs[j].invert == c.ors[j].invert
                      && l.orInputs[j].inputStableUsec == c.ors[j].stable)
  {
    var sp := new SignalProvider(floating);
    sp.Listen();
    assert sp.signals.Values == {};
    var logic := BuildUnits(sp, cfgs, now, garbage);
    if logic.None? {
      return None;
    }
    var machine := Assemble(sp, logic.value);
    BuiltAsConfigured(machine.logic, cfgs);
    sm := Some(machine);
  }

  /** What that means for each of them. */
  lemma BuiltAsConfigured(logic: seq<Logic>, cfgs: seq<UnitConfig>)
    requires |logic| == |cfgs| && forall k | 0 <= k < |cfgs| :: IsUnit(logic[k], cfgs[k])
    ensures forall k | 0 <= k < |cfgs| ::
              var l, c := logic[k], cfgs[k];
              && l.andThenOr == c.andThenOr && l.invertFirstGate == c.invertFirst && l.outputActiveLow == c.activeLow
              && l.delayOutputUsec == c.delay && l.signal.name == c.out
              && |l.andInputs| == |c.ands| && |l.orInputs| == |c.ors|
              && (forall j | 0 <= j < |c.ands| ::
                    && l.andInputs[j].input.name == c.ands[j].name && l.andInputs[j].invert == c.ands[j].invert
                    && l.andInputs[j].inputStableUsec == c.ands[j].stable)
              && (forall j | 0 <= j < |c.ors| ::
                    && l.orInputs[j].input.name == c.ors[j].name && l.orInputs[j].invert == c.ors[j].invert
                    && l.orInputs[j].inputStableUsec == c.ors[j].stable)
  {
  }

  method BuildUnits(sp: SignalProvider, cfgs: seq<UnitConfig>, now: nat, garbage: bool)
      returns (logic: Option<seq<Logic>>)
    requires Wires(sp, []) == Some({})
    modifies sp`signals, sp`dirtyA, sp`dirtyB, sp`notices
    ensures logic.None? <==> exists cfg | cfg in cfgs :: Nameless(cfg)
    ensures logic.Some? ==>
              && Wires(sp, logic.value).Some? && (forall l | l in logic.value :: !l.lastValueValid)
              && |logic.value| == |cfgs| && forall k | 0 <= k < |cfgs| :: IsUnit(logic.value[k], cfgs[k])
  {
    var built: seq<Logic> := [];
    for k := 0 to |cfgs|
      invariant Wires(sp, built).Some? && (forall s | s in sp.signals.Values :: fresh(s))
      invariant |built| == k && forall j | 0 <= j < k :: IsUnit(built[j], cfgs[j])
      invariant (forall l | l in built :: !l.lastValueValid) && forall cfg | cfg in cfgs[..k] :: !Nameless(cfg)
    {
      var l := BuildUnit(sp, built, cfgs[k], now, garbage);
      if l.None? {
        assert cfgs[k] in cfgs;
        return None;
      }
      built := built + [l.value];
    }
    assert cfgs[..|cfgs|] == cfgs;
    logic := Some(built);
  }

  method Assemble(sp: SignalProvider, logic: seq<Logic>) returns (sm: StateMachine)
    requires sp.listening && Wires(sp, logic).Some? && forall l | l in logic :: !l.lastValueValid
    ensures fresh(sm) && sm.sp == sp && sm.logic == logic && Unevaluated(sm)
  {
    sm := new StateMachine(sp, logic);
    sm.ConnectedIsValid();
    NothingCached(sm);
  }

  lemma NothingCached(sm: StateMachine)
    requires sm.Now().Some? && AllListed(sm.sp) && sm.wires == sm.sp.signals.Values
    requires forall l | l in sm.units :: !l.lastValueValid
    ensures Unevaluated(sm)
  {
  }

  /** An io queue as the constructors and the start of the main loop leave it: it holds the first
      update of every unit and an evaluation, and whatever else drives no unit's output. While
      units are built the dirty listener posts more evaluations, ahead of first updates. */
  ghost predicate FirstQueue(sm: StateMachine, queue: seq<IoQueue.Handler<Signal, Logic>>) {
    && (forall l | l in sm.Net() :: IoQueue.Boot(l) in queue)
    && IoQueue.Handler<Signal, Logic>.Eval in queue
    && IoQueue.AllDriveSources(sm.Net(), queue)
  }

  /** A built circuit is where the theorems about whole runs begin, whatever its delayed and
      filtered units are going to do. */
  lemma BuiltIsStarted(sm: StateMachine, script: seq<Act>, queue: seq<IoQueue.Handler<Signal, Logic>>)
    requires Unevaluated(sm) && FirstQueue(sm, queue)
    ensures SoleDrivers(sm.Net()) && Wired(sm.Net(), sm.Fan())
    ensures IoQueue.Started(sm.Net(), IoQueue.Sys(Play(sm.Now().value, script, 0), queue))
  {
    sm.ValidIsWired();
  }

  /** So if its units are in order, then after any run in which the environment drives no unit's
      output, a drained queue means that all its undelayed, unfiltered units with an output of
      their own are settled. */
  lemma BuiltDrainsToFixpoint(sm: StateMachine, script: seq<Act>, queue: seq<IoQueue.Handler<Signal, Logic>>,
                              env: seq<seq<IoQueue.Handler<Signal, Logic>>>, rank: map<Signal, nat>, depth: nat)
    requires Unevaluated(sm) && FirstQueue(sm, queue)
    requires sm.InOrder(rank) && DepthAtMost(rank, depth) && depth + 1 <= 10000
    requires forall hs | hs in env :: IoQueue.AllDriveSources(sm.Net(), hs)
    ensures var n := IoQueue.Run(sm.Net(), sm.Fan(), IoQueue.Sys(Play(sm.Now().value, script, 0), queue), env);
            n.queue == [] ==> Fixpoint(sm.Net(), n.engine)
  {
    var sys := IoQueue.Sys(Play(sm.Now().value, script, 0), queue);
    BuiltIsStarted(sm, script, queue);
    sm.OrderIsRank(rank);
    if IoQueue.Run(sm.Net(), sm.Fan(), sys, env).queue == [] {
      IoQueue.RankedDrainsToFixpoint(sm.Net(), sm.Fan(), sys, env, rank, depth);
    }
  }
}
