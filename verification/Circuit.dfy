/** Signals, their provider, logic units and the state machine as objects that update each
    other in place. Every operation is tied to the value-level engine of module Propagation,
    to the stability filter or to the delay line; units with delays or filters are the
    engine's foreign receivers. Clock readings are parameters. */
module Circuit {
  import opened Netlist
  import opened Propagation
  import opened Options
  import opened Replay
  import Convergence
  import DelayLine
  import StableFilter

  /** Either an input with the unit it belongs to and forwards to, or a receiver whose `Update`
      changes no signal at once (GPIO outputs, regulators, LEDs, ACPI states). */
  datatype Receiver = ToUnit(input: LogicInput, unit: Logic) | Sink

  /** What driving a signal depends on and changes. */
  datatype Listing = Listing(level: Level, list: seq<Signal>, notices: nat, listening: bool)

  /** A change lists the signal, and announces it if it was not listed. */
  ghost function Drive(v: Listing, s: Signal, value: bool): Listing {
    if v.level == FromBool(value) then v
    else if s in v.list then v.(level := FromBool(value))
    else Listing(FromBool(value), v.list + [s], v.notices + (if v.listening then 1 else 0), v.listening)
  }

  class Signal {
    const name: string
    const parent: SignalProvider
    var active: Level
    var dirty: bool
    var lastLevelChangeTime: nat
    var receivers: seq<Receiver>

    constructor (parent: SignalProvider, name: string, now: nat)
      requires forall s | s in parent.Active() :: allocated(s)
      modifies parent`dirtyA, parent`dirtyB, parent`notices
      ensures this.name == name && this.parent == parent
      ensures active == -1 && dirty && lastLevelChangeTime == now && receivers == []
      ensures parent.Active() == old(parent.Active()) + [this]
      ensures parent.Buffer(!parent.dirtyAIsActive) == old(parent.Buffer(!parent.dirtyAIsActive))
      ensures parent.notices == old(parent.notices) + (if parent.listening then 1 else 0)
    {
      this.dirty, this.active := true, 0;
      this.name, this.parent, this.lastLevelChangeTime, this.receivers := name, parent, now, [];
      new;
      assert this !in parent.Active();
      parent.SetDirty(this);
      active := -1;
    }

    method SetLevel(newLevel: bool, now: nat)
      requires parent.Valid() && this in parent.signals.Values
      modifies this`active, this`dirty, this`lastLevelChangeTime, parent`dirtyA, parent`dirtyB, parent`notices
      ensures parent.Valid()
      ensures parent.View(this) == Drive(old(parent.View(this)), this, newLevel)
      ensures active == if newLevel then 1 else 0
      ensures active == old(active) ==> parent.Active() == old(parent.Active()) && parent.notices == old(parent.notices)
      ensures active != old(active) ==> dirty && this in parent.Active()
      ensures lastLevelChangeTime == if active != old(active) then now else old(lastLevelChangeTime)
      ensures parent.Buffer(!parent.dirtyAIsActive) == old(parent.Buffer(!parent.dirtyAIsActive))
    {
      if active != FromBool(newLevel) {
        active := FromBool(newLevel);
        dirty := true;
        lastLevelChangeTime := now;
        parent.SetDirty(this);
      }
    }

    method ClearDirty()
      modifies this`dirty
      ensures !dirty
    {
      dirty := false;
    }

    method AddReceiver(rec: Receiver)
      modifies this`receivers
      ensures receivers == old(receivers) + [rec]
    {
      receivers := receivers + [rec];
    }

    /** Heard by somebody, or listed as floating. */
    ghost predicate Heard(floating: seq<string>)
      reads this
    {
      receivers != [] || name in floating
    }

    method Validate(floating: seq<string>) returns (ok: bool)
      ensures ok <==> receivers != [] || name in floating
    {
      if |receivers| == 0 {
        for k := 0 to |floating|
          invariant name !in floating[..k]
        {
          if floating[k] == name {
            return true;
          }
        }
        return false;
      }
      return true;
    }

    /** Updates the units reading this signal, in registration order. To the record of what
        units with delays or filters did `before` it adds what they do now. */
    method UpdateReceivers(now: nat, ghost sm: StateMachine, ghost before: seq<Act>) returns (ghost did: seq<Act>)
      requires sm.Now().Some? && this in sm.wires
      modifies sm.sp`dirtyA, sm.sp`dirtyB, sm.sp`notices
      modifies sm.wires`active, sm.wires`dirty, sm.wires`lastLevelChangeTime
      modifies sm.units`lastValue, sm.units`lastValueValid, sm.units`outQueue, sm.units`timer
      modifies sm.inputs`level, sm.inputs`timer
      ensures sm.Now().Some?
      ensures before <= did
      ensures UpdateAll(sm.Net(), Play(old(sm.Now()).value, did, |before|), Parents(receivers)) ==
              Played(sm.Now().value, did)
      ensures sm.sp.Buffer(!sm.sp.dirtyAIsActive) == old(sm.sp.Buffer(!sm.sp.dirtyAIsActive))
    {
      ghost var net, e, n, us := sm.Net(), sm.Now().value, sm.Now().value, [];
      did := before;
      for k := 0 to |receivers|
        invariant sm.Now() == Some(n) && us == Parents(receivers[..k])
        invariant before <= did && UpdateAll(net, Play(e, did, |before|), us) == Played(n, did)
        invariant sm.sp.Buffer(!sm.sp.dirtyAIsActive) == old(sm.sp.Buffer(!sm.sp.dirtyAIsActive))
      {
        ParentsOneMore(receivers, k);
        match receivers[k]
        case ToUnit(input, unit) =>
          ghost var more := input.Update(unit, now, sm, did);
          ThenUpdate(net, e, |before|, us, did, n, unit, more, sm.Now().value);
          n, us, did := sm.Now().value, us + [unit], more;
        case Sink =>
      }
      assert receivers[..|receivers|] == receivers;
    }
  }

  ghost function Parents(rs: seq<Receiver>): seq<Logic> {
    if rs == [] then []
    else
      var n := |rs| - 1;
      Parents(rs[..n]) + if rs[n].ToUnit? then [rs[n].unit] else []
  }

  lemma {:induction false} ParentsMember(rs: seq<Receiver>, l: Logic)
    ensures l in Parents(rs) <==> exists r | r in rs :: r.ToUnit? && r.unit == l
  {
    if rs != [] {
      var n := |rs| - 1;
      ParentsMember(rs[..n], l);
      assert forall r :: r in rs <==> r == rs[n] || r in rs[..n];
    }
  }

  /** They come in registration order, the sinks left out. */
  lemma {:induction false} ParentsInOrder(a: seq<Receiver>, b: seq<Receiver>)
    ensures Parents(a + b) == Parents(a) + Parents(b)
    decreases |b|
  {
    if b == [] {
      assert a + b == a;
    } else {
      var n := |b| - 1;
      var last := if b[n].ToUnit? then [b[n].unit] else [];
      assert (a + b)[..|a| + n] == a + b[..n] && (a + b)[|a| + n] == b[n];
      ParentsInOrder(a, b[..n]);
      assert Parents(a + b) == (Parents(a) + Parents(b[..n])) + last;
      assert Parents(b) == Parents(b[..n]) + last;
    }
  }

  lemma ParentsOfOne(r: Receiver)
    ensures Parents([r]) == if r.ToUnit? then [r.unit] else []
  {
    assert [r][..0] == [];
  }

  lemma ParentsOneMore(rs: seq<Receiver>, k: nat)
    requires k < |rs|
    ensures Parents(rs[..k + 1]) == Parents(rs[..k]) + if rs[k].ToUnit? then [rs[k].unit] else []
  {
    assert rs[..k + 1][..k] == rs[..k];
  }

  datatype Verdict = Sane | Unheard(name: string) | Undriven(name: string)

  class SignalProvider {
    var signals: map<string, Signal>
    var dirtyAIsActive: bool
    var dirtyA: seq<Signal>
    var dirtyB: seq<Signal>
    var listening: bool
    var notices: nat
    var floatingSignals: seq<string>
    var immutables: seq<Signal>
    /** What each registered driver reports as its signals. */
    var signalDrivers: seq<seq<Signal>>

    constructor (floating: seq<string>)
      ensures Valid() && signals == map[] && Active() == [] && !listening && notices == 0
      ensures floatingSignals == floating && immutables == [] && signalDrivers == []
    {
      signals, dirtyAIsActive, dirtyA, dirtyB := map[], false, [], [];
      listening, notices, floatingSignals, immutables, signalDrivers := false, 0, floating, [], [];
    }

    function Buffer(a: bool): seq<Signal>
      reads this
    {
      if a then dirtyA else dirtyB
    }

    function Active(): seq<Signal>
      reads this
    {
      Buffer(dirtyAIsActive)
    }

    ghost function View(s: Signal): Listing
      reads this, s
    {
      Listing(s.active, Active(), notices, listening)
    }

    /** The double buffer represents a set of pending signals: a signal's bit is set exactly
        when it is on the active list. */
    ghost predicate Valid()
      reads this, signals.Values
    {
      && (forall n | n in signals :: signals[n].name == n && signals[n].parent == this)
      && (forall s | s in dirtyA :: s in signals.Values)
      && (forall s | s in dirtyB :: s in signals.Values)
      && (forall s | s in signals.Values :: s.dirty <==> s in Active())
    }

    /** Puts a signal on the active list unless it is there, and only then announces it. */
    method SetDirty(sig: Signal)
      modifies this`dirtyA, this`dirtyB, this`notices
      ensures sig in old(Active()) ==> Active() == old(Active()) && notices == old(notices)
      ensures sig !in old(Active()) ==>
                Active() == old(Active()) + [sig] && notices == old(notices) + if listening then 1 else 0
      ensures old(Distinct(Active())) ==> Distinct(Active())
      ensures Buffer(!dirtyAIsActive) == old(Buffer(!dirtyAIsActive))
    {
      for k := 0 to |Active()|
        invariant sig !in Active()[..k]
      {
        if Active()[k] == sig {
          return;
        }
      }
      if dirtyAIsActive {
        dirtyA := dirtyA + [sig];
      } else {
        dirtyB := dirtyB + [sig];
      }
      if listening {
        Announce();
      }
    }

    /** Calls the dirty listener, which posts one evaluation. */
    method Announce()
      modifies this`notices
      ensures notices == old(notices) + 1
    {
      notices := notices + 1;
    }

    method Listen()
      modifies this`listening
      ensures listening
    {
      listening := true;
    }

    /** Clears the bits of the listed signals; the list itself stays. */
    method ClearDirty()
      requires Valid()
      modifies signals.Values`dirty
      ensures forall s | s in signals.Values :: !s.dirty
    {
      for k := 0 to |Active()|
        invariant forall s | s in signals.Values && s.dirty :: s in Active()[k..]
      {
        assert Active()[k] in Active();
        Active()[k].ClearDirty();
        assert forall s | s in Active()[k..] :: s == Active()[k] || s in Active()[k + 1..];
      }
    }

    /** Hands out the active list and swaps buffers. The result names the buffer holding the
        batch; it is not written again before the next call. */
    method GetDirtySignalsAndClearList() returns (a: bool)
      requires Valid()
      modifies this`dirtyAIsActive, this`dirtyA, this`dirtyB, signals.Values`dirty
      ensures Valid() && a == !dirtyAIsActive
      ensures Buffer(a) == old(Active()) && Active() == []
    {
      ClearDirty();
      if dirtyAIsActive {
        dirtyAIsActive := false;
        dirtyB := [];
        return true;
      } else {
        dirtyAIsActive := true;
        dirtyA := [];
        return false;
      }
    }

    method Find(name: string) returns (s: Option<Signal>)
      ensures s == if name in signals then Some(signals[name]) else None
    {
      if name !in signals {
        return None;
      }
      return Some(signals[name]);
    }

    /** A new signal is on the active list twice: once from its constructor, once from here. A
        known name is given to the new signal, which the old one does not survive. */
    method Add(name: string, now: nat) returns (s: Option<Signal>)
      requires Valid()
      modifies this`signals, this`dirtyA, this`dirtyB, this`notices
      ensures s.None? <==> name == ""
      ensures name == "" ==> unchanged(this)
      ensures name != "" ==>
                && fresh(s.value) && signals == old(signals)[name := s.value]
                && Active() == old(Active()) + [s.value, s.value]
                && s.value.name == name && s.value.parent == this && s.value.active == -1 && s.value.receivers == []
      ensures name !in old(signals) ==> Valid()
    {
      if name == "" {
        return None;
      }
      var sig := new Signal(this, name, now);
      if dirtyAIsActive {
        dirtyA := dirtyA + [sig];
      } else {
        dirtyB := dirtyB + [sig];
      }
      signals := signals[name := sig];
      if name !in old(signals) {
        assert signals.Values == old(signals.Values) + {sig} by {
          assert sig == signals[name];
          assert forall n | n in old(signals) :: signals[n] == old(signals)[n];
        }
      }
      s := Some(sig);
    }

    /** One signal per name, however often it is asked for. */
    method FindOrAdd(name: string, now: nat) returns (s: Option<Signal>)
      requires Valid()
      modifies this`signals, this`dirtyA, this`dirtyB, this`notices
      ensures Valid()
      ensures s.None? <==> name !in old(signals) && name == ""
      ensures s.Some? ==> name in signals && signals[name] == s.value
      ensures name in old(signals) || name == "" ==> unchanged(this)
      ensures name !in old(signals) && name != "" ==>
                && fresh(s.value) && signals == old(signals)[name := s.value]
                && Active() == old(Active()) + [s.value, s.value]
                && s.value.name == name && s.value.parent == this && s.value.active == -1 && s.value.receivers == []
    {
      s := Find(name);
      if s.Some? {
        return s;
      }
      s := Add(name, now);
    }

    ghost predicate Driven(s: Signal)
      reads this
    {
      s in immutables || exists d | d in signalDrivers :: s in d
    }

    /** Accepts a configuration if and only if nobody is unheard and nobody is undriven; the
        first rule is checked for all signals before the second. */
    method Validate() returns (v: Verdict)
      requires Valid()
      ensures v == Sane <==>
                forall s | s in signals.Values ::
                  && (s.receivers != [] || s.name in floatingSignals)
                  && (s in immutables || exists d | d in signalDrivers :: s in d)
      ensures v.Unheard? ==>
                v.name in signals && signals[v.name].receivers == [] && signals[v.name].name !in floatingSignals
      ensures v.Undriven? ==>
                && v.name in signals && signals[v.name] !in immutables
                && (forall d | d in signalDrivers :: signals[v.name] !in d)
                && forall s | s in signals.Values :: s.receivers != [] || s.name in floatingSignals
    {
      var todo := signals.Keys;
      while todo != {}
        invariant todo <= signals.Keys
        invariant forall n | n in signals && n !in todo :: signals[n].Heard(floatingSignals)
        decreases todo
      {
        var n :| n in todo;
        var ok := signals[n].Validate(floatingSignals);
        if !ok {
          assert signals[n] in signals.Values;
          return Unheard(n);
        }
        todo := todo - {n};
      }
      todo := signals.Keys;
      while todo != {}
        invariant todo <= signals.Keys
        invariant forall n | n in signals && n !in todo :: Driven(signals[n])
        decreases todo
      {
        var n :| n in todo;
        var found := IsDriven(signals[n]);
        if !found {
          assert signals[n] in signals.Values;
          return Undriven(n);
        }
        todo := todo - {n};
      }
      return Sane;
    }

    method IsDriven(sig: Signal) returns (found: bool)
      ensures found <==> sig in immutables || exists d | d in signalDrivers :: sig in d
    {
      found := false;
      for d := 0 to |signalDrivers|
        invariant !found && forall e | 0 <= e < d :: sig !in signalDrivers[e]
      {
        for k := 0 to |signalDrivers[d]|
          invariant !found && sig !in signalDrivers[d][..k]
        {
          if signalDrivers[d][k] == sig {
            assert signalDrivers[d] in signalDrivers;
            found := true;
            break;
          }
        }
        if found {
          break;
        }
      }
      assert found <==> exists d | d in signalDrivers :: sig in d;
      for k := 0 to |immutables|
        invariant found <==> (exists d | d in signalDrivers :: sig in d) || sig in immutables[..k]
      {
        if immutables[k] == sig {
          found := true;
          break;
        }
      }
    }
  }

  class LogicInput {
    const input: Signal
    const invert: bool
    const inputStableUsec: nat
    var level: bool
    /** Expiry of the re-evaluation timer, if it is running. */
    var timer: Option<nat>

    ghost function Filter(): StableFilter.Filter
      reads this
    {
      StableFilter.Filter(level, timer)
    }

    ghost function Sampled(now: nat): StableFilter.Filter
      reads this, input
    {
      StableFilter.Sample(Filter(), inputStableUsec, invert, input.active, input.lastLevelChangeTime, now)
    }

    /** The first reading is a sample like any other. Inside the stability window it leaves the
        level as it finds it, which the program never set: `garbage`. */
    constructor (input: Signal, invert: bool, stable: nat, now: nat, garbage: bool)
      ensures this.input == input && this.invert == invert && inputStableUsec == stable
      ensures Filter() == StableFilter.Sample(StableFilter.Filter(garbage, None), stable, invert,
                                              input.active, input.lastLevelChangeTime, now)
    {
      this.input, this.invert, this.inputStableUsec := input, invert, stable;
      level, timer := garbage, None;
      new;
      var _ := GetLevel(now);
    }

    method GetLevel(now: nat) returns (r: bool)
      modifies this`level, this`timer
      ensures Filter() == old(Sampled(now)) && r == level
      ensures input.active < 0 ==> !level
      ensures input.active >= 0 && (inputStableUsec == 0 || now >= input.lastLevelChangeTime + inputStableUsec) ==>
                (level <==> input.active == if invert then 0 else 1)
      ensures input.active >= 0 && inputStableUsec > 0 && now < input.lastLevelChangeTime + inputStableUsec ==>
                level == old(level) && timer == Some(input.lastLevelChangeTime + inputStableUsec)
    {
      if input.active < 0 {
        level := false;
      } else if inputStableUsec == 0 {
        level := (input.active == 1) != invert;
      } else {
        var usec := now - input.lastLevelChangeTime;
        if usec >= inputStableUsec {
          level := (input.active == 1) != invert;
        } else {
          timer := Some(now + (inputStableUsec - usec));
        }
      }
      return level;
    }

    /** Forwards a signal change to the unit: one update of the engine, of a unit of the netlist
        or of a foreign receiver, whose act is the result of its filtered gate. */
    method Update(unit: Logic, now: nat, ghost sm: StateMachine, ghost before: seq<Act>) returns (ghost did: seq<Act>)
      requires sm.Now().Some? && unit in sm.units
      modifies sm.sp`dirtyA, sm.sp`dirtyB, sm.sp`notices
      modifies sm.wires`active, sm.wires`dirty, sm.wires`lastLevelChangeTime
      modifies sm.units`lastValue, sm.units`lastValueValid, sm.units`outQueue, sm.units`timer
      modifies sm.inputs`level, sm.inputs`timer
      ensures sm.Now().Some?
      ensures before <= did && did == sm.Record(before, unit, old(unit.Line()).last, old(unit.Result(now)))
      ensures Propagation.Update(sm.Net(), Play(old(sm.Now()).value, did, |before|), unit) ==
              Played(sm.Now().value, did)
      ensures sm.sp.Buffer(!sm.sp.dirtyAIsActive) == old(sm.sp.Buffer(!sm.sp.dirtyAIsActive))
    {
      ghost var e, last, result := sm.Now().value, unit.Line().last, unit.Result(now);
      sm.ReadyToUpdate(unit, now);
      unit.UpdateIn(sm, now);
      sm.ShownIsUpdate(e, unit, last, result, before);
      did := sm.Record(before, unit, last, result);
    }

    /** The timer's callback re-evaluates the unit the input belongs to, like any other update. */
    method TimerExpired(unit: Logic, now: nat)
      requires unit.signal.parent.Valid() && unit.signal in unit.signal.parent.signals.Values
      requires this in unit.InputSet()
      modifies unit`lastValue, unit`lastValueValid, unit`outQueue, unit`timer
      modifies unit.InputSet()`level, unit.InputSet()`timer
      modifies unit.signal`active, unit.signal`dirty, unit.signal`lastLevelChangeTime
      modifies unit.signal.parent`dirtyA, unit.signal.parent`dirtyB, unit.signal.parent`notices
      ensures unit.signal.parent.Valid()
      ensures unit.lastValueValid && unit.lastValue == old(unit.Result(now))
      ensures unit.signal.parent.View(unit.signal) ==
              unit.After(old(unit.signal.parent.View(unit.signal)), old(unit.Line()).last, unit.lastValue)
      ensures unit.delayOutputUsec > 0 ==>
                unit.Line() == DelayLine.Offer(old(unit.Line()), unit.delayOutputUsec, now, unit.lastValue)
      ensures Filter() == old(StableFilter.Sample(Filter().(timer := None), inputStableUsec, invert,
                                                  input.active, input.lastLevelChangeTime, now))
    {
      timer := None;
      assert forall i | i in unit.InputSet() :: unit.Sees(i, now) == old(unit.Sees(i, now));
      unit.ResultFrame(now);
      unit.Update(now);
    }
  }

  ghost function Literals(ins: seq<LogicInput>): seq<Input<Signal>> {
    seq(|ins|, k requires 0 <= k < |ins| => Input(ins[k].input, ins[k].invert))
  }

  lemma AllByIndex(ins: seq<Input<Signal>>, levels: map<Signal, Level>)
    ensures (forall i | i in ins :: High(i, levels)) == forall k | 0 <= k < |ins| :: High(ins[k], levels)
  {
  }

  lemma AnyByIndex(ins: seq<Input<Signal>>, levels: map<Signal, Level>)
    ensures (exists i | i in ins :: High(i, levels)) == exists k | 0 <= k < |ins| :: High(ins[k], levels)
  {
  }

  class Logic {
    const signal: Signal
    const andInputs: seq<LogicInput>
    const orInputs: seq<LogicInput>
    const outputActiveLow: bool
    const andThenOr: bool
    const invertFirstGate: bool
    const delayOutputUsec: nat
    var lastValue: bool
    var lastValueValid: bool
    /** Expiry of the wait for the oldest queued event. */
    var timer: Option<nat>
    var outQueue: seq<DelayLine.Event>

    constructor (signal: Signal, ands: seq<LogicInput>, ors: seq<LogicInput>, activeLow: bool, andThenOr: bool,
                 invertFirst: bool, delay: nat)
      ensures Unit() == Netlist.Unit(Literals(ands), Literals(ors), andThenOr, invertFirst, activeLow, signal)
      ensures andInputs == ands && orInputs == ors && delayOutputUsec == delay
      ensures Line() == DelayLine.Line([], None, None)
    {
      this.signal, this.andInputs, this.orInputs := signal, ands, ors;
      this.outputActiveLow, this.andThenOr, this.invertFirstGate := activeLow, andThenOr, invertFirst;
      this.delayOutputUsec := delay;
      lastValue, lastValueValid, timer, outQueue := false, false, None, [];
    }

    ghost function InputSet(): set<LogicInput> {
      set i | i in andInputs + orInputs
    }

    /** The unit's configuration, for the engine. */
    ghost function Unit(): Unit<Signal> {
      Netlist.Unit(Literals(andInputs), Literals(orInputs), andThenOr, invertFirstGate, outputActiveLow, signal)
    }

    ghost function Line(): DelayLine.Line
      reads this
    {
      DelayLine.Line(outQueue, if lastValueValid then Some(lastValue) else None, timer)
    }

    /** The gate applied to what the filters let through at `now`. */
    ghost predicate Result(now: nat)
      reads this, InputSet(), set i | i in InputSet() :: i.input
    {
      Cascade(andThenOr, invertFirstGate, outputActiveLow, andInputs != [], orInputs != [],
              forall k | 0 <= k < |andInputs| :: Sees(andInputs[k], now),
              exists k | 0 <= k < |orInputs| :: Sees(orInputs[k], now))
    }

    ghost predicate Sees(i: LogicInput, now: nat)
      reads i, i.input
    {
      i.Sampled(now).level
    }

    /** The same by the inputs the unit has, in the readings of its filters. */
    lemma ResultByShape(now: nat)
      ensures var all := forall k | 0 <= k < |andInputs| :: andInputs[k].Sampled(now).level;
              var some := exists k | 0 <= k < |orInputs| :: orInputs[k].Sampled(now).level;
              && (andInputs == [] && orInputs != [] && !andThenOr ==>
                    (Result(now) <==> (some != invertFirstGate) != outputActiveLow))
              && (andInputs == [] && orInputs != [] && andThenOr ==> (Result(now) <==> some != outputActiveLow))
              && (andInputs != [] && orInputs == [] && !andThenOr ==> (Result(now) <==> all != outputActiveLow))
              && (andInputs != [] && orInputs == [] && andThenOr ==>
                    (Result(now) <==> (all != invertFirstGate) != outputActiveLow))
              && (andInputs != [] && orInputs != [] && !andThenOr ==>
                    (Result(now) <==> ((some != invertFirstGate) && all) != outputActiveLow))
              && (andInputs != [] && orInputs != [] && andThenOr ==>
                    (Result(now) <==> ((all != invertFirstGate) || some) != outputActiveLow))
              && (andInputs == [] && orInputs == [] ==> (Result(now) <==> andThenOr == outputActiveLow))
    {
      assert (forall k | 0 <= k < |andInputs| :: andInputs[k].Sampled(now).level) <==>
             forall k | 0 <= k < |andInputs| :: Sees(andInputs[k], now);
      assert (exists k | 0 <= k < |orInputs| :: orInputs[k].Sampled(now).level) <==>
             exists k | 0 <= k < |orInputs| :: Sees(orInputs[k], now);
    }

    method GetLevelOrInputs(now: nat) returns (r: bool)
      modifies InputSet()`level, InputSet()`timer
      ensures r == old(exists k | 0 <= k < |orInputs| :: Sees(orInputs[k], now))
      ensures forall i | i in InputSet() :: i.Sampled(now) == old(i.Sampled(now))
      ensures forall i | i in InputSet() :: i.Filter() == old(i.Filter()) || i.Filter() == old(i.Sampled(now))
      ensures forall i | i in orInputs :: i.Filter() == old(i.Sampled(now))
    {
      r := false;
      for k := 0 to |orInputs|
        invariant forall i | i in InputSet() :: i.Sampled(now) == old(i.Sampled(now))
        invariant forall i | i in InputSet() :: i.Filter() == old(i.Filter()) || i.Filter() == old(i.Sampled(now))
        invariant forall j | 0 <= j < k :: orInputs[j].Filter() == old(orInputs[j].Sampled(now))
        invariant r == exists j | 0 <= j < k :: old(Sees(orInputs[j], now))
      {
        assert orInputs[k] in InputSet();
        var l := orInputs[k].GetLevel(now);
        if l {
          r := true;
        }
      }
    }

    method GetLevelAndInputs(now: nat) returns (r: bool)
      modifies InputSet()`level, InputSet()`timer
      ensures r == old(forall k | 0 <= k < |andInputs| :: Sees(andInputs[k], now))
      ensures forall i | i in InputSet() :: i.Sampled(now) == old(i.Sampled(now))
      ensures forall i | i in InputSet() :: i.Filter() == old(i.Filter()) || i.Filter() == old(i.Sampled(now))
      ensures forall i | i in andInputs :: i.Filter() == old(i.Sampled(now))
    {
      r := true;
      for k := 0 to |andInputs|
        invariant forall i | i in InputSet() :: i.Sampled(now) == old(i.Sampled(now))
        invariant forall i | i in InputSet() :: i.Filter() == old(i.Filter()) || i.Filter() == old(i.Sampled(now))
        invariant forall j | 0 <= j < k :: andInputs[j].Filter() == old(andInputs[j].Sampled(now))
        invariant r == forall j | 0 <= j < k :: old(Sees(andInputs[j], now))
      {
        assert andInputs[k] in InputSet();
        var l := andInputs[k].GetLevel(now);
        if !l {
          r := false;
        }
      }
    }

    /** Both gates, the order chosen by `andThenOr`. */
    method Combine(now: nat) returns (result: bool)
      modifies InputSet()`level, InputSet()`timer
      ensures result == old(Result(now))
      ensures forall i | i in InputSet() ::
                i.Filter() == old(i.Sampled(now)) && i.Sampled(now) == old(i.Sampled(now))
    {
      if andThenOr {
        if |andInputs| == 0 {
          result := false;
        } else {
          result := GetLevelAndInputs(now);
          if invertFirstGate {
            result := !result;
          }
        }
        var or := GetLevelOrInputs(now);
        result := result || or;
      } else {
        if |orInputs| == 0 {
          result := true;
        } else {
          result := GetLevelOrInputs(now);
          if invertFirstGate {
            result := !result;
          }
        }
        var and := GetLevelAndInputs(now);
        result := result && and;
      }
      if outputActiveLow {
        result := !result;
      }
    }

    /** What becomes of the output's signal when the gate gives `result` after `last`. */
    ghost function After(v: Listing, last: Option<bool>, result: bool): Listing {
      if delayOutputUsec > 0 || last == Some(result) then v else Drive(v, signal, result)
    }

    /** The same as an act of a foreign receiver. */
    ghost function Deed(last: Option<bool>, result: bool): Act {
      if delayOutputUsec > 0 || last == Some(result) then Still else Sets(result)
    }

    /** A changed result goes to the output at once or through the delay line. */
    method Publish(result: bool, now: nat)
      requires signal.parent.Valid() && signal in signal.parent.signals.Values
      modifies this`lastValue, this`lastValueValid, this`outQueue, this`timer
      modifies signal`active, signal`dirty, signal`lastLevelChangeTime
      modifies signal.parent`dirtyA, signal.parent`dirtyB, signal.parent`notices
      ensures signal.parent.Valid()
      ensures lastValueValid && lastValue == result
      ensures Line() == if delayOutputUsec > 0 then DelayLine.Offer(old(Line()), delayOutputUsec, now, result)
                        else old(Line()).(last := Some(result))
      ensures signal.parent.View(signal) == After(old(signal.parent.View(signal)), old(Line()).last, result)
      ensures old(lastValueValid && lastValue == result) || delayOutputUsec > 0 ==>
                && signal.active == old(signal.active)
                && signal.parent.Active() == old(signal.parent.Active())
                && signal.parent.notices == old(signal.parent.notices)
      ensures !old(lastValueValid && lastValue == result) && delayOutputUsec == 0 ==>
                signal.active == if result then 1 else 0
      ensures !old(lastValueValid && lastValue == result) && delayOutputUsec > 0 ==>
                outQueue != [] && outQueue[|outQueue| - 1] == DelayLine.Event(result, now + delayOutputUsec)
      ensures signal.lastLevelChangeTime ==
              if signal.active != old(signal.active) then now else old(signal.lastLevelChangeTime)
      ensures signal.parent.Buffer(!signal.parent.dirtyAIsActive) ==
              old(signal.parent.Buffer(!signal.parent.dirtyAIsActive))
    {
      if !lastValueValid || lastValue != result {
        if delayOutputUsec > 0 {
          outQueue := DelayLine.PushBack(outQueue, DelayLine.Event(result, now + delayOutputUsec));
          var event := outQueue[0];
          if |outQueue| == 1 {
            timer := Some(event.time);
          }
        } else {
          signal.SetLevel(result, now);
        }
        lastValue := result;
        lastValueValid := true;
      }
    }

    /** Re-evaluates the unit: filters are read, and the gate's result is published. */
    method Update(now: nat)
      requires signal.parent.Valid() && signal in signal.parent.signals.Values
      modifies this`lastValue, this`lastValueValid, this`outQueue, this`timer
      modifies InputSet()`level, InputSet()`timer
      modifies signal`active, signal`dirty, signal`lastLevelChangeTime
      modifies signal.parent`dirtyA, signal.parent`dirtyB, signal.parent`notices
      ensures signal.parent.Valid()
      ensures lastValueValid && lastValue == old(Result(now))
      ensures Line() == if delayOutputUsec > 0 then DelayLine.Offer(old(Line()), delayOutputUsec, now, lastValue)
                        else old(Line()).(last := Some(lastValue))
      ensures signal.parent.View(signal) == After(old(signal.parent.View(signal)), old(Line()).last, lastValue)
      ensures signal.lastLevelChangeTime ==
              if signal.active != old(signal.active) then now else old(signal.lastLevelChangeTime)
      ensures forall i | i in InputSet() :: i.Filter() == old(i.Sampled(now))
      ensures signal.parent.Buffer(!signal.parent.dirtyAIsActive) ==
              old(signal.parent.Buffer(!signal.parent.dirtyAIsActive))
    {
      var result := Combine(now);
      Publish(result, now);
    }

    /** The same update as a change of the engine's state, in a valid circuit. */
    method UpdateIn(ghost sm: StateMachine, now: nat)
      requires sm.Now().Some? && this in sm.units
      modifies sm.sp`dirtyA, sm.sp`dirtyB, sm.sp`notices
      modifies sm.wires`active, sm.wires`dirty, sm.wires`lastLevelChangeTime
      modifies sm.units`lastValue, sm.units`lastValueValid, sm.units`outQueue, sm.units`timer
      modifies sm.inputs`level, sm.inputs`timer
      ensures sm.Now() == Some(sm.Shown(old(sm.Now()).value, this, old(Line()).last, old(Result(now))))
      ensures sm.sp.Buffer(!sm.sp.dirtyAIsActive) == old(sm.sp.Buffer(!sm.sp.dirtyAIsActive))
    {
      sm.ReadyToUpdate(this, now);
      Update(now);
      sm.UpdateRefines(this);
    }

    /** The gate sees an input's level, not its timer. */
    twostate lemma ResultFrame(now: nat)
      requires forall i | i in InputSet() :: Sees(i, now) == old(Sees(i, now))
      ensures Result(now) == old(Result(now))
    {
      assert forall k | 0 <= k < |andInputs| :: andInputs[k] in InputSet();
      assert forall k | 0 <= k < |orInputs| :: orInputs[k] in InputSet();
    }

    /** The delay timer's callback: the oldest event reaches the output. */
    method TimerHandler(now: nat)
      requires signal.parent.Valid() && signal in signal.parent.signals.Values
      requires outQueue != []
      modifies this`outQueue, this`timer
      modifies signal`active, signal`dirty, signal`lastLevelChangeTime
      modifies signal.parent`dirtyA, signal.parent`dirtyB, signal.parent`notices
      ensures signal.parent.Valid()
      ensures Line() == DelayLine.Pop(old(Line()))
      ensures signal.active == (if old(outQueue)[0].level then 1 else 0) && outQueue == old(outQueue)[1..]
      ensures timer == if outQueue == [] then None else Some(outQueue[0].time)
      ensures signal.parent.View(signal) == Drive(old(signal.parent.View(signal)), signal, old(outQueue)[0].level)
      ensures signal.lastLevelChangeTime ==
              if signal.active != old(signal.active) then now else old(signal.lastLevelChangeTime)
      ensures signal.parent.Buffer(!signal.parent.dirtyAIsActive) ==
              old(signal.parent.Buffer(!signal.parent.dirtyAIsActive))
    {
      var ev := outQueue[0];
      outQueue := outQueue[1..];
      timer := None;
      signal.SetLevel(ev.level, now);
      if |outQueue| > 0 {
        ev := outQueue[0];
        timer := Some(ev.time);
      }
    }
  }

  /** Every unit drives a signal of the provider and is registered with those it reads, and
      nobody else is registered as a unit. */
  ghost predicate Connected(sp: SignalProvider, logic: seq<Logic>)
    reads sp, sp.signals.Values
  {
    && sp.Valid()
    && (forall l | l in logic :: l.signal in sp.signals.Values)
    && (forall l, i | l in logic && i in l.InputSet() ::
          i.input in sp.signals.Values && ToUnit(i, l) in i.input.receivers)
    && (forall s, r | s in sp.signals.Values && r in s.receivers && r.ToUnit? ::
          r.unit in logic && r.input.input == s && r.input in r.unit.InputSet())
  }

  class StateMachine {
    const sp: SignalProvider
    const logic: seq<Logic>
    /** The circuit as it was built; connections are not changed afterwards. */
    ghost const listeners: map<Signal, seq<Receiver>>
    ghost const wires: set<Signal>
    ghost const units: set<Logic>
    ghost const inputs: set<LogicInput>

    /** The dirty listener has been installed before the first unit was built. */
    constructor (sp: SignalProvider, logic: seq<Logic>)
      requires sp.listening
      ensures this.sp == sp && this.logic == logic
      ensures wires == sp.signals.Values && units == (set l | l in logic)
      ensures listeners == map s | s in wires :: s.receivers
      ensures inputs == set l, i | l in logic && i in l.InputSet() :: i
    {
      this.sp, this.logic := sp, logic;
      this.wires, this.units := sp.signals.Values, set l | l in logic;
      this.listeners := map s | s in sp.signals.Values :: s.receivers;
      this.inputs := set l, i | l in logic && i in l.InputSet() :: i;
    }

    /** As the constructor leaves it on a connected circuit. */
    lemma ConnectedIsValid()
      requires Connected(sp, logic) && sp.listening
      requires wires == sp.signals.Values && units == set l | l in logic
      requires listeners == map s | s in wires :: s.receivers
      requires inputs == set l, i | l in logic && i in l.InputSet() :: i
      ensures Valid()
    {
    }

    /** Neither delay nor filters, and nobody else drives the output. */
    ghost predicate Ideal(l: Logic) {
      && l.delayOutputUsec == 0
      && (forall i | i in l.InputSet() :: i.inputStableUsec == 0)
      && (forall k | k in units && k.signal == l.signal :: k == l)
    }

    /** The engine's netlist. */
    ghost function Net(): Net<Logic, Signal> {
      map l | l in units && Ideal(l) :: l.Unit()
    }

    /** All other units are foreign receivers; those with a delay do not drive their output in an
        evaluation. */
    ghost function Others(): map<Logic, Signal> {
      map l | l in units && !Ideal(l) && l.delayOutputUsec == 0 :: l.signal
    }

    /** The order of signals in a circuit that is acyclic up to plain holds of units of the
        netlist and loops through a delay. */
    ghost predicate InOrder(rank: map<Signal, nat>) {
      && (forall l | l in units && Ideal(l) ::
            RankOf(rank, l.signal) >= 1 && forall s | s in Wakers(l.Unit()) :: RankOf(rank, s) < RankOf(rank, l.signal))
      && (forall l, i | l in units && !Ideal(l) && l.delayOutputUsec == 0 && i in l.InputSet() ::
            RankOf(rank, i.input) < RankOf(rank, l.signal))
    }

    /** Such an order is one for the engine's termination theorems. */
    lemma OrderIsRank(rank: map<Signal, nat>)
      requires Built() && InOrder(rank)
      ensures Ranked(Net(), rank) && ForeignRanked(Net(), Fan(), Others(), rank)
    {
      forall s, l | s in Fan() && l in Fan()[s] && l !in Net() && l in Others()
        ensures RankOf(rank, s) < RankOf(rank, Others()[l])
      {
        ParentsMember(listeners[s], l);
        var r :| r in listeners[s] && r.ToUnit? && r.unit == l;
        assert r.input in l.InputSet() && r.input.input == s;
      }
    }

    ghost function Fan(): Fan<Signal, Logic> {
      map s | s in listeners :: Parents(listeners[s])
    }

    /** A wired circuit, whatever delays, filters and common outputs its units have. */
    ghost predicate Built() {
      && listeners.Keys == wires
      && (forall l | l in logic :: l in units)
      && (forall l | l in units :: l in logic)
      && (forall l | l in units :: l.signal in wires)
      && (forall l, i | l in units && i in l.InputSet() ::
            i in inputs && i.input in wires && ToUnit(i, l) in listeners[i.input])
      && (forall s, r | s in wires && r in listeners[s] && r.ToUnit? ::
            r.unit in units && r.input.input == s && r.input in r.unit.InputSet())
    }

    ghost predicate Valid()
      reads sp, sp.signals.Values, wires
    {
      && Built()
      && sp.Valid() && sp.listening && wires == sp.signals.Values
      && (forall s | s in wires :: s.receivers == listeners[s])
    }

    /** The engine's state; what the other units will do is not part of it. */
    ghost function State(): Engine<Signal, Logic>
      reads sp, wires, units
    {
      Engine(map s | s in wires :: s.active, sp.Active(),
             map l | l in Net() && l.lastValueValid :: l.lastValue, sp.notices, Others(), [], 0)
    }

    /** The engine's state, if the circuit is valid. */
    ghost function Now(): Option<Engine<Signal, Logic>>
      reads sp, sp.signals.Values, wires, units
    {
      if Valid() then Some(State()) else None
    }

    /** The object graph is a properly wired netlist among foreign receivers that leave its
        outputs alone, as the engine's theorems ask. */
    lemma ValidIsWired()
      requires Built()
      ensures SoleDrivers(Net()) && Wired(Net(), Fan()) && Benign(Net(), Others())
    {
      forall l, s | l in Net() && s in Inputs(Net()[l])
        ensures l in Receivers(Fan(), s)
      {
        var all := l.andInputs + l.orInputs;
        assert Net()[l].ands + Net()[l].ors == Literals(all);
        var k :| 0 <= k < |all| && Literals(all)[k].signal == s;
        assert all[k] in l.InputSet() && ToUnit(all[k], l) in listeners[s];
        ParentsMember(listeners[s], l);
      }
      forall s, l | s in Fan() && l in Fan()[s] && l in Net()
        ensures s in Inputs(Net()[l])
      {
        ParentsMember(listeners[s], l);
        var r :| r in listeners[s] && r.ToUnit? && r.unit == l;
        var all := l.andInputs + l.orInputs;
        assert Net()[l].ands + Net()[l].ors == Literals(all);
        var k :| 0 <= k < |all| && all[k] == r.input;
        assert Literals(all)[k] in Literals(all) && Literals(all)[k].signal == s;
      }
    }

    /** So when an evaluation of this circuit empties the list, every unit without delay and
        filters that is alone on its output is settled, whatever the other units did. */
    lemma EvaluationSettles(e: Engine<Signal, Logic>, did: seq<Act>)
      requires Built() && NothingLost(Net(), Play(e, did, 0), Front([], [], [], {}))
      requires Loop(Net(), Fan(), Play(e, did, 0)).batch == []
      ensures Fixpoint(Net(), Evaluate(Net(), Fan(), Play(e, did, 0)))
    {
      ValidIsWired();
      EmptyExitIsFixpoint(Net(), Fan(), Play(e, did, 0));
    }

    /** And in a circuit whose units are in order, of depth up to the limit, every evaluation
        leaves them settled. */
    lemma OrderedEvaluationSettles(e: Engine<Signal, Logic>, did: seq<Act>, rank: map<Signal, nat>, depth: nat)
      requires Built() && InOrder(rank) && DepthAtMost(rank, depth) && depth <= 10000 && e.foreign == Others()
      requires NothingLost(Net(), Play(e, did, 0), Front([], [], [], {}))
      ensures Fixpoint(Net(), Evaluate(Net(), Fan(), Play(e, did, 0)))
    {
      ValidIsWired();
      OrderIsRank(rank);
      Convergence.RankedReachesFixpoint(Net(), Fan(), Play(e, did, 0), rank, depth);
    }

    lemma SeesIsHigh(l: Logic, ins: seq<LogicInput>, now: nat)
      requires Valid() && l in units && Ideal(l) && (ins == l.andInputs || ins == l.orInputs)
      ensures |Literals(ins)| == |ins|
      ensures forall k | 0 <= k < |ins| :: l.Sees(ins[k], now) == High(Literals(ins)[k], State().levels)
    {
      assert forall k | 0 <= k < |ins| :: ins[k] in l.InputSet();
    }

    ghost function Expected(l: Logic): bool
      reads sp, wires, units
    {
      Gate(l.Unit(), State().levels)
    }

    /** A unit without filters computes the engine's gate. */
    lemma ResultIsGate(l: Logic, now: nat)
      requires Valid() && l in units && Ideal(l)
      ensures l.Result(now) == Expected(l)
    {
      SeesIsHigh(l, l.andInputs, now);
      SeesIsHigh(l, l.orInputs, now);
      AllByIndex(l.Unit().ands, State().levels);
      AnyByIndex(l.Unit().ors, State().levels);
    }

    /** What an update of the unit starts from. */
    lemma ReadyToUpdate(l: Logic, now: nat)
      requires Now().Some? && l in units
      ensures sp.Valid() && l.signal.parent == sp && l.signal in sp.signals.Values
      ensures Genuine(Now().value, l, l.Line().last, l.Result(now))
    {
      if Ideal(l) {
        ResultIsGate(l, now);
      }
    }

    twostate lemma WiringStays()
      requires old(Valid()) && sp.Valid() && sp.signals == old(sp.signals) && sp.listening
      requires forall s | s in wires :: s.receivers == old(s.receivers)
      ensures Valid()
    {
    }

    twostate lemma LevelsAfter(l: Logic)
      requires l.signal in wires
      requires forall s | s in wires && s != l.signal :: s.active == old(s.active)
      ensures State().levels == old(State()).levels[l.signal := l.signal.active]
    {
    }

    twostate lemma LastAfter(l: Logic)
      requires l in units && l.lastValueValid
      requires forall k | k in units && k != l ::
                 k.lastValueValid == old(k.lastValueValid) && k.lastValue == old(k.lastValue)
      ensures State().last == if Ideal(l) then old(State()).last[l := l.lastValue] else old(State()).last
    {
    }

    twostate lemma ValuesStay()
      requires forall s | s in wires :: s.active == old(s.active)
      requires forall l | l in units :: l.lastValueValid == old(l.lastValueValid) && l.lastValue == old(l.lastValue)
      ensures State().levels == old(State()).levels && State().last == old(State()).last
    {
    }

    /** Driving a wire is the engine's `SetLevel`. */
    lemma DriveIsSetLevel(e: Engine<Signal, Logic>, v: Listing, s: Signal, value: bool)
      requires v.level == At(e.levels, s) && v.list == e.pending && v.notices == e.notices && v.listening
      ensures var w, n := Drive(v, s, value), SetLevel(e, s, value);
              && n.pending == w.list && n.notices == w.notices && n.last == e.last
              && n.foreign == e.foreign && n.script == e.script
              && n.levels == (if w.level == v.level then e.levels else e.levels[s := w.level])
    {
    }

    /** The engine's state after the unit has published a result. */
    ghost function Shown(e: Engine<Signal, Logic>, l: Logic, last: Option<bool>, result: bool): Engine<Signal, Logic> {
      var n := if l.Deed(last, result).Sets? then SetLevel(e, l.signal, result) else e;
      if Ideal(l) then n.(last := n.last[l := result]) else n
    }

    /** What `Logic.Update` ensures about the objects, as a change of the engine's state. */
    twostate lemma UpdateShows(l: Logic)
      requires l.signal in wires && l in units && old(sp.listening) && l.lastValueValid
      requires sp.View(l.signal) == l.After(old(sp.View(l.signal)), old(l.Line()).last, l.lastValue)
      requires forall s | s in wires && s != l.signal :: s.active == old(s.active)
      requires forall k | k in units && k != l ::
                 k.lastValueValid == old(k.lastValueValid) && k.lastValue == old(k.lastValue)
      ensures State() == Shown(old(State()), l, old(l.Line()).last, l.lastValue)
    {
      LevelsAfter(l);
      LastAfter(l);
      var e := old(State());
      DriveIsSetLevel(e, old(sp.View(l.signal)), l.signal, l.lastValue);
      assert l.signal.active == old(l.signal.active) ==> e.levels[l.signal := l.signal.active] == e.levels;
    }

    /** For a unit of the netlist, its cached result and the gate's. */
    ghost predicate Genuine(e: Engine<Signal, Logic>, l: Logic, last: Option<bool>, result: bool) {
      e.foreign == Others() && (Ideal(l) ==> (last, result) == (Cached(e, l), Gate(l.Unit(), e.levels)))
    }

    ghost function Cached(e: Engine<Signal, Logic>, l: Logic): Option<bool> {
      if l in e.last then Some(e.last[l]) else None
    }

    /** That change is one update of the engine: of a unit of the netlist, which cannot help its
        result, or of a foreign receiver with the result as its act. */
    lemma ShownIsUpdate(e: Engine<Signal, Logic>, l: Logic, last: Option<bool>, result: bool, before: seq<Act>)
      requires l in units && Genuine(e, l, last, result)
      ensures var did := Record(before, l, last, result);
              Propagation.Update(Net(), Play(e, did, |before|), l) == Played(Shown(e, l, last, result), did)
    {
      OneUpdate(Net(), e, l, before, l.Deed(last, result));
      if Ideal(l) && last == Some(result) {
        assert e.last[l := result] == e.last;
      }
    }

    /** The record with what the unit did, if it is not one of the netlist. */
    ghost function Record(before: seq<Act>, l: Logic, last: Option<bool>, result: bool): seq<Act> {
      if Ideal(l) then before else before + [l.Deed(last, result)]
    }

    /** What `Logic.Update` ensures about the objects, for a valid circuit. */
    twostate lemma UpdateRefines(l: Logic)
      requires old(Now()).Some? && l in units && l.signal.parent == sp && l.signal.parent.Valid()
      requires sp.signals == old(sp.signals) && sp.listening == old(sp.listening)
      requires l.lastValueValid
      requires sp.View(l.signal) == l.After(old(sp.View(l.signal)), old(l.Line()).last, l.lastValue)
      requires forall s | s in wires :: s.receivers == old(s.receivers)
      requires forall s | s in wires && s != l.signal :: s.active == old(s.active)
      requires forall k | k in units && k != l ::
                 k.lastValueValid == old(k.lastValueValid) && k.lastValue == old(k.lastValue)
      ensures Now() == Some(Shown(old(Now()).value, l, old(l.Line()).last, l.lastValue))
    {
      WiringStays();
      UpdateShows(l);
    }

    method OnDirtySet()
      modifies sp`notices
      ensures sp.notices == old(sp.notices) + 1
    {
      sp.Announce();
    }

    /** Notifies the receivers of every signal of the fetched batch. */
    method VisitBatch(signals: bool, now: nat, ghost before: seq<Act>) returns (ghost did: seq<Act>)
      requires Now().Some? && signals == !sp.dirtyAIsActive
      modifies sp`dirtyA, sp`dirtyB, sp`notices
      modifies wires`active, wires`dirty, wires`lastLevelChangeTime
      modifies units`lastValue, units`lastValueValid, units`outQueue, units`timer
      modifies inputs`level, inputs`timer
      ensures Now().Some? && before <= did
      ensures Visit(Net(), Fan(), Play(old(Now()).value, did, |before|), old(sp.Buffer(signals))) ==
              Played(Now().value, did)
    {
      ghost var course := VisitCourse(Net(), Fan(), Now().value, before, sp.Buffer(signals));
      did := VisitEach(signals, now, Now().value, before, sp.Buffer(signals), course);
    }

    /** Notifies the receivers of one signal of the batch, the next after `k`. */
    method VisitNext(signals: bool, k: nat, now: nat, ghost e: Engine<Signal, Logic>, ghost asked: nat,
                     ghost batch: seq<Signal>,
                     ghost course: (seq<Act>, nat) -> Engine<Signal, Logic>, ghost before: seq<Act>)
        returns (ghost did: seq<Act>)
      requires Now().Some? && signals == !sp.dirtyAIsActive && batch == sp.Buffer(signals) && k < |batch|
      requires ChartsVisit(Net(), Fan(), e, asked, batch, course) && course(before, k) == Played(Now().value, before)
      modifies sp`dirtyA, sp`dirtyB, sp`notices
      modifies wires`active, wires`dirty, wires`lastLevelChangeTime
      modifies units`lastValue, units`lastValueValid, units`outQueue, units`timer
      modifies inputs`level, inputs`timer
      ensures Now().Some? && before <= did && sp.Buffer(signals) == batch
      ensures course(did, k + 1) == Played(Now().value, did)
    {
      ghost var m := Now().value;
      did := sp.Buffer(signals)[k].UpdateReceivers(now, this, before);
      VisitCharted(Net(), Fan(), e, asked, batch, course, k, before, m, did, Now().value);
    }

    /** The loop over the batch. */
    method VisitEach(signals: bool, now: nat, ghost e: Engine<Signal, Logic>, ghost before: seq<Act>,
                     ghost batch: seq<Signal>,
                     ghost course: (seq<Act>, nat) -> Engine<Signal, Logic>) returns (ghost did: seq<Act>)
      requires Now().Some? && signals == !sp.dirtyAIsActive && batch == sp.Buffer(signals)
      requires ChartsVisit(Net(), Fan(), e, |before|, batch, course) && course(before, 0) == Played(Now().value, before)
      modifies sp`dirtyA, sp`dirtyB, sp`notices
      modifies wires`active, wires`dirty, wires`lastLevelChangeTime
      modifies units`lastValue, units`lastValueValid, units`outQueue, units`timer
      modifies inputs`level, inputs`timer
      ensures Now().Some? && before <= did && course(did, |batch|) == Played(Now().value, did)
    {
      var k := 0;
      did := before;
      while k < |sp.Buffer(signals)|
        invariant Now().Some? && before <= did && sp.Buffer(signals) == batch && k <= |batch|
        invariant course(did, k) == Played(Now().value, did)
      {
        did := VisitNext(signals, k, now, e, |before|, batch, course, did);
        k := k + 1;
      }
    }

    /** One fetch. */
    method Fetch() returns (signals: bool)
      requires Now().Some?
      modifies sp`dirtyAIsActive, sp`dirtyA, sp`dirtyB, wires`dirty
      ensures signals == !sp.dirtyAIsActive && sp.Buffer(signals) == old(Now()).value.pending
      ensures Now() == Some(Fetched(old(Now()).value))
    {
      signals := sp.GetDirtySignalsAndClearList();
      WiringStays();
      ValuesStay();
    }

    /** One pass of the loop, the next after `k`: the batch is visited and the next one fetched. */
    method Round(signals: bool, now: nat, ghost e: Engine<Signal, Logic>, ghost batch: seq<Signal>,
                 ghost course: (seq<Act>, nat) -> Outcome<Signal, Logic>, ghost k: nat, ghost before: seq<Act>)
        returns (next: bool, ghost did: seq<Act>)
      requires Now().Some? && signals == !sp.dirtyAIsActive && sp.Buffer(signals) != []
      requires ChartsRounds(Net(), Fan(), e, batch, course)
      requires course(before, k) == Outcome(Played(Now().value, before), sp.Buffer(signals), 0)
      modifies sp`dirtyAIsActive, sp`dirtyA, sp`dirtyB, sp`notices
      modifies wires`active, wires`dirty, wires`lastLevelChangeTime
      modifies units`lastValue, units`lastValueValid, units`outQueue, units`timer
      modifies inputs`level, inputs`timer
      ensures Now().Some? && next == !sp.dirtyAIsActive && before <= did
      ensures course(did, k + 1) == Outcome(Played(Now().value, did), sp.Buffer(next), 0)
    {
      ghost var m, left := Now().value, sp.Buffer(signals);
      did := VisitBatch(signals, now, before);
      ghost var v := Now().value;
      next := Fetch();
      RoundCharted(Net(), Fan(), e, batch, course, k, before, m, left, did, v);
    }

    /** The report of a failed evaluation. */
    method Retry(timeout: nat)
      requires Now().Some?
      modifies sp`notices
      ensures Now() == Some(var e := old(Now()).value; if timeout == 0 then e.(notices := e.notices + 1) else e)
    {
      if timeout == 0 {
        OnDirtySet();
        WiringStays();
        ValuesStay();
      }
    }

    /** The loop itself: `limit - timeout` rounds lead to the present state. */
    method Drain(fetched: bool, now: nat, limit: nat, ghost e: Engine<Signal, Logic>, ghost batch: seq<Signal>,
                 ghost course: (seq<Act>, nat) -> Outcome<Signal, Logic>)
        returns (signals: bool, timeout: nat, ghost did: seq<Act>)
      requires Now().Some? && fetched == !sp.dirtyAIsActive
      requires ChartsRounds(Net(), Fan(), e, batch, course)
      requires course([], 0) == Outcome(Played(Now().value, []), sp.Buffer(fetched), 0)
      modifies sp`dirtyAIsActive, sp`dirtyA, sp`dirtyB, sp`notices
      modifies wires`active, wires`dirty, wires`lastLevelChangeTime
      modifies units`lastValue, units`lastValueValid, units`outQueue, units`timer
      modifies inputs`level, inputs`timer
      ensures Now().Some? && timeout <= limit && (sp.Buffer(signals) == [] || timeout == 0)
      ensures course(did, limit - timeout) == Outcome(Played(Now().value, did), sp.Buffer(signals), 0)
    {
      timeout, signals, did := limit, fetched, [];
      while |sp.Buffer(signals)| > 0 && timeout > 0
        invariant Now().Some? && signals == !sp.dirtyAIsActive && timeout <= limit
        invariant course(did, limit - timeout) == Outcome(Played(Now().value, did), sp.Buffer(signals), 0)
        decreases timeout
      {
        signals, did := Round(signals, now, e, batch, course, limit - timeout, did);
        timeout := timeout - 1;
      }
    }

    /** The evaluation handler, on every wired circuit: it is the engine's `Evaluate`, in which
        the units with delays or filters do what they did here. */
    method EvaluateState(now: nat) returns (ghost did: seq<Act>)
      requires Now().Some?
      modifies sp`dirtyAIsActive, sp`dirtyA, sp`dirtyB, sp`notices
      modifies wires`active, wires`dirty, wires`lastLevelChangeTime
      modifies units`lastValue, units`lastValueValid, units`outQueue, units`timer
      modifies inputs`level, inputs`timer
      ensures Now().Some? && Played(Now().value, did) == Evaluate(Net(), Fan(), Play(old(Now()).value, did, 0))
    {
      ghost var e := Now().value;
      ghost var course := RoundsCourse(Net(), Fan(), Fetched(e), e.pending);
      ghost var k, n, left;
      k, n, left, did := RunLoop(now, course);
      Finished(Net(), Fan(), e, course, did, k, n, left);
    }

    /** Fetches, loops, and reports a failure. */
    method RunLoop(now: nat, ghost course: (seq<Act>, nat) -> Outcome<Signal, Logic>)
        returns (ghost k: nat, ghost n: Engine<Signal, Logic>, ghost left: seq<Signal>, ghost did: seq<Act>)
      requires Now().Some?
      requires var e := Now().value;
               && ChartsRounds(Net(), Fan(), Fetched(e), e.pending, course)
               && course([], 0) == Outcome(Played(Fetched(e), []), e.pending, 0)
      modifies sp`dirtyAIsActive, sp`dirtyA, sp`dirtyB, sp`notices
      modifies wires`active, wires`dirty, wires`lastLevelChangeTime
      modifies units`lastValue, units`lastValueValid, units`outQueue, units`timer
      modifies inputs`level, inputs`timer
      ensures course(did, k) == Outcome(Played(n, did), left, 0) && k <= ROUND_LIMIT && (left == [] || k == ROUND_LIMIT)
      ensures Now() == Some(if k == ROUND_LIMIT then n.(notices := n.notices + 1) else n)
    {
      ghost var e := Now().value;
      var fetched := Fetch();
      var signals, timeout;
      signals, timeout, did := Drain(fetched, now, ROUND_LIMIT, Fetched(e), e.pending, course);
      k, n, left := ROUND_LIMIT - timeout, Now().value, sp.Buffer(signals);
      Retry(timeout);
    }
  }
}
