/** Boolean units of the sequencer: three-valued signals, gate functions, and the
    facts about a gate that the propagation engine relies on. */
module Netlist {

  /** -1 is "never driven"; a driven signal is 0 or 1. */
  type Level = x: int | -1 <= x <= 1 witness -1

  datatype Input<S> = Input(signal: S, invert: bool)

  /** One unit of the `power_sequencer` section, without its timing. */
  datatype Unit<S> = Unit(ands: seq<Input<S>>, ors: seq<Input<S>>,
                          andThenOr: bool, invertFirst: bool, activeLow: bool, out: S)

  function At<S>(levels: map<S, Level>, s: S): Level {
    if s in levels then levels[s] else -1
  }

  function FromBool(b: bool): Level {
    if b then 1 else 0
  }

  /** What an unfiltered input contributes: an unknown signal reads low, inverted or not. */
  predicate Reads(level: Level, invert: bool) {
    level >= 0 && (level == 1) != invert
  }

  ghost predicate High<S>(i: Input<S>, levels: map<S, Level>) {
    Reads(At(levels, i.signal), i.invert)
  }

  /** The two-gate cascade. A first gate without inputs is skipped, inverter included. */
  predicate Cascade(andThenOr: bool, invertFirst: bool, activeLow: bool,
                    hasAnd: bool, hasOr: bool, allAnd: bool, anyOr: bool)
  {
    var core :=
      if andThenOr
      then (hasAnd && allAnd != invertFirst) || anyOr
      else (!hasOr || anyOr != invertFirst) && allAnd;
    core != activeLow
  }

  ghost predicate Gate<S>(u: Unit<S>, levels: map<S, Level>) {
    Cascade(u.andThenOr, u.invertFirst, u.activeLow, u.ands != [], u.ors != [],
            forall i | i in u.ands :: High(i, levels),
            exists i | i in u.ors :: High(i, levels))
  }

  ghost function Inputs<S>(u: Unit<S>): set<S> {
    set i | i in u.ands + u.ors :: i.signal
  }

  /** The unit may read its own output, but only on a path without any inverter. */
  ghost predicate PlainHold<S>(u: Unit<S>) {
    !u.activeLow && !u.invertFirst &&
    forall i | i in u.ands + u.ors && i.signal == u.out :: !i.invert
  }

  /** The inputs whose change can leave the unit's output stale. */
  ghost function Wakers<S>(u: Unit<S>): set<S> {
    if PlainHold(u) then Inputs(u) - {u.out} else Inputs(u)
  }

  // ---------- What a gate computes, by the inputs it has ----------

  /** A literal contributes when its signal is driven to the level it asks for. */
  lemma HighIs<S>(i: Input<S>, levels: map<S, Level>)
    ensures High(i, levels) <==> i.signal in levels && levels[i.signal] == if i.invert then 0 else 1
  {
  }

  /** All literals contribute. */
  ghost predicate AllOf<S>(ins: seq<Input<S>>, levels: map<S, Level>) {
    forall k | 0 <= k < |ins| :: At(levels, ins[k].signal) == if ins[k].invert then 0 else 1
  }

  /** Some literal contributes. */
  ghost predicate SomeOf<S>(ins: seq<Input<S>>, levels: map<S, Level>) {
    exists k | 0 <= k < |ins| :: At(levels, ins[k].signal) == if ins[k].invert then 0 else 1
  }

  lemma LiteralsByIndex<S>(ins: seq<Input<S>>, levels: map<S, Level>)
    ensures (forall i | i in ins :: High(i, levels)) <==> AllOf(ins, levels)
    ensures (exists i | i in ins :: High(i, levels)) <==> SomeOf(ins, levels)
  {
    assert forall k | 0 <= k < |ins| :: ins[k] in ins;
    if i :| i in ins && High(i, levels) {
      var k :| 0 <= k < |ins| && ins[k] == i;
      assert At(levels, ins[k].signal) == if ins[k].invert then 0 else 1;
    }
  }

  /** With OR inputs alone the unit is an OR gate: its first gate in the default order, the
      second one behind a skipped AND gate otherwise. */
  lemma OrAlone<S>(u: Unit<S>, levels: map<S, Level>)
    requires u.ands == [] && u.ors != []
    ensures !u.andThenOr && !u.invertFirst && !u.activeLow ==> (Gate(u, levels) <==> SomeOf(u.ors, levels))
    ensures !u.andThenOr && !u.invertFirst && u.activeLow ==> (Gate(u, levels) <==> !SomeOf(u.ors, levels))
    ensures !u.andThenOr && u.invertFirst && !u.activeLow ==> (Gate(u, levels) <==> !SomeOf(u.ors, levels))
    ensures !u.andThenOr && u.invertFirst && u.activeLow ==> (Gate(u, levels) <==> SomeOf(u.ors, levels))
    ensures u.andThenOr && !u.activeLow ==> (Gate(u, levels) <==> SomeOf(u.ors, levels))
    ensures u.andThenOr && u.activeLow ==> (Gate(u, levels) <==> !SomeOf(u.ors, levels))
  {
    LiteralsByIndex(u.ands, levels);
    LiteralsByIndex(u.ors, levels);
  }

  /** With AND inputs alone it is an AND gate: the second one behind a skipped OR gate in the
      default order, the first one otherwise. */
  lemma AndAlone<S>(u: Unit<S>, levels: map<S, Level>)
    requires u.ands != [] && u.ors == []
    ensures !u.andThenOr && !u.activeLow ==> (Gate(u, levels) <==> AllOf(u.ands, levels))
    ensures !u.andThenOr && u.activeLow ==> (Gate(u, levels) <==> !AllOf(u.ands, levels))
    ensures u.andThenOr && !u.invertFirst && !u.activeLow ==> (Gate(u, levels) <==> AllOf(u.ands, levels))
    ensures u.andThenOr && !u.invertFirst && u.activeLow ==> (Gate(u, levels) <==> !AllOf(u.ands, levels))
    ensures u.andThenOr && u.invertFirst && !u.activeLow ==> (Gate(u, levels) <==> !AllOf(u.ands, levels))
    ensures u.andThenOr && u.invertFirst && u.activeLow ==> (Gate(u, levels) <==> AllOf(u.ands, levels))
  {
    LiteralsByIndex(u.ands, levels);
    LiteralsByIndex(u.ors, levels);
  }

  /** With both, in the default order: the OR gate, inverted or not, is one more AND input. */
  lemma OrThenAnd<S>(u: Unit<S>, levels: map<S, Level>)
    requires u.ands != [] && u.ors != [] && !u.andThenOr
    ensures !u.invertFirst && !u.activeLow ==> (Gate(u, levels) <==> SomeOf(u.ors, levels) && AllOf(u.ands, levels))
    ensures !u.invertFirst && u.activeLow ==> (Gate(u, levels) <==> !(SomeOf(u.ors, levels) && AllOf(u.ands, levels)))
    ensures u.invertFirst && !u.activeLow ==> (Gate(u, levels) <==> !SomeOf(u.ors, levels) && AllOf(u.ands, levels))
    ensures u.invertFirst && u.activeLow ==> (Gate(u, levels) <==> SomeOf(u.ors, levels) || !AllOf(u.ands, levels))
  {
    LiteralsByIndex(u.ands, levels);
    LiteralsByIndex(u.ors, levels);
  }

  /** With both, the other way round: the AND gate is one more OR input. */
  lemma AndThenOr<S>(u: Unit<S>, levels: map<S, Level>)
    requires u.ands != [] && u.ors != [] && u.andThenOr
    ensures !u.invertFirst && !u.activeLow ==> (Gate(u, levels) <==> AllOf(u.ands, levels) || SomeOf(u.ors, levels))
    ensures !u.invertFirst && u.activeLow ==> (Gate(u, levels) <==> !AllOf(u.ands, levels) && !SomeOf(u.ors, levels))
    ensures u.invertFirst && !u.activeLow ==> (Gate(u, levels) <==> !AllOf(u.ands, levels) || SomeOf(u.ors, levels))
    ensures u.invertFirst && u.activeLow ==> (Gate(u, levels) <==> AllOf(u.ands, levels) && !SomeOf(u.ors, levels))
  {
    LiteralsByIndex(u.ands, levels);
    LiteralsByIndex(u.ors, levels);
  }

  /** Without inputs the unit is a constant: an AND gate without inputs is high and an OR gate
      without inputs low, the second gate deciding. */
  lemma NoInputs<S>(u: Unit<S>, levels: map<S, Level>)
    requires u.ands == [] && u.ors == []
    ensures !u.andThenOr ==> (Gate(u, levels) <==> !u.activeLow)
    ensures u.andThenOr ==> (Gate(u, levels) <==> u.activeLow)
  {
  }

  lemma GateFrame<S>(u: Unit<S>, a: map<S, Level>, b: map<S, Level>)
    requires forall s | s in Inputs(u) :: At(a, s) == At(b, s)
    ensures Gate(u, a) == Gate(u, b)
  {
  }

  /** Driving a hold unit's output to the gate's result does not change that result. */
  lemma HoldIsStable<S>(u: Unit<S>, levels: map<S, Level>)
    requires PlainHold(u)
    ensures Gate(u, levels[u.out := FromBool(Gate(u, levels))]) == Gate(u, levels)
  {
  }

  ghost function Negated<S>(ins: seq<Input<S>>): seq<Input<S>> {
    seq(|ins|, k requires 0 <= k < |ins| => Input(ins[k].signal, !ins[k].invert))
  }

  /** De Morgan dual: AND and OR change places and every literal is negated. */
  ghost function Dual<S>(u: Unit<S>): Unit<S> {
    Unit(Negated(u.ors), Negated(u.ands), !u.andThenOr, u.invertFirst, !u.activeLow, u.out)
  }

  /** The two cascade orders are duals of each other once every input is known, with the
      skipped empty first gate as neutral element on both sides. */
  lemma DualGate<S>(u: Unit<S>, levels: map<S, Level>)
    requires forall s | s in Inputs(u) :: At(levels, s) >= 0
    ensures Gate(Dual(u), levels) == Gate(u, levels)
  {
    NegatedReads(u.ands, levels) by {
      forall k | 0 <= k < |u.ands|
        ensures At(levels, u.ands[k].signal) >= 0
      {
        assert u.ands[k] in u.ands + u.ors;
      }
    }
    NegatedReads(u.ors, levels) by {
      forall k | 0 <= k < |u.ors|
        ensures At(levels, u.ors[k].signal) >= 0
      {
        assert u.ors[k] in u.ands + u.ors;
      }
    }
  }

  lemma NegatedReads<S>(ins: seq<Input<S>>, levels: map<S, Level>)
    requires forall k | 0 <= k < |ins| :: At(levels, ins[k].signal) >= 0
    ensures (forall i | i in Negated(ins) :: High(i, levels)) <==> !exists i | i in ins :: High(i, levels)
    ensures (exists i | i in Negated(ins) :: High(i, levels)) <==> !forall i | i in ins :: High(i, levels)
  {
    var n := Negated(ins);
    assert forall k | 0 <= k < |ins| :: n[k] in n && ins[k] in ins && High(n[k], levels) == !High(ins[k], levels);
  }

  /** Without that condition duality fails: an unknown AND input blocks the unit whatever
      its polarity. */
  lemma UnknownBreaksDuality(levels: map<nat, Level>)
    requires At(levels, 0) == -1
    ensures var u := Unit([Input(0, false)], [], false, false, false, 1);
            Gate(Dual(u), levels) != Gate(u, levels)
  {
    var u := Unit([Input(0, false)], [], false, false, false, 1);
    assert u.ands[0] in u.ands && !High(u.ands[0], levels);
    assert Dual(u).ors == [Input(0, true)] && Dual(u).ands == [];
    assert !exists i | i in Dual(u).ors :: High(i, levels);
  }
}
