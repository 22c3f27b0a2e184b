/** Hold units: `out = (set OR out) AND NOT clear`, the sequencer's way to keep a fault. */
module Hold {
  import opened Netlist
  import opened Propagation

  ghost predicate HoldShape<S>(u: Unit<S>, setter: S, clear: S) {
    && u.ors == [Input(setter, false), Input(u.out, false)]
    && u.ands == [Input(clear, true)]
    && !u.andThenOr && !u.invertFirst && !u.activeLow
    && clear != u.out && setter != u.out
  }

  /** An unknown clear input counts as asserted: inverted or not, unknown reads low. */
  lemma HoldGate<S>(u: Unit<S>, setter: S, clear: S, levels: map<S, Level>)
    requires HoldShape(u, setter, clear)
    ensures Gate(u, levels) <==> (At(levels, setter) == 1 || At(levels, u.out) == 1) && At(levels, clear) == 0
  {
    assert u.ors[0] in u.ors && u.ors[1] in u.ors && u.ands[0] in u.ands;
  }

  /** A step of a run as the netlist sees it: a source is driven or a unit is updated. */
  datatype Move<S, U> = Drive(signal: S, value: bool) | Run(unit: U)

  ghost function Step<S, U>(net: Net<U, S>, e: Engine<S, U>, m: Move<S, U>): Engine<S, U> {
    match m
    case Drive(s, v) => SetLevel(e, s, v)
    case Run(u) => Update(net, e, u)
  }

  ghost function Trace<S, U>(net: Net<U, S>, e: Engine<S, U>, moves: seq<Move<S, U>>): Engine<S, U>
    decreases |moves|
  {
    if moves == [] then e else Trace(net, Step(net, e, moves[0]), moves[1..])
  }

  /** What one update of the hold unit saw. */
  datatype Seen = Seen(fault: bool, clearLow: bool)

  ghost function Observed<S, U>(net: Net<U, S>, e: Engine<S, U>, moves: seq<Move<S, U>>, h: U, setter: S,
                                clear: S): seq<Seen>
    decreases |moves|
  {
    if moves == [] then []
    else
      (if moves[0] == Run(h) then [Seen(At(e.levels, setter) == 1, At(e.levels, clear) == 0)] else [])
      + Observed(net, Step(net, e, moves[0]), moves[1..], h, setter, clear)
  }

  /** High since some set, or since before the run, with the clear input low in every update
      from then on. */
  ghost predicate HeldSince(before: bool, seen: seq<Seen>) {
    || (before && forall j | 0 <= j < |seen| :: seen[j].clearLow)
    || exists i | 0 <= i < |seen| :: seen[i].fault && forall j | i <= j < |seen| :: seen[j].clearLow
  }

  /** No step but the unit's own update moves an output. */
  lemma OutputStep<S, U>(net: Net<U, S>, e: Engine<S, U>, m: Move<S, U>, h: U)
    requires SoleDrivers(net) && CacheShown(net, e) && h in net
    requires m.Drive? ==> !IsOutput(net, m.signal)
    ensures CacheShown(net, Step(net, e, m))
    ensures m != Run(h) ==> At(Step(net, e, m).levels, net[h].out) == At(e.levels, net[h].out)
  {
    if m.Run? && m.unit in net {
      UpdateDisturbs(net, e, m.unit);
    } else if m.Run? {
      ForeignSpares(net, e, m.unit, h);
    }
  }

  lemma ForeignSpares<S, U>(net: Net<U, S>, e: Engine<S, U>, u: U, h: U)
    requires CacheShown(net, e) && h in net
    ensures CacheShown(net, Foreign(e, u)) && At(Foreign(e, u).levels, net[h].out) == At(e.levels, net[h].out)
  {
  }

  lemma HoldUpdate<S, U>(net: Net<U, S>, e: Engine<S, U>, h: U, setter: S, clear: S)
    requires CacheShown(net, e) && h in net && HoldShape(net[h], setter, clear)
    ensures At(Update(net, e, h).levels, net[h].out) == FromBool(
              (At(e.levels, net[h].out) == 1 || At(e.levels, setter) == 1) && At(e.levels, clear) == 0)
  {
    HoldGate(net[h], setter, clear, e.levels);
  }

  /** One step moves the hold output only if it is the hold unit's own update. */
  lemma HoldStep<S, U>(net: Net<U, S>, e: Engine<S, U>, m: Move<S, U>, h: U, setter: S, clear: S)
    requires SoleDrivers(net) && CacheShown(net, e)
    requires h in net && HoldShape(net[h], setter, clear)
    requires m.Drive? ==> !IsOutput(net, m.signal)
    ensures var n := Step(net, e, m);
            && CacheShown(net, n)
            && (m != Run(h) ==> At(n.levels, net[h].out) == At(e.levels, net[h].out))
            && (m == Run(h) ==> At(n.levels, net[h].out) == FromBool(
                  (At(e.levels, net[h].out) == 1 || At(e.levels, setter) == 1) && At(e.levels, clear) == 0))
  {
    OutputStep(net, e, m, h);
    HoldUpdate(net, e, h, setter, clear);
  }

  /** Over every run, cyclic netlist or not, the hold output is high exactly when some update
      saw the fault and no update since then saw the clear input other than low. */
  lemma {:induction false} HoldRemembers<S, U>(net: Net<U, S>, e: Engine<S, U>, moves: seq<Move<S, U>>, h: U, setter: S,
                                               clear: S)
    requires SoleDrivers(net) && CacheShown(net, e)
    requires h in net && HoldShape(net[h], setter, clear)
    requires forall m | m in moves && m.Drive? :: !IsOutput(net, m.signal)
    ensures At(Trace(net, e, moves).levels, net[h].out) == 1 <==>
            HeldSince(At(e.levels, net[h].out) == 1, Observed(net, e, moves, h, setter, clear))
    decreases |moves|
  {
    if moves != [] {
      var n := Step(net, e, moves[0]);
      HoldStep(net, e, moves[0], h, setter, clear);
      HoldRemembers(net, n, moves[1..], h, setter, clear);
      var later := Observed(net, n, moves[1..], h, setter, clear);
      if moves[0] == Run(h) {
        HeldCons(At(e.levels, net[h].out) == 1, Seen(At(e.levels, setter) == 1, At(e.levels, clear) == 0), later);
      } else {
        assert Observed(net, e, moves, h, setter, clear) == later;
      }
    }
  }

  lemma HeldCons(before: bool, first: Seen, later: seq<Seen>)
    ensures HeldSince(before, [first] + later) == HeldSince((before || first.fault) && first.clearLow, later)
  {
    var all := [first] + later;
    assert forall j | 0 <= j < |later| :: all[j + 1] == later[j];
    if HeldSince((before || first.fault) && first.clearLow, later) {
      if i :| 0 <= i < |later| && later[i].fault && forall j | i <= j < |later| :: later[j].clearLow {
        assert all[i + 1].fault && forall j | i + 1 <= j < |all| :: all[j] == later[j - 1];
      } else if first.fault && first.clearLow {
        assert all[0].fault && forall j | 1 <= j < |all| :: all[j] == later[j - 1];
      }
    }
    if before && forall j | 0 <= j < |all| :: all[j].clearLow {
      assert all[0].clearLow && forall j | 0 <= j < |later| :: later[j] == all[j + 1];
    }
    if i :| 0 <= i < |all| && all[i].fault && forall j | i <= j < |all| :: all[j].clearLow {
      assert forall j | 0 <= j < |later| && i <= j + 1 :: later[j] == all[j + 1];
      if i == 0 {
        assert all[0] == first && first.fault && first.clearLow;
      } else {
        assert later[i - 1] == all[i];
      }
    }
  }

  // ---------- An evaluation is such a run ----------

  ghost function Runs<S, U>(us: seq<U>): seq<Move<S, U>> {
    seq(|us|, k requires 0 <= k < |us| => Run(us[k]))
  }

  ghost predicate SameCore<S, U>(a: Engine<S, U>, b: Engine<S, U>) {
    a.levels == b.levels && a.last == b.last && a.foreign == b.foreign && a.script == b.script && a.asked == b.asked
  }

  lemma StepCore<S, U>(net: Net<U, S>, a: Engine<S, U>, b: Engine<S, U>, m: Move<S, U>)
    requires SameCore(a, b)
    ensures SameCore(Step(net, a, m), Step(net, b, m))
  {
    if m.Run? {
      UpdateCore(net, a, b, m.unit);
    }
  }

  lemma UpdateCore<S, U>(net: Net<U, S>, a: Engine<S, U>, b: Engine<S, U>, u: U)
    requires SameCore(a, b)
    ensures SameCore(Update(net, a, u), Update(net, b, u))
  {
    if u in net {
      SetLevelCore(a, b, net[u].out, Gate(net[u], a.levels));
    } else {
      ForeignCore(a, b, u);
    }
  }

  lemma ForeignCore<S, U>(a: Engine<S, U>, b: Engine<S, U>, u: U)
    requires SameCore(a, b)
    ensures SameCore(Foreign(a, u), Foreign(b, u))
  {
    if u in a.foreign && a.asked < |a.script| && a.script[a.asked].Sets? {
      SetLevelCore(a.(asked := a.asked + 1), b.(asked := b.asked + 1), a.foreign[u], a.script[a.asked].value);
    }
  }

  lemma SetLevelCore<S, U>(a: Engine<S, U>, b: Engine<S, U>, s: S, value: bool)
    requires SameCore(a, b)
    ensures SameCore(SetLevel(a, s, value), SetLevel(b, s, value))
  {
  }

  /** The dirty list decides when a unit is updated, not what the update does. */
  lemma {:induction false} TraceCore<S, U>(net: Net<U, S>, a: Engine<S, U>, b: Engine<S, U>, moves: seq<Move<S, U>>)
    requires SameCore(a, b)
    ensures SameCore(Trace(net, a, moves), Trace(net, b, moves))
    decreases |moves|
  {
    if moves != [] {
      StepCore(net, a, b, moves[0]);
      TraceCore(net, Step(net, a, moves[0]), Step(net, b, moves[0]), moves[1..]);
    }
  }

  lemma {:induction false} TraceConcat<S, U>(net: Net<U, S>, e: Engine<S, U>, a: seq<Move<S, U>>, b: seq<Move<S, U>>)
    ensures Trace(net, e, a + b) == Trace(net, Trace(net, e, a), b)
    decreases |a|
  {
    if a == [] {
      assert a + b == b;
    } else {
      assert (a + b)[1..] == a[1..] + b;
      TraceConcat(net, Step(net, e, a[0]), a[1..], b);
    }
  }

  lemma {:induction false} UpdateAllIsTrace<S, U>(net: Net<U, S>, e: Engine<S, U>, us: seq<U>)
    ensures UpdateAll(net, e, us) == Trace(net, e, Runs(us))
    decreases |us|
  {
    if us != [] {
      assert Runs<S, U>(us)[1..] == Runs<S, U>(us[1..]);
      UpdateAllIsTrace(net, Update(net, e, us[0]), us[1..]);
    }
  }

  lemma {:induction false} VisitIsTrace<S, U>(net: Net<U, S>, fan: Fan<S, U>, e: Engine<S, U>, batch: seq<S>)
      returns (moves: seq<Move<S, U>>)
    ensures forall m | m in moves :: m.Run?
    ensures Visit(net, fan, e, batch) == Trace(net, e, moves)
    decreases |batch|
  {
    if batch == [] {
      moves := [];
    } else {
      var us := Receivers(fan, batch[0]);
      UpdateAllIsTrace(net, e, us);
      var later := VisitIsTrace(net, fan, UpdateAll(net, e, us), batch[1..]);
      TraceConcat(net, e, Runs(us), later);
      moves := Runs(us) + later;
    }
  }

  lemma {:induction false} RoundsAreTrace<S, U>(net: Net<U, S>, fan: Fan<S, U>, e: Engine<S, U>, batch: seq<S>,
                                                budget: nat)
      returns (moves: seq<Move<S, U>>)
    ensures forall m | m in moves :: m.Run?
    ensures SameCore(Rounds(net, fan, e, batch, budget).engine, Trace(net, e, moves))
    decreases budget
  {
    moves := [];
    if batch != [] && budget != 0 {
      var first := VisitIsTrace(net, fan, e, batch);
      var v := Visit(net, fan, e, batch);
      var later := RoundsAreTrace(net, fan, Fetched(v), v.pending, budget - 1);
      TraceConcat(net, e, first, later);
      TraceCore(net, Fetched(v), v, later);
      moves := first + later;
    }
  }

  /** In particular one run of the evaluation loop can only drop the hold in an update that
      sees the clear input other than low. */
  lemma EvaluationHolds<S, U>(net: Net<U, S>, fan: Fan<S, U>, e: Engine<S, U>, h: U, setter: S, clear: S)
      returns (moves: seq<Move<S, U>>)
    requires SoleDrivers(net) && CacheShown(net, e)
    requires h in net && HoldShape(net[h], setter, clear)
    ensures SameCore(Evaluate(net, fan, e), Trace(net, e, moves))
    ensures forall m | m in moves :: m.Run?
    ensures At(Evaluate(net, fan, e).levels, net[h].out) == 1 <==>
            HeldSince(At(e.levels, net[h].out) == 1, Observed(net, e, moves, h, setter, clear))
  {
    moves := RoundsAreTrace(net, fan, Fetched(e), e.pending, ROUND_LIMIT);
    TraceCore(net, Fetched(e), e, moves);
    HoldRemembers(net, e, moves, h, setter, clear);
  }
}
