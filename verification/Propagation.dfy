/** Round-based signal propagation: the dirty list, the cached result of every unit and the
    evaluation loop, as functions on values. The netlist holds the units without delay and
    filters; whatever else is registered with a signal may do anything but drive their outputs. */
module Propagation {
  import opened Netlist

  /** Units by name of type U, each driving one signal. */
  type Net<U, S> = map<U, Unit<S>>

  /** The receivers notified by a signal, in registration order; a unit reading it twice is
      listed twice. Receivers that are not in the netlist are foreign. */
  type Fan<S, U> = map<S, seq<U>>

  /** What a foreign receiver does to its output when it is updated. */
  datatype Act = Still | Sets(value: bool)

  /** `pending` is the active dirty list, `last` the valid cached results, `notices` the
      number of times the dirty listener has been called. `foreign` gives the outputs of
      foreign receivers and `script` says what they do, one entry for each of their updates, of
      which there have been `asked`; past its end they do nothing. A statement about every
      engine is one about every such behaviour. */
  datatype Engine<S, U> = Engine(levels: map<S, Level>, pending: seq<S>, last: map<U, bool>, notices: nat,
                                 foreign: map<U, S>, script: seq<Act>, asked: nat)

  /** State, unvisited batch and remaining budget at the end of the evaluation loop. */
  datatype Outcome<S, U> = Outcome(engine: Engine<S, U>, batch: seq<S>, budget: nat)

  const ROUND_LIMIT := 10000

  ghost predicate Distinct<S>(ss: seq<S>) {
    forall j, k | 0 <= j < k < |ss| :: ss[j] != ss[k]
  }

  ghost function Receivers<S, U>(fan: Fan<S, U>, s: S): seq<U> {
    if s in fan then fan[s] else []
  }

  ghost function SetLevel<S, U>(e: Engine<S, U>, s: S, value: bool): Engine<S, U> {
    if At(e.levels, s) == FromBool(value) then e
    else if s in e.pending then e.(levels := e.levels[s := FromBool(value)])
    else e.(levels := e.levels[s := FromBool(value)], pending := e.pending + [s], notices := e.notices + 1)
  }

  ghost function Foreign<S, U>(e: Engine<S, U>, u: U): Engine<S, U> {
    var act := if e.asked < |e.script| then e.script[e.asked] else Still;
    var next := e.(asked := e.asked + 1);
    if act.Sets? && u in e.foreign then SetLevel(next, e.foreign[u], act.value) else next
  }

  ghost function Update<S, U>(net: Net<U, S>, e: Engine<S, U>, u: U): Engine<S, U> {
    if u !in net then Foreign(e, u)
    else
      var result := Gate(net[u], e.levels);
      if u in e.last && e.last[u] == result then e
      else SetLevel(e, net[u].out, result).(last := e.last[u := result])
  }

  ghost function UpdateAll<S, U>(net: Net<U, S>, e: Engine<S, U>, us: seq<U>): Engine<S, U>
    decreases |us|
  {
    if us == [] then e else UpdateAll(net, Update(net, e, us[0]), us[1..])
  }

  ghost function Visit<S, U>(net: Net<U, S>, fan: Fan<S, U>, e: Engine<S, U>, batch: seq<S>): Engine<S, U>
    decreases |batch|
  {
    if batch == [] then e
    else Visit(net, fan, UpdateAll(net, e, Receivers(fan, batch[0])), batch[1..])
  }

  /** Hands out the dirty list and starts an empty one. */
  ghost function Fetched<S, U>(e: Engine<S, U>): Engine<S, U> {
    e.(pending := [])
  }

  ghost function Rounds<S, U>(net: Net<U, S>, fan: Fan<S, U>, e: Engine<S, U>, batch: seq<S>,
                              budget: nat): Outcome<S, U>
    decreases budget
  {
    if batch == [] || budget == 0 then Outcome(e, batch, budget)
    else
      var v := Visit(net, fan, e, batch);
      Rounds(net, fan, Fetched(v), v.pending, budget - 1)
  }

  /** One run of the evaluation handler. When the budget is used up the listener is called
      once more and the last fetched batch is not visited. */
  ghost function Loop<S, U>(net: Net<U, S>, fan: Fan<S, U>, e: Engine<S, U>): Outcome<S, U> {
    Rounds(net, fan, Fetched(e), e.pending, ROUND_LIMIT)
  }

  ghost function Evaluate<S, U>(net: Net<U, S>, fan: Fan<S, U>, e: Engine<S, U>): Engine<S, U> {
    var o := Loop(net, fan, e);
    if o.budget == 0 then o.engine.(notices := o.engine.notices + 1) else o.engine
  }

  // ---------- What the netlist must look like ----------

  /** No signal has two driving units. */
  ghost predicate SoleDrivers<S, U>(net: Net<U, S>) {
    forall u, v | u in net && v in net && u != v :: net[u].out != net[v].out
  }

  /** Every unit is registered with exactly the signals it reads; nothing is said of foreign
      receivers. */
  ghost predicate Wired<S, U>(net: Net<U, S>, fan: Fan<S, U>) {
    && (forall u, s | u in net && s in Inputs(net[u]) :: u in Receivers(fan, s))
    && (forall s | s in fan :: forall u | u in fan[s] && u in net :: s in Inputs(net[u]))
  }

  ghost predicate IsOutput<S, U>(net: Net<U, S>, s: S) {
    exists u | u in net :: net[u].out == s
  }

  /** Foreign receivers leave the outputs of the netlist's units alone. */
  ghost predicate Benign<S, U>(net: Net<U, S>, foreign: map<U, S>) {
    forall u | u in foreign :: !IsOutput(net, foreign[u])
  }

  /** The signal is the output of no unit and of no foreign receiver that may still act. */
  ghost predicate Untouched<S, U>(net: Net<U, S>, e: Engine<S, U>, s: S) {
    !IsOutput(net, s) && (s in e.foreign.Values ==> e.script == [])
  }

  ghost function RankOf<S>(rank: map<S, nat>, s: S): nat {
    if s in rank then rank[s] else 0
  }

  /** Acyclic up to plain hold loops: every input that can make a unit stale ranks below its
      output. */
  ghost predicate Ranked<S, U>(net: Net<U, S>, rank: map<S, nat>) {
    forall u | u in net ::
      && RankOf(rank, net[u].out) >= 1
      && forall s | s in Wakers(net[u]) :: RankOf(rank, s) < RankOf(rank, net[u].out)
  }

  /** Foreign receivers belong to the same order: each drives above what it is notified by. */
  ghost predicate ForeignRanked<S, U>(net: Net<U, S>, fan: Fan<S, U>, foreign: map<U, S>, rank: map<S, nat>) {
    forall s | s in fan :: forall u | u in fan[s] && u !in net && u in foreign ::
      RankOf(rank, s) < RankOf(rank, foreign[u])
  }

  /** They follow the ranks, or do nothing at all. */
  ghost predicate Orderly<S, U>(net: Net<U, S>, fan: Fan<S, U>, e: Engine<S, U>, rank: map<S, nat>) {
    e.script == [] || ForeignRanked(net, fan, e.foreign, rank)
  }

  ghost predicate DepthAtMost<S>(rank: map<S, nat>, depth: nat) {
    forall s | s in rank :: rank[s] <= depth
  }

  /** No unit reads its own output, not even as a hold. */
  ghost predicate LoopFree<S, U>(net: Net<U, S>) {
    forall u | u in net :: net[u].out !in Inputs(net[u])
  }

  // ---------- No lost update ----------

  /** The unit's cached result and its output both equal its gate on the present levels. */
  ghost predicate Settled<S, U>(net: Net<U, S>, e: Engine<S, U>, u: U)
    requires u in net
  {
    && u in e.last && e.last[u] == Gate(net[u], e.levels)
    && At(e.levels, net[u].out) == FromBool(Gate(net[u], e.levels))
  }

  ghost predicate Fixpoint<S, U>(net: Net<U, S>, e: Engine<S, U>) {
    forall u | u in net :: Settled(net, e, u)
  }

  /** The work still scheduled at a point of the loop: signals of the batch not yet visited,
      the signal being visited with its remaining receivers, and units whose first update
      is queued outside the loop. */
  datatype Front<S, U> = Front(rest: seq<S>, current: seq<S>, todo: seq<U>, boot: set<U>)

  ghost predicate Wakes<S, U>(net: Net<U, S>, e: Engine<S, U>, f: Front<S, U>, u: U, s: S)
    requires u in net
  {
    s in Wakers(net[u]) && (s in e.pending || s in f.rest || (s in f.current && u in f.todo))
  }

  ghost predicate Awaits<S, U>(net: Net<U, S>, e: Engine<S, U>, f: Front<S, U>, u: U)
    requires u in net
  {
    (u in f.boot && u !in e.last) || exists s | s in Wakers(net[u]) :: Wakes(net, e, f, u, s)
  }

  /** A valid cached result is on the output: nobody else drives it. */
  ghost predicate CacheShown<S, U>(net: Net<U, S>, e: Engine<S, U>) {
    && Benign(net, e.foreign)
    && forall u | u in net && u in e.last :: At(e.levels, net[u].out) == FromBool(e.last[u])
  }

  ghost predicate NothingLost<S, U>(net: Net<U, S>, e: Engine<S, U>, f: Front<S, U>) {
    && CacheShown(net, e)
    && forall u | u in net :: Settled(net, e, u) || Awaits(net, e, f, u)
  }

  /** A unit's update moves no signal but its output. */
  lemma UpdateMovesOutput<S, U>(net: Net<U, S>, e: Engine<S, U>, u: U, s: S)
    requires u in net && net[u].out != s
    ensures At(Update(net, e, u).levels, s) == At(e.levels, s)
  {
  }

  /** After its own update a unit is settled, or reads its changed output through an inverter. */
  lemma UpdateSettles<S, U>(net: Net<U, S>, e: Engine<S, U>, u: U)
    requires CacheShown(net, e) && u in net
    ensures var n := Update(net, e, u);
            u in n.last && (Settled(net, n, u) || (net[u].out in Wakers(net[u]) && net[u].out in n.pending))
  {
    var n := Update(net, e, u);
    if n.levels != e.levels {
      if PlainHold(net[u]) {
        HoldIsStable(net[u], e.levels);
      } else if net[u].out !in Inputs(net[u]) {
        GateFrame(net[u], e.levels, n.levels);
      }
    }
  }

  /** A settled unit is disturbed only by a signal that is now on the dirty list. */
  lemma UpdateSpares<S, U>(net: Net<U, S>, e: Engine<S, U>, u: U, v: U)
    requires SoleDrivers(net) && u in net && v in net && u != v && Settled(net, e, v)
    ensures var n := Update(net, e, u);
            Settled(net, n, v) || (net[u].out in Wakers(net[v]) && net[u].out in n.pending)
  {
  }

  lemma UpdateCaches<S, U>(net: Net<U, S>, e: Engine<S, U>, u: U)
    requires SoleDrivers(net) && CacheShown(net, e) && u in net
    ensures var n := Update(net, e, u);
            CacheShown(net, n) && u in n.last && forall s | s in e.pending :: s in n.pending
  {
  }

  lemma UpdateDisturbs<S, U>(net: Net<U, S>, e: Engine<S, U>, u: U)
    requires SoleDrivers(net) && CacheShown(net, e) && u in net
    ensures var n := Update(net, e, u);
            && CacheShown(net, n)
            && u in n.last
            && (forall s | s in e.pending :: s in n.pending)
            && (forall v | v in net && (v == u || Settled(net, e, v)) ::
                  Settled(net, n, v) || exists s | s in Wakers(net[v]) :: s in n.pending)
  {
    UpdateCaches(net, e, u);
    UpdateSettles(net, e, u);
    forall v | v in net && v != u && Settled(net, e, v)
      ensures var n := Update(net, e, u);
              Settled(net, n, v) || (net[u].out in Wakers(net[v]) && net[u].out in n.pending)
    {
      UpdateSpares(net, e, u, v);
    }
  }

  lemma UnitUpdateKeeps<S, U>(net: Net<U, S>, e: Engine<S, U>, f: Front<S, U>, u: U)
    requires SoleDrivers(net) && NothingLost(net, e, f) && u in net
    requires f.todo != [] && f.todo[0] == u
    ensures NothingLost(net, Update(net, e, u), f.(todo := f.todo[1..]))
  {
    var n, g := Update(net, e, u), f.(todo := f.todo[1..]);
    UpdateDisturbs(net, e, u);
    forall v | v in net
      ensures Settled(net, n, v) || Awaits(net, n, g, v)
    {
      if v == u || Settled(net, e, v) {
        if !Settled(net, n, v) {
          var s :| s in Wakers(net[v]) && s in n.pending;
          assert Wakes(net, n, g, v, s);
        }
      } else if exists s :: s in Wakers(net[v]) && Wakes(net, e, f, v, s) {
        var s :| s in Wakers(net[v]) && Wakes(net, e, f, v, s);
        assert v in f.todo ==> v in f.todo[1..];
        assert Wakes(net, n, g, v, s);
      }
    }
  }

  lemma UnitBootKeeps<S, U>(net: Net<U, S>, e: Engine<S, U>, f: Front<S, U>, u: U)
    requires SoleDrivers(net) && NothingLost(net, e, f) && u in net
    ensures NothingLost(net, Update(net, e, u), f.(boot := f.boot - {u}))
  {
    var n, g := Update(net, e, u), f.(boot := f.boot - {u});
    UpdateDisturbs(net, e, u);
    forall v | v in net
      ensures Settled(net, n, v) || Awaits(net, n, g, v)
    {
      if v == u || Settled(net, e, v) {
        if !Settled(net, n, v) {
          var s :| s in Wakers(net[v]) && s in n.pending;
          assert Wakes(net, n, g, v, s);
        }
      } else if exists s :: s in Wakers(net[v]) && Wakes(net, e, f, v, s) {
        var s :| s in Wakers(net[v]) && Wakes(net, e, f, v, s);
        assert Wakes(net, n, g, v, s);
      }
    }
  }

  /** A source changing puts itself on the dirty list, within the loop or outside. */
  lemma SourceKeeps<S, U>(net: Net<U, S>, e: Engine<S, U>, f: Front<S, U>, s: S, value: bool)
    requires NothingLost(net, e, f) && !IsOutput(net, s)
    ensures NothingLost(net, SetLevel(e, s, value), f)
  {
    var n := SetLevel(e, s, value);
    forall v | v in net
      ensures Settled(net, n, v) || Awaits(net, n, f, v)
    {
      if Settled(net, e, v) {
        if s in Inputs(net[v]) && n.levels != e.levels {
          assert Wakes(net, n, f, v, s);
        } else {
          GateFrame(net[v], e.levels, n.levels);
        }
      } else if exists t :: t in Wakers(net[v]) && Wakes(net, e, f, v, t) {
        var t :| t in Wakers(net[v]) && Wakes(net, e, f, v, t);
        assert Wakes(net, n, f, v, t);
      }
    }
  }

  lemma ForeignKeeps<S, U>(net: Net<U, S>, e: Engine<S, U>, f: Front<S, U>, u: U)
    requires NothingLost(net, e, f)
    ensures NothingLost(net, Foreign(e, u), f)
  {
    var next := e.(asked := e.asked + 1);
    SameCoreKeeps(net, e, next, f);
    if e.asked < |e.script| && e.script[e.asked].Sets? && u in e.foreign {
      SourceKeeps(net, next, f, e.foreign[u], e.script[e.asked].value);
      assert Foreign(e, u) == SetLevel(next, e.foreign[u], e.script[e.asked].value);
    } else {
      assert Foreign(e, u) == next;
    }
  }

  /** How much foreign receivers have done does not matter. */
  lemma SameCoreKeeps<S, U>(net: Net<U, S>, e: Engine<S, U>, n: Engine<S, U>, f: Front<S, U>)
    requires NothingLost(net, e, f) && n.foreign == e.foreign
    requires n.levels == e.levels && n.last == e.last && n.pending == e.pending
    ensures NothingLost(net, n, f)
  {
    forall v | v in net && !Settled(net, n, v)
      ensures Awaits(net, n, f, v)
    {
      assert !Settled(net, e, v);
      if exists s :: s in Wakers(net[v]) && Wakes(net, e, f, v, s) {
        var s :| s in Wakers(net[v]) && Wakes(net, e, f, v, s);
        assert Wakes(net, n, f, v, s);
      }
    }
  }

  /** One receiver of the signal being visited, unit or foreign, is done. */
  lemma UpdateKeeps<S, U>(net: Net<U, S>, e: Engine<S, U>, f: Front<S, U>, u: U)
    requires SoleDrivers(net) && NothingLost(net, e, f) && f.todo != [] && f.todo[0] == u
    ensures NothingLost(net, Update(net, e, u), f.(todo := f.todo[1..]))
  {
    if u in net {
      UnitUpdateKeeps(net, e, f, u);
    } else {
      var n, g := Update(net, e, u), f.(todo := f.todo[1..]);
      ForeignKeeps(net, e, f, u);
      forall v | v in net && !Settled(net, n, v)
        ensures Awaits(net, n, g, v)
      {
        if exists s :: s in Wakers(net[v]) && Wakes(net, n, f, v, s) {
          var s :| s in Wakers(net[v]) && Wakes(net, n, f, v, s);
          assert v in f.todo ==> v in f.todo[1..];
          assert Wakes(net, n, g, v, s);
        }
      }
    }
  }

  /** A queued first update runs outside the loop; the unit stops being a boot exception. */
  lemma BootKeeps<S, U>(net: Net<U, S>, e: Engine<S, U>, f: Front<S, U>, u: U)
    requires SoleDrivers(net) && NothingLost(net, e, f)
    ensures NothingLost(net, Update(net, e, u), f.(boot := f.boot - {u}))
  {
    if u in net {
      UnitBootKeeps(net, e, f, u);
    } else {
      var n, g := Update(net, e, u), f.(boot := f.boot - {u});
      ForeignKeeps(net, e, f, u);
      forall v | v in net && !Settled(net, n, v)
        ensures Awaits(net, n, g, v)
      {
        if exists s :: s in Wakers(net[v]) && Wakes(net, n, f, v, s) {
          var s :| s in Wakers(net[v]) && Wakes(net, n, f, v, s);
          assert Wakes(net, n, g, v, s);
        }
      }
    }
  }

  lemma {:induction false} UpdateAllKeeps<S, U>(net: Net<U, S>, e: Engine<S, U>, f: Front<S, U>)
    requires SoleDrivers(net) && NothingLost(net, e, f)
    ensures NothingLost(net, UpdateAll(net, e, f.todo), f.(todo := []))
    decreases |f.todo|
  {
    if f.todo != [] {
      UpdateKeeps(net, e, f, f.todo[0]);
      UpdateAllKeeps(net, Update(net, e, f.todo[0]), f.(todo := f.todo[1..]));
    }
  }

  /** Taking the next signal of the batch moves its readers to the receivers still to do. */
  lemma NextKeeps<S, U>(net: Net<U, S>, fan: Fan<S, U>, e: Engine<S, U>, f: Front<S, U>)
    requires Wired(net, fan) && NothingLost(net, e, f) && f.rest != [] && f.todo == []
    ensures NothingLost(net, e, Front(f.rest[1..], [f.rest[0]], Receivers(fan, f.rest[0]), f.boot))
  {
  }

  lemma {:induction false} VisitKeeps<S, U>(net: Net<U, S>, fan: Fan<S, U>, e: Engine<S, U>, f: Front<S, U>)
    requires SoleDrivers(net) && Wired(net, fan) && NothingLost(net, e, f) && f.todo == []
    ensures NothingLost(net, Visit(net, fan, e, f.rest), Front([], [], [], f.boot))
    decreases |f.rest|
  {
    if f.rest == [] {
      Regroup(net, e, e, f, Front([], [], [], f.boot));
    } else {
      NextKeeps(net, fan, e, f);
      var g := Front(f.rest[1..], [f.rest[0]], Receivers(fan, f.rest[0]), f.boot);
      UpdateAllKeeps(net, e, g);
      VisitKeeps(net, fan, UpdateAll(net, e, g.todo), g.(todo := []));
    }
  }

  /** Only where the scheduled work is kept matters not: any front scheduling at least as
      much will do. */
  lemma Regroup<S, U>(net: Net<U, S>, e: Engine<S, U>, n: Engine<S, U>, f: Front<S, U>, g: Front<S, U>)
    requires NothingLost(net, e, f)
    requires n.levels == e.levels && n.last == e.last && n.foreign == e.foreign && f.boot <= g.boot && f.todo == []
    requires forall s | s in e.pending || s in f.rest :: s in n.pending || s in g.rest
    ensures NothingLost(net, n, g)
  {
  }

  /** Cycles or not, whatever the order of signals and receivers and whatever foreign receivers
      do: between rounds every unit is settled or a signal that can wake it is still to be
      visited. */
  lemma {:induction false} RoundsKeep<S, U>(net: Net<U, S>, fan: Fan<S, U>, e: Engine<S, U>, batch: seq<S>,
                                            boot: set<U>, budget: nat)
    requires SoleDrivers(net) && Wired(net, fan)
    requires NothingLost(net, e, Front(batch, [], [], boot))
    ensures var o := Rounds(net, fan, e, batch, budget);
            NothingLost(net, o.engine, Front(o.batch, [], [], boot))
    decreases budget
  {
    if batch != [] && budget != 0 {
      VisitKeeps(net, fan, e, Front(batch, [], [], boot));
      var v := Visit(net, fan, e, batch);
      Regroup(net, v, Fetched(v), Front([], [], [], boot), Front(v.pending, [], [], boot));
      RoundsKeep(net, fan, Fetched(v), v.pending, boot, budget - 1);
    }
  }

  /** Leaving the loop because the list came back empty always means a fixpoint. */
  lemma EmptyExitIsFixpoint<S, U>(net: Net<U, S>, fan: Fan<S, U>, e: Engine<S, U>)
    requires SoleDrivers(net) && Wired(net, fan)
    requires NothingLost(net, e, Front([], [], [], {}))
    requires Loop(net, fan, e).batch == []
    ensures Fixpoint(net, Evaluate(net, fan, e))
    ensures NothingLost(net, Evaluate(net, fan, e), Front([], [], [], {}))
  {
    LoopKeeps(net, fan, e, {});
    var n := Evaluate(net, fan, e);
    assert forall u | u in net :: !Awaits(net, n, Front([], [], [], {}), u);
  }

  lemma LoopKeeps<S, U>(net: Net<U, S>, fan: Fan<S, U>, e: Engine<S, U>, boot: set<U>)
    requires SoleDrivers(net) && Wired(net, fan)
    requires NothingLost(net, e, Front([], [], [], boot))
    ensures Evaluate(net, fan, e).pending == []
    ensures Loop(net, fan, e).batch == [] ==> NothingLost(net, Evaluate(net, fan, e), Front([], [], [], boot))
  {
    var f := Front(e.pending, [], [], boot);
    Regroup(net, e, Fetched(e), Front([], [], [], boot), f);
    RoundsKeep(net, fan, Fetched(e), e.pending, boot, ROUND_LIMIT);
    RoundsFetch(net, fan, Fetched(e), e.pending, ROUND_LIMIT);
    var o := Loop(net, fan, e);
    if o.batch == [] {
      Regroup(net, o.engine, Evaluate(net, fan, e), Front([], [], [], boot), Front([], [], [], boot));
    }
  }

  /** The loop always ends right after a fetch, with an empty active list. */
  lemma {:induction false} RoundsFetch<S, U>(net: Net<U, S>, fan: Fan<S, U>, e: Engine<S, U>, batch: seq<S>,
                                             budget: nat)
    requires e.pending == []
    ensures Rounds(net, fan, e, batch, budget).engine.pending == []
    decreases budget
  {
    if batch != [] && budget != 0 {
      var v := Visit(net, fan, e, batch);
      RoundsFetch(net, fan, Fetched(v), v.pending, budget - 1);
    }
  }

  // ---------- What an evaluation never takes back ----------

  /** Calls of the listener and updates of foreign receivers are only added. */
  ghost predicate Later<S, U>(e: Engine<S, U>, n: Engine<S, U>) {
    n.notices >= e.notices && n.asked >= e.asked && n.foreign == e.foreign && n.script == e.script
  }

  lemma UpdateLater<S, U>(net: Net<U, S>, e: Engine<S, U>, u: U)
    ensures Later(e, Update(net, e, u))
  {
  }

  lemma {:induction false} UpdateAllLater<S, U>(net: Net<U, S>, e: Engine<S, U>, us: seq<U>)
    ensures Later(e, UpdateAll(net, e, us))
    decreases |us|
  {
    if us != [] {
      UpdateLater(net, e, us[0]);
      UpdateAllLater(net, Update(net, e, us[0]), us[1..]);
    }
  }

  lemma {:induction false} VisitLater<S, U>(net: Net<U, S>, fan: Fan<S, U>, e: Engine<S, U>, batch: seq<S>)
    ensures Later(e, Visit(net, fan, e, batch))
    decreases |batch|
  {
    if batch != [] {
      UpdateAllLater(net, e, Receivers(fan, batch[0]));
      VisitLater(net, fan, UpdateAll(net, e, Receivers(fan, batch[0])), batch[1..]);
    }
  }

  lemma {:induction false} RoundsLater<S, U>(net: Net<U, S>, fan: Fan<S, U>, e: Engine<S, U>, batch: seq<S>,
                                             budget: nat)
    ensures Later(e, Rounds(net, fan, e, batch, budget).engine)
    decreases budget
  {
    if batch != [] && budget != 0 {
      VisitLater(net, fan, e, batch);
      var v := Visit(net, fan, e, batch);
      RoundsLater(net, fan, Fetched(v), v.pending, budget - 1);
    }
  }

  lemma EvaluateLater<S, U>(net: Net<U, S>, fan: Fan<S, U>, e: Engine<S, U>)
    ensures Later(e, Evaluate(net, fan, e))
  {
    RoundsLater(net, fan, Fetched(e), e.pending, ROUND_LIMIT);
  }
}
