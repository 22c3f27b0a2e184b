/** What a stretch of the evaluation loop does when foreign receivers do exactly what was
    recorded, and how stretches are put together. */
module Replay {
  import opened Netlist
  import opened Propagation

  /** The engine with these acts recorded, `asked` of them done. */
  ghost function Play<S, U>(e: Engine<S, U>, script: seq<Act>, asked: nat): Engine<S, U> {
    e.(script := script, asked := asked)
  }

  /** As far as all its acts have been used. */
  ghost function Played<S, U>(e: Engine<S, U>, script: seq<Act>): Engine<S, U> {
    Play(e, script, |script|)
  }

  lemma {:induction false} UpdateAllSnoc<S, U>(net: Net<U, S>, e: Engine<S, U>, us: seq<U>, u: U)
    ensures UpdateAll(net, e, us + [u]) == Update(net, UpdateAll(net, e, us), u)
    decreases |us|
  {
    if us == [] {
      assert [u][1..] == [] && us + [u] == [u];
      assert UpdateAll(net, e, [u]) == UpdateAll(net, Update(net, e, u), [u][1..]);
    } else {
      assert (us + [u])[1..] == us[1..] + [u];
      UpdateAllSnoc(net, Update(net, e, us[0]), us[1..], u);
    }
  }

  lemma {:induction false} VisitSnoc<S, U>(net: Net<U, S>, fan: Fan<S, U>, e: Engine<S, U>, batch: seq<S>, s: S)
    ensures Visit(net, fan, e, batch + [s]) == UpdateAll(net, Visit(net, fan, e, batch), Receivers(fan, s))
    decreases |batch|
  {
    if batch == [] {
      assert [s][1..] == [] && batch + [s] == [s];
      assert Visit(net, fan, e, [s]) == Visit(net, fan, UpdateAll(net, e, Receivers(fan, s)), [s][1..]);
    } else {
      assert (batch + [s])[1..] == batch[1..] + [s];
      VisitSnoc(net, fan, UpdateAll(net, e, Receivers(fan, batch[0])), batch[1..], s);
    }
  }

  lemma {:induction false} RoundsSnoc<S, U>(net: Net<U, S>, fan: Fan<S, U>, e: Engine<S, U>, batch: seq<S>, k: nat)
    requires Rounds(net, fan, e, batch, k).budget == 0
    ensures var o := Rounds(net, fan, e, batch, k);
            Rounds(net, fan, e, batch, k + 1) ==
            if o.batch == [] then Outcome(o.engine, o.batch, 1)
            else
              var v := Visit(net, fan, o.engine, o.batch);
              Outcome(Fetched(v), v.pending, 0)
    decreases k
  {
    if batch != [] && k > 0 {
      var v := Visit(net, fan, e, batch);
      RoundsSnoc(net, fan, Fetched(v), v.pending, k - 1);
    }
  }

  /** Budget that is not needed is left over. */
  lemma {:induction false} RoundsSpare<S, U>(net: Net<U, S>, fan: Fan<S, U>, e: Engine<S, U>, batch: seq<S>, k: nat,
                                             spare: nat)
    requires Rounds(net, fan, e, batch, k).budget == 0 && (Rounds(net, fan, e, batch, k).batch == [] || spare == 0)
    ensures var o := Rounds(net, fan, e, batch, k);
            Rounds(net, fan, e, batch, k + spare) == Outcome(o.engine, o.batch, spare)
    decreases k
  {
    if batch != [] && k > 0 {
      var v := Visit(net, fan, e, batch);
      RoundsSpare(net, fan, Fetched(v), v.pending, k - 1, spare);
    }
  }

  // ---------- A longer record ----------

  lemma SetLevelPlays<S, U>(e: Engine<S, U>, s: S, value: bool, script: seq<Act>, asked: nat)
    ensures SetLevel(Play(e, script, asked), s, value) == Play(SetLevel(e, s, value), script, asked)
  {
  }

  lemma UpdateLonger<S, U>(net: Net<U, S>, e: Engine<S, U>, u: U, script: seq<Act>)
    requires e.script <= script && Update(net, e, u).asked <= |e.script|
    ensures Update(net, e.(script := script), u) == Update(net, e, u).(script := script)
  {
    if u in net {
      SetLevelPlays(e, net[u].out, Gate(net[u], e.levels), script, e.asked);
    } else {
      ForeignLonger(e, u, script);
    }
  }

  lemma ForeignLonger<S, U>(e: Engine<S, U>, u: U, script: seq<Act>)
    requires e.script <= script && e.asked < |e.script|
    ensures Foreign(e.(script := script), u) == Foreign(e, u).(script := script)
  {
    assert script[e.asked] == e.script[e.asked];
    if u in e.foreign && e.script[e.asked].Sets? {
      SetLevelPlays(e, e.foreign[u], e.script[e.asked].value, script, e.asked + 1);
      SetLevelPlays(e, e.foreign[u], e.script[e.asked].value, e.script, e.asked + 1);
    }
  }

  lemma {:induction false} UpdateAllLonger<S, U>(net: Net<U, S>, e: Engine<S, U>, us: seq<U>, script: seq<Act>)
    requires e.script <= script && UpdateAll(net, e, us).asked <= |e.script|
    ensures UpdateAll(net, e.(script := script), us) == UpdateAll(net, e, us).(script := script)
    decreases |us|
  {
    if us != [] {
      var n := Update(net, e, us[0]);
      UpdateAllLater(net, n, us[1..]);
      UpdateLater(net, e, us[0]);
      UpdateLonger(net, e, us[0], script);
      UpdateAllLonger(net, n, us[1..], script);
    }
  }

  lemma {:induction false} VisitLonger<S, U>(net: Net<U, S>, fan: Fan<S, U>, e: Engine<S, U>, batch: seq<S>,
                                             script: seq<Act>)
    requires e.script <= script && Visit(net, fan, e, batch).asked <= |e.script|
    ensures Visit(net, fan, e.(script := script), batch) == Visit(net, fan, e, batch).(script := script)
    decreases |batch|
  {
    if batch != [] {
      var us := Receivers(fan, batch[0]);
      var n := UpdateAll(net, e, us);
      VisitLater(net, fan, n, batch[1..]);
      UpdateAllLater(net, e, us);
      UpdateAllLonger(net, e, us, script);
      VisitLonger(net, fan, n, batch[1..], script);
    }
  }

  lemma {:induction false} RoundsLonger<S, U>(net: Net<U, S>, fan: Fan<S, U>, e: Engine<S, U>, batch: seq<S>, k: nat,
                                              script: seq<Act>)
    requires e.script <= script && Rounds(net, fan, e, batch, k).engine.asked <= |e.script|
    ensures var o := Rounds(net, fan, e, batch, k);
            Rounds(net, fan, e.(script := script), batch, k) == Outcome(o.engine.(script := script), o.batch, o.budget)
    decreases k
  {
    if batch != [] && k > 0 {
      var v := Visit(net, fan, e, batch);
      RoundsLater(net, fan, Fetched(v), v.pending, k - 1);
      VisitLater(net, fan, e, batch);
      VisitLonger(net, fan, e, batch, script);
      RoundsLonger(net, fan, Fetched(v), v.pending, k - 1, script);
    }
  }

  // ---------- One step more ----------

  /** A unit of the netlist adds nothing to the record, a foreign receiver one act. */
  lemma OneUpdate<S, U>(net: Net<U, S>, e: Engine<S, U>, u: U, before: seq<Act>, act: Act)
    ensures u in net ==> Update(net, Played(e, before), u) == Played(Update(net, e, u), before)
    ensures u !in net && (act.Sets? ==> u in e.foreign) ==>
              Update(net, Play(e, before + [act], |before|), u) ==
              Played(if act.Sets? then SetLevel(e, e.foreign[u], act.value) else e, before + [act])
  {
  }

  lemma ThenUpdate<S, U>(net: Net<U, S>, e: Engine<S, U>, asked: nat, us: seq<U>, did: seq<Act>, m: Engine<S, U>,
                         u: U, more: seq<Act>, n: Engine<S, U>)
    requires did <= more && UpdateAll(net, Play(e, did, asked), us) == Played(m, did)
    requires Update(net, Play(m, more, |did|), u) == Played(n, more)
    ensures UpdateAll(net, Play(e, more, asked), us + [u]) == Played(n, more)
  {
    UpdateAllLonger(net, Play(e, did, asked), us, more);
    UpdateAllSnoc(net, Play(e, more, asked), us, u);
  }

  lemma ThenVisit<S, U>(net: Net<U, S>, fan: Fan<S, U>, e: Engine<S, U>, asked: nat, batch: seq<S>, did: seq<Act>,
                        m: Engine<S, U>, s: S, more: seq<Act>, n: Engine<S, U>)
    requires did <= more && Visit(net, fan, Play(e, did, asked), batch) == Played(m, did)
    requires UpdateAll(net, Play(m, more, |did|), Receivers(fan, s)) == Played(n, more)
    ensures Visit(net, fan, Play(e, more, asked), batch + [s]) == Played(n, more)
  {
    VisitLonger(net, fan, Play(e, did, asked), batch, more);
    VisitSnoc(net, fan, Play(e, more, asked), batch, s);
  }

  lemma ThenRound<S, U>(net: Net<U, S>, fan: Fan<S, U>, e: Engine<S, U>, batch: seq<S>, k: nat, did: seq<Act>,
                        m: Engine<S, U>, left: seq<S>, more: seq<Act>, v: Engine<S, U>)
    requires did <= more && left != [] &&
             Rounds(net, fan, Play(e, did, 0), batch, k) == Outcome(Played(m, did), left, 0)
    requires Visit(net, fan, Play(m, more, |did|), left) == Played(v, more)
    ensures Rounds(net, fan, Play(e, more, 0), batch, k + 1) == Outcome(Played(Fetched(v), more), v.pending, 0)
  {
    RoundsLonger(net, fan, Play(e, did, 0), batch, k, more);
    RoundsSnoc(net, fan, Play(e, more, 0), batch, k);
  }

  // ---------- The same under a name ----------

  /** `course` is the loop from `e` and `batch`, by record and number of rounds. */
  ghost predicate ChartsRounds<S, U>(net: Net<U, S>, fan: Fan<S, U>, e: Engine<S, U>, batch: seq<S>,
                                     course: (seq<Act>, nat) -> Outcome<S, U>)
  {
    forall did: seq<Act>, k: nat {:trigger Rounds(net, fan, Play(e, did, 0), batch, k)} ::
      course(did, k) == Rounds(net, fan, Play(e, did, 0), batch, k)
  }

  /** `course` is the visit from `e`, by record and number of signals visited. */
  ghost predicate ChartsVisit<S, U>(net: Net<U, S>, fan: Fan<S, U>, e: Engine<S, U>, asked: nat, batch: seq<S>,
                                    course: (seq<Act>, nat) -> Engine<S, U>)
  {
    forall did: seq<Act>, k: nat {:trigger Visit(net, fan, Play(e, did, asked), batch[..k])} | k <= |batch| ::
      course(did, k) == Visit(net, fan, Play(e, did, asked), batch[..k])
  }

  ghost function RoundsCourse<S, U>(net: Net<U, S>, fan: Fan<S, U>, e: Engine<S, U>, batch: seq<S>):
      (course: (seq<Act>, nat) -> Outcome<S, U>)
    ensures ChartsRounds(net, fan, e, batch, course)
    ensures course([], 0) == Outcome(Played(e, []), batch, 0)
  {
    var course := (did: seq<Act>, k: nat) => Rounds(net, fan, Play(e, did, 0), batch, k);
    assert course([], 0) == Rounds(net, fan, Play(e, [], 0), batch, 0);
    course
  }

  ghost function VisitCourse<S, U>(net: Net<U, S>, fan: Fan<S, U>, e: Engine<S, U>, before: seq<Act>, batch: seq<S>):
      (course: (seq<Act>, nat) -> Engine<S, U>)
    ensures ChartsVisit(net, fan, e, |before|, batch, course)
    ensures course(before, 0) == Played(e, before)
    ensures forall did :: course(did, |batch|) == Visit(net, fan, Play(e, did, |before|), batch)
  {
    assert batch[..|batch|] == batch;
    var course := (did: seq<Act>, k: nat) =>
      if k <= |batch| then Visit(net, fan, Play(e, did, |before|), batch[..k]) else e;
    assert course(before, 0) == Visit(net, fan, Play(e, before, |before|), batch[..0]);
    course
  }

  lemma VisitCharted<S, U>(net: Net<U, S>, fan: Fan<S, U>, e: Engine<S, U>, asked: nat, batch: seq<S>,
                           course: (seq<Act>, nat) -> Engine<S, U>, k: nat, did: seq<Act>, m: Engine<S, U>,
                           more: seq<Act>, n: Engine<S, U>)
    requires ChartsVisit(net, fan, e, asked, batch, course) && k < |batch|
    requires did <= more && course(did, k) == Played(m, did)
    requires UpdateAll(net, Play(m, more, |did|), Receivers(fan, batch[k])) == Played(n, more)
    ensures course(more, k + 1) == Played(n, more)
  {
    assert Visit(net, fan, Play(e, did, asked), batch[..k]) == Played(m, did);
    ThenVisit(net, fan, e, asked, batch[..k], did, m, batch[k], more, n);
    assert batch[..k + 1] == batch[..k] + [batch[k]];
    assert Visit(net, fan, Play(e, more, asked), batch[..k + 1]) == Played(n, more);
  }

  lemma RoundCharted<S, U>(net: Net<U, S>, fan: Fan<S, U>, e: Engine<S, U>, batch: seq<S>,
                           course: (seq<Act>, nat) -> Outcome<S, U>, k: nat, did: seq<Act>, m: Engine<S, U>,
                           left: seq<S>, more: seq<Act>, v: Engine<S, U>)
    requires ChartsRounds(net, fan, e, batch, course)
    requires did <= more && left != [] && course(did, k) == Outcome(Played(m, did), left, 0)
    requires Visit(net, fan, Play(m, more, |did|), left) == Played(v, more)
    ensures course(more, k + 1) == Outcome(Played(Fetched(v), more), v.pending, 0)
  {
    assert Rounds(net, fan, Play(e, did, 0), batch, k) == Outcome(Played(m, did), left, 0);
    ThenRound(net, fan, e, batch, k, did, m, left, more, v);
  }

  /** The loop that has come to its end this way is the engine's. */
  lemma Finished<S, U>(net: Net<U, S>, fan: Fan<S, U>, e: Engine<S, U>, course: (seq<Act>, nat) -> Outcome<S, U>,
                       did: seq<Act>, k: nat, n: Engine<S, U>, left: seq<S>)
    requires ChartsRounds(net, fan, Fetched(e), e.pending, course)
    requires course(did, k) == Outcome(Played(n, did), left, 0)
    requires k <= ROUND_LIMIT && (left == [] || k == ROUND_LIMIT)
    ensures Evaluate(net, fan, Play(e, did, 0)) ==
            Played(if k == ROUND_LIMIT then n.(notices := n.notices + 1) else n, did)
  {
    assert Fetched(Play(e, did, 0)) == Play(Fetched(e), did, 0);
    assert Rounds(net, fan, Play(Fetched(e), did, 0), e.pending, k) == Outcome(Played(n, did), left, 0);
    RoundsSpare(net, fan, Play(Fetched(e), did, 0), e.pending, k, ROUND_LIMIT - k);
  }
}
