/** The input stability filter: a debounce with a re-armed timer. Times are in microseconds. */
module StableFilter {
  import opened Netlist
  import opened Options

  /** The remembered level and the expiry of the re-evaluation timer. */
  datatype Filter = Filter(level: bool, timer: Option<nat>)

  /** Reading the input at `now`, when it has had level `sig` since `since`. */
  function Sample(f: Filter, stable: nat, invert: bool, sig: Level, since: nat, now: nat): Filter {
    if sig < 0 then f.(level := false)
    else if stable == 0 || now - since >= stable then f.(level := (sig == 1) != invert)
    else f.(timer := Some(since + stable))
  }

  // ---------- Runs ----------

  datatype Change = Change(at: nat, value: bool)

  /** `Drive` is a level change of the signal, `Read` any evaluation of the unit, `Fire` the
      filter's own timer. */
  datatype Op = Drive(now: nat, value: bool) | Read(now: nat) | Fire(now: nat)

  datatype State = State(filter: Filter, sig: Level, since: nat, dirty: bool, clock: nat, changes: seq<Change>)

  const UNDRIVEN := State(Filter(false, None), -1, 0, false, 0, [])

  /** Time does not run backwards, and the timer does not fire early. */
  ghost predicate Enabled(s: State, op: Op) {
    op.now >= s.clock && (op.Fire? ==> s.filter.timer.Some? && op.now >= s.filter.timer.value)
  }

  /** At `now` no timer is overdue and no change has been left unevaluated for the whole
      stability time. */
  ghost predicate OnTime(s: State, stable: nat, now: nat) {
    && now >= s.clock
    && (s.filter.timer.Some? ==> now < s.filter.timer.value)
    && (s.dirty ==> now < s.since + stable)
  }

  /** Nothing is late when this happens. */
  ghost predicate Prompt(s: State, stable: nat, op: Op) {
    if op.Fire?
    then s.filter.timer == Some(op.now) && (s.dirty ==> op.now < s.since + stable)
    else OnTime(s, stable, op.now)
  }

  ghost function Step(s: State, stable: nat, invert: bool, op: Op): State {
    match op
    case Drive(now, v) =>
      if s.sig == FromBool(v) then s.(clock := now)
      else s.(sig := FromBool(v), since := now, dirty := true, clock := now, changes := s.changes + [Change(now, v)])
    case Read(now) =>
      s.(filter := Sample(s.filter, stable, invert, s.sig, s.since, now), dirty := false, clock := now)
    case Fire(now) =>
      s.(filter := Sample(s.filter.(timer := None), stable, invert, s.sig, s.since, now), clock := now)
  }

  ghost predicate Possible(s: State, stable: nat, invert: bool, ops: seq<Op>)
    decreases |ops|
  {
    ops == [] || (Enabled(s, ops[0]) && Possible(Step(s, stable, invert, ops[0]), stable, invert, ops[1..]))
  }

  ghost predicate AllPrompt(s: State, stable: nat, invert: bool, ops: seq<Op>)
    decreases |ops|
  {
    ops == [] || (Prompt(s, stable, ops[0]) && AllPrompt(Step(s, stable, invert, ops[0]), stable, invert, ops[1..]))
  }

  ghost function Run(s: State, stable: nat, invert: bool, ops: seq<Op>): State
    decreases |ops|
  {
    if ops == [] then s else Run(Step(s, stable, invert, ops[0]), stable, invert, ops[1..])
  }

  /** The value of the most recent segment, up to `now`, during which the signal kept its level
      for at least `stable`; low before there is one. */
  ghost predicate Held(changes: seq<Change>, stable: nat, invert: bool, now: nat)
    decreases |changes|
  {
    if changes == [] then false
    else
      var c := changes[|changes| - 1];
      if now - c.at >= stable then c.value != invert
      else Held(changes[..|changes| - 1], stable, invert, c.at)
  }

  ghost predicate Live(s: State, invert: bool) {
    Reads(s.sig, invert)
  }

  /** A reading that differs from the live input will be taken again. */
  ghost predicate Armed(s: State, stable: nat, invert: bool) {
    s.filter.level != Live(s, invert) && !s.dirty ==> s.filter.timer == Some(s.since + stable)
  }

  ghost predicate Inv(s: State, stable: nat, invert: bool) {
    && (s.sig < 0 <==> s.changes == [])
    && (s.changes != [] ==> s.changes[|s.changes| - 1] == Change(s.since, s.sig == 1))
    && s.since <= s.clock
    && (s.dirty ==> s.changes != [])
    && s.filter.level == Held(s.changes, stable, invert, s.clock)
    && Armed(s, stable, invert)
  }

  /** Nothing happening, the reference value moves only at an instant the timer is set for. */
  lemma WaitingIsSafe(s: State, stable: nat, invert: bool, now: nat)
    requires stable > 0 && Inv(s, stable, invert) && now >= s.clock
    requires s.filter.level != Live(s, invert) ==> now < s.since + stable
    ensures Held(s.changes, stable, invert, now) == s.filter.level
  {
  }

  lemma {:induction false} StepKeeps(s: State, stable: nat, invert: bool, op: Op)
    requires stable > 0 && Inv(s, stable, invert) && Enabled(s, op) && Prompt(s, stable, op)
    ensures Inv(Step(s, stable, invert, op), stable, invert)
  {
    var n := Step(s, stable, invert, op);
    match op
    case Drive(now, v) =>
      WaitingIsSafe(s, stable, invert, now);
      if n.changes != s.changes {
        assert n.changes[..|n.changes| - 1] == s.changes;
      }
    case Read(now) =>
      WaitingIsSafe(s, stable, invert, now);
    case Fire(now) =>
      if now - s.since < stable {
        WaitingIsSafe(s, stable, invert, now);
      }
  }

  lemma {:induction false} RunKeeps(s: State, stable: nat, invert: bool, ops: seq<Op>)
    requires stable > 0 && Inv(s, stable, invert)
    requires Possible(s, stable, invert, ops) && AllPrompt(s, stable, invert, ops)
    ensures Inv(Run(s, stable, invert, ops), stable, invert)
    decreases |ops|
  {
    if ops != [] {
      StepKeeps(s, stable, invert, ops[0]);
      RunKeeps(Step(s, stable, invert, ops[0]), stable, invert, ops[1..]);
    }
  }

  /** With timers and evaluations on time, at every instant of every run the filter shows the
      value of the last segment that was stable for long enough. */
  lemma FilterIsDebounce(stable: nat, invert: bool, ops: seq<Op>, now: nat)
    requires stable > 0 && Possible(UNDRIVEN, stable, invert, ops) && AllPrompt(UNDRIVEN, stable, invert, ops)
    requires OnTime(Run(UNDRIVEN, stable, invert, ops), stable, now)
    ensures var s := Run(UNDRIVEN, stable, invert, ops);
            s.filter.level == Held(s.changes, stable, invert, now)
  {
    RunKeeps(UNDRIVEN, stable, invert, ops);
    WaitingIsSafe(Run(UNDRIVEN, stable, invert, ops), stable, invert, now);
  }

  lemma {:induction false} RunArmed(s: State, stable: nat, invert: bool, ops: seq<Op>)
    requires stable > 0 && Armed(s, stable, invert) && Possible(s, stable, invert, ops)
    ensures Armed(Run(s, stable, invert, ops), stable, invert)
    decreases |ops|
  {
    if ops != [] {
      RunArmed(Step(s, stable, invert, ops[0]), stable, invert, ops[1..]);
    }
  }

  /** However late timers fire and evaluations run, it never disagrees with the live input for
      good: then the input is still to be evaluated or a timer is set for the end of the
      current segment's stability time. */
  lemma FilterCatchesUp(stable: nat, invert: bool, ops: seq<Op>)
    requires stable > 0 && Possible(UNDRIVEN, stable, invert, ops)
    ensures var s := Run(UNDRIVEN, stable, invert, ops);
            s.filter.level != Live(s, invert) ==> s.dirty || s.filter.timer == Some(s.since + stable)
  {
    RunArmed(UNDRIVEN, stable, invert, ops);
  }

  /** The comments in the configuration say that an unstable or low input gives 0. It does
      not: an input that was high for long enough still reads high right after it dropped,
      and one that has been low and rises for too short a time still reads low. Exactly: while
      the input is unstable the reading is what it was before. */
  lemma UnstableKeepsOldReading(f: Filter, stable: nat, invert: bool, sig: Level, since: nat, now: nat)
    requires stable > 0 && sig >= 0
    ensures Sample(f, stable, invert, sig, since, now).level != f.level ==> now - since >= stable
    ensures var ops := [Drive(0, true), Read(0), Fire(stable), Drive(stable + 1, false), Read(stable + 1)];
            && Possible(UNDRIVEN, stable, false, ops)
            && Run(UNDRIVEN, stable, false, ops).sig == 0
            && Run(UNDRIVEN, stable, false, ops).filter == Filter(true, Some(stable + 1 + stable))
  {
    var s1 := Step(UNDRIVEN, stable, false, Drive(0, true));
    var s2 := Step(s1, stable, false, Read(0));
    var s3 := Step(s2, stable, false, Fire(stable));
    var s4 := Step(s3, stable, false, Drive(stable + 1, false));
    var s5 := Step(s4, stable, false, Read(stable + 1));
    var o5 := [Read(stable + 1)];
    var o4 := [Drive(stable + 1, false)] + o5;
    var o3 := [Fire(stable)] + o4;
    var o2 := [Read(0)] + o3;
    var o1 := [Drive(0, true)] + o2;
    assert o1 == [Drive(0, true), Read(0), Fire(stable), Drive(stable + 1, false), Read(stable + 1)];
    assert o5[1..] == [] && o4[1..] == o5 && o3[1..] == o4 && o2[1..] == o3 && o1[1..] == o2;
    assert Run(s4, stable, false, o5) == Run(Step(s4, stable, false, o5[0]), stable, false, o5[1..]);
    assert Possible(s4, stable, false, o5) && Run(s4, stable, false, o5) == s5;
    assert Possible(s3, stable, false, o4) && Run(s3, stable, false, o4) == s5;
    assert Possible(s2, stable, false, o3) && Run(s2, stable, false, o3) == s5;
    assert Possible(s1, stable, false, o2) && Run(s1, stable, false, o2) == s5;
  }
}
