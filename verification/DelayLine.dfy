/** The output delay of a unit: a bounded queue of level changes drained by one timer. Times
    are in microseconds. */
module DelayLine {
  import opened Options

  datatype Event = Event(level: bool, time: nat)

  /** `last` is the cached result, `deadline` the expiry of the outstanding wait. */
  datatype Line = Line(queue: seq<Event>, last: Option<bool>, deadline: Option<nat>)

  const CAPACITY := 100

  /** Appending to a full circular buffer overwrites its oldest entry. */
  function PushBack(queue: seq<Event>, ev: Event): seq<Event> {
    if |queue| >= CAPACITY then queue[1..] + [ev] else queue + [ev]
  }

  /** A new gate result at `now`. */
  function Offer(line: Line, delay: nat, now: nat, result: bool): Line {
    if line.last == Some(result) then line
    else
      var queue := PushBack(line.queue, Event(result, now + delay));
      Line(queue, Some(result), if |queue| == 1 then Some(queue[0].time) else line.deadline)
  }

  /** The wait is over: the oldest event is taken out and the next one waited for. */
  function Pop(line: Line): Line
    requires line.queue != []
  {
    var queue := line.queue[1..];
    line.(queue := queue, deadline := if queue == [] then None else Some(queue[0].time))
  }

  // ---------- Runs ----------

  datatype Op = Result(now: nat, level: bool) | Fire(now: nat)

  /** A line with its past: every gate result offered, every change of result with the time
      it was entered, every level put on the output with its time, and the overwrites. */
  datatype History = History(line: Line, clock: nat, results: seq<bool>, entered: seq<Event>,
                             shown: seq<Event>, lost: nat)

  const FRESH := History(Line([], None, None), 0, [], [], [], 0)

  /** Time does not run backwards and the timer does not fire early. */
  ghost predicate Enabled(h: History, op: Op) {
    && op.now >= h.clock
    && (op.Fire? ==> h.line.deadline.Some? && op.now >= h.line.deadline.value && h.line.queue != [])
  }

  ghost function Step(h: History, delay: nat, op: Op): History
    requires Enabled(h, op)
  {
    match op
    case Result(now, level) =>
      var line := Offer(h.line, delay, now, level);
      var changed := h.line.last != Some(level);
      History(line, now, h.results + [level],
              if changed then h.entered + [Event(level, now)] else h.entered, h.shown,
              if changed && |h.line.queue| >= CAPACITY then h.lost + 1 else h.lost)
    case Fire(now) =>
      h.(line := Pop(h.line), clock := now, shown := h.shown + [Event(h.line.queue[0].level, now)])
  }

  ghost predicate Possible(h: History, delay: nat, ops: seq<Op>)
    decreases |ops|
  {
    ops == [] || (Enabled(h, ops[0]) && Possible(Step(h, delay, ops[0]), delay, ops[1..]))
  }

  ghost function Run(h: History, delay: nat, ops: seq<Op>): History
    requires Possible(h, delay, ops)
    decreases |ops|
  {
    if ops == [] then h else Run(Step(h, delay, ops[0]), delay, ops[1..])
  }

  /** The results with repetitions left out. */
  ghost function Transitions(results: seq<bool>): seq<bool> {
    if results == [] then []
    else
      var n := |results| - 1;
      Transitions(results[..n]) + (if n > 0 && results[n] == results[n - 1] then [] else [results[n]])
  }

  ghost function Levels(events: seq<Event>): (ls: seq<bool>)
    ensures |ls| == |events| && forall k | 0 <= k < |ls| :: ls[k] == events[k].level
  {
    seq(|events|, k requires 0 <= k < |events| => events[k].level)
  }

  /** Nothing overwritten so far: the entered changes are those shown, then those queued. */
  ghost predicate Intact(h: History, delay: nat) {
    && |h.entered| == |h.shown| + |h.line.queue|
    && (forall k | 0 <= k < |h.shown| ::
          h.shown[k].level == h.entered[k].level && h.shown[k].time >= h.entered[k].time + delay)
    && (forall k | 0 <= k < |h.line.queue| ::
          h.line.queue[k] == Event(h.entered[|h.shown| + k].level, h.entered[|h.shown| + k].time + delay))
    && (h.line.queue != [] ==> h.line.deadline == Some(h.line.queue[0].time))
  }

  ghost predicate Alternates(ls: seq<bool>) {
    forall j, k | 0 <= j < k < |ls| && k == j + 1 :: ls[j] != ls[k]
  }

  /** The entered changes are the transitions of the results, the last of them cached. */
  ghost predicate Logged(h: History) {
    && Levels(h.entered) == Transitions(h.results)
    && Alternates(Levels(h.entered))
    && h.line.last == (if h.results == [] then None else Some(h.results[|h.results| - 1]))
    && (h.results == [] <==> h.entered == [])
    && (h.results != [] ==> Some(h.entered[|h.entered| - 1].level) == h.line.last)
  }

  ghost predicate Sorted(events: seq<Event>) {
    forall j, k | 0 <= j < k < |events| :: events[j].time <= events[k].time
  }

  ghost predicate Counted(h: History) {
    && |h.shown| + |h.line.queue| + h.lost == |h.entered|
    && |h.line.queue| <= CAPACITY
    && (h.line.deadline.Some? <==> h.line.queue != [])
    && Sorted(h.entered)
    && (h.entered != [] ==> h.entered[|h.entered| - 1].time <= h.clock)
  }

  /** Overwrites or not, what is queued are the changes entered last, due after the delay. */
  ghost predicate QueuesLatest(h: History, delay: nat) {
    && |h.line.queue| <= |h.entered|
    && forall k | 0 <= k < |h.line.queue| ::
         var ev := h.entered[|h.entered| - |h.line.queue| + k];
         h.line.queue[k] == Event(ev.level, ev.time + delay)
  }

  ghost predicate Inv(h: History, delay: nat) {
    Logged(h) && Counted(h) && QueuesLatest(h, delay) && (h.lost == 0 ==> Intact(h, delay))
  }

  lemma StepQueuesLatest(h: History, delay: nat, op: Op)
    requires QueuesLatest(h, delay) && Enabled(h, op)
    ensures QueuesLatest(Step(h, delay, op), delay)
  {
  }

  lemma TransitionsOneMore(results: seq<bool>, level: bool)
    ensures Transitions(results + [level]) ==
            Transitions(results) + if results != [] && results[|results| - 1] == level then [] else [level]
  {
    assert (results + [level])[..|results|] == results;
  }

  lemma LevelsOneMore(events: seq<Event>, ev: Event)
    ensures Levels(events + [ev]) == Levels(events) + [ev.level]
  {
  }

  lemma ResultIsLogged(h: History, delay: nat, now: nat, level: bool)
    requires Logged(h) && Enabled(h, Result(now, level))
    ensures Logged(Step(h, delay, Result(now, level)))
  {
    var n := Step(h, delay, Result(now, level));
    TransitionsOneMore(h.results, level);
    if h.line.last == Some(level) {
      assert n.entered == h.entered && Transitions(n.results) == Transitions(h.results);
    } else {
      assert n.entered == h.entered + [Event(level, now)];
      LevelsOneMore(h.entered, Event(level, now));
      if h.entered != [] {
        OneMoreAlternates(Levels(h.entered), level);
      }
    }
  }

  lemma OneMoreAlternates(ls: seq<bool>, level: bool)
    requires ls != [] && Alternates(ls)
    ensures Alternates(ls + [level]) <==> ls[|ls| - 1] != level
  {
    assert ls[|ls| - 1] != level <==> (ls + [level])[|ls| - 1] != (ls + [level])[|ls|];
  }

  lemma ResultIsCounted(h: History, delay: nat, now: nat, level: bool)
    requires Counted(h) && Enabled(h, Result(now, level))
    ensures Counted(Step(h, delay, Result(now, level)))
  {
  }

  lemma ResultStaysIntact(h: History, delay: nat, now: nat, level: bool)
    requires Intact(h, delay) && |h.line.queue| < CAPACITY && Enabled(h, Result(now, level))
    ensures Intact(Step(h, delay, Result(now, level)), delay)
  {
  }

  lemma ResultStaysIntactUnlessLost(h: History, delay: nat, now: nat, level: bool)
    requires (h.lost == 0 ==> Intact(h, delay)) && Enabled(h, Result(now, level))
    ensures var n := Step(h, delay, Result(now, level)); n.lost == 0 ==> Intact(n, delay)
  {
    if Step(h, delay, Result(now, level)).lost == 0 && h.line.last != Some(level) {
      ResultStaysIntact(h, delay, now, level);
    }
  }

  lemma ResultKeeps(h: History, delay: nat, now: nat, level: bool)
    requires Inv(h, delay) && Enabled(h, Result(now, level))
    ensures Inv(Step(h, delay, Result(now, level)), delay)
  {
    ResultIsLogged(h, delay, now, level);
    ResultIsCounted(h, delay, now, level);
    StepQueuesLatest(h, delay, Result(now, level));
    ResultStaysIntactUnlessLost(h, delay, now, level);
  }

  lemma FireStaysIntact(h: History, delay: nat, now: nat)
    requires Intact(h, delay) && Enabled(h, Fire(now))
    ensures Intact(Step(h, delay, Fire(now)), delay)
  {
  }

  lemma FireKeeps(h: History, delay: nat, now: nat)
    requires Inv(h, delay) && Enabled(h, Fire(now))
    ensures Inv(Step(h, delay, Fire(now)), delay)
  {
    var n := Step(h, delay, Fire(now));
    assert n.entered == h.entered && n.results == h.results && n.lost == h.lost;
    StepQueuesLatest(h, delay, Fire(now));
    if h.lost == 0 {
      FireStaysIntact(h, delay, now);
    }
  }

  lemma {:induction false} RunKeeps(h: History, delay: nat, ops: seq<Op>)
    requires Inv(h, delay) && Possible(h, delay, ops)
    ensures Inv(Run(h, delay, ops), delay)
    decreases |ops|
  {
    if ops != [] {
      match ops[0] {
        case Result(now, level) => ResultKeeps(h, delay, now, level);
        case Fire(now) => FireKeeps(h, delay, now);
      }
      RunKeeps(Step(h, delay, ops[0]), delay, ops[1..]);
    }
  }

  /** What a delayed unit puts on its output and still has queued is exactly the sequence of
      its result transitions if and only if no change was ever offered to a full queue. */
  lemma DeliversTransitions(delay: nat, ops: seq<Op>)
    requires Possible(FRESH, delay, ops)
    ensures var h := Run(FRESH, delay, ops);
            Levels(h.shown) + Levels(h.line.queue) == Transitions(h.results) <==> h.lost == 0
  {
    RunKeeps(FRESH, delay, ops);
    IntactDelivers(Run(FRESH, delay, ops), delay);
  }

  lemma LevelsOfParts(a: seq<Event>, b: seq<Event>, whole: seq<Event>)
    requires |whole| == |a| + |b|
    requires forall k | 0 <= k < |a| :: a[k].level == whole[k].level
    requires forall k | 0 <= k < |b| :: b[k].level == whole[|a| + k].level
    ensures Levels(a) + Levels(b) == Levels(whole)
  {
  }

  lemma IntactDelivers(h: History, delay: nat)
    requires Inv(h, delay)
    ensures Levels(h.shown) + Levels(h.line.queue) == Transitions(h.results) <==> h.lost == 0
  {
    if h.lost == 0 {
      LevelsOfParts(h.shown, h.line.queue, h.entered);
    } else {
      assert |Levels(h.shown) + Levels(h.line.queue)| < |Levels(h.entered)|;
    }
  }

  /** Until then every change is shown in its turn and no earlier than `delay` after it was
      entered, and the wait is for the oldest queued one. */
  lemma ShownInOrderAndNotEarly(delay: nat, ops: seq<Op>)
    requires Possible(FRESH, delay, ops)
    requires Run(FRESH, delay, ops).lost == 0
    ensures var h := Run(FRESH, delay, ops);
            && |h.shown| <= |h.entered| == |Transitions(h.results)|
            && (forall k | 0 <= k < |h.shown| ::
                  && h.shown[k].level == Transitions(h.results)[k]
                  && h.shown[k].time >= h.entered[k].time + delay)
            && h.line.deadline == (if h.line.queue == [] then None else Some(h.line.queue[0].time))
  {
    RunKeeps(FRESH, delay, ops);
  }

  // ---------- No overwrite below the capacity ----------

  /** At every change of result fewer than a hundred earlier ones are entered and not yet shown. */
  ghost predicate Roomy(h: History, delay: nat, ops: seq<Op>)
    requires Possible(h, delay, ops)
    decreases |ops|
  {
    ops != [] ==>
      && (ops[0].Result? && (h.results == [] || h.results[|h.results| - 1] != ops[0].level) ==>
            |h.entered| <= |h.shown| + 99)
      && Roomy(Step(h, delay, ops[0]), delay, ops[1..])
  }

  lemma {:induction false} RoomyLosesNothing(h: History, delay: nat, ops: seq<Op>)
    requires Inv(h, delay) && h.lost == 0 && Possible(h, delay, ops) && Roomy(h, delay, ops)
    ensures Run(h, delay, ops).lost == 0 && Inv(Run(h, delay, ops), delay)
    decreases |ops|
  {
    if ops != [] {
      match ops[0] {
        case Result(now, level) => ResultKeeps(h, delay, now, level);
        case Fire(now) => FireKeeps(h, delay, now);
      }
      RoomyLosesNothing(Step(h, delay, ops[0]), delay, ops[1..]);
    }
  }

  lemma RoomyStaysIntact(delay: nat, ops: seq<Op>)
    requires Possible(FRESH, delay, ops) && Roomy(FRESH, delay, ops)
    ensures var h := Run(FRESH, delay, ops); h.lost == 0 && Intact(h, delay) && Counted(h)
  {
    FreshIsInv(delay);
    RoomyLosesNothing(FRESH, delay, ops);
  }

  /** With room for every change the delay line is a pure delay. What is shown and what is
      queued are the transitions of the results, in order. */
  lemma RoomyDelivers(delay: nat, ops: seq<Op>)
    requires Possible(FRESH, delay, ops) && Roomy(FRESH, delay, ops)
    ensures var h := Run(FRESH, delay, ops);
            Levels(h.shown) + Levels(h.line.queue) == Transitions(h.results)
  {
    RoomyStaysIntact(delay, ops);
    DeliversTransitions(delay, ops);
  }

  /** None is shown before its delay is over, and the timer runs out exactly when the delay of
      the oldest one not shown does. */
  lemma RoomyIsOnTime(delay: nat, ops: seq<Op>)
    requires Possible(FRESH, delay, ops) && Roomy(FRESH, delay, ops)
    ensures var h := Run(FRESH, delay, ops);
            && |h.shown| <= |h.entered|
            && (forall k | 0 <= k < |h.shown| :: h.shown[k].time >= h.entered[k].time + delay)
            && h.line.deadline == (if |h.shown| == |h.entered| then None
                                   else Some(h.entered[|h.shown|].time + delay))
  {
    RoomyStaysIntact(delay, ops);
    IntactTimes(Run(FRESH, delay, ops), delay);
  }

  lemma IntactTimes(h: History, delay: nat)
    requires Intact(h, delay) && Counted(h)
    ensures |h.shown| <= |h.entered|
    ensures forall k | 0 <= k < |h.shown| :: h.shown[k].time >= h.entered[k].time + delay
    ensures h.line.deadline == if |h.shown| == |h.entered| then None else Some(h.entered[|h.shown|].time + delay)
  {
  }

  /** What is entered are the transitions, whatever the queue does. */
  lemma EntersTransitions(delay: nat, ops: seq<Op>)
    requires Possible(FRESH, delay, ops)
    ensures var h := Run(FRESH, delay, ops); Levels(h.entered) == Transitions(h.results)
  {
    FreshIsInv(delay);
    RunKeeps(FRESH, delay, ops);
  }

  lemma FreshIsInv(delay: nat)
    ensures Inv(FRESH, delay)
  {
  }

  /** Changes overwritten or not, the queue holds the latest transitions: it is sorted by time,
      alternates and ends in the cached result. */
  lemma QueueIsOrdered(delay: nat, ops: seq<Op>)
    requires Possible(FRESH, delay, ops)
    ensures var h := Run(FRESH, delay, ops);
            && IsEnd(Levels(h.line.queue), Transitions(h.results))
            && Sorted(h.line.queue) && Alternates(Levels(h.line.queue))
            && (h.line.queue != [] ==> Some(h.line.queue[|h.line.queue| - 1].level) == h.line.last)
  {
    FreshIsInv(delay);
    RunKeeps(FRESH, delay, ops);
    LatestIsEnd(Run(FRESH, delay, ops), delay);
    LatestIsSorted(Run(FRESH, delay, ops), delay);
  }

  ghost predicate IsEnd(part: seq<bool>, all: seq<bool>) {
    |part| <= |all| && part == all[|all| - |part|..]
  }

  lemma EndOfLevels(part: seq<Event>, all: seq<Event>)
    requires |part| <= |all| && forall k | 0 <= k < |part| :: part[k].level == all[|all| - |part| + k].level
    ensures IsEnd(Levels(part), Levels(all))
  {
  }

  lemma EndAlternates(part: seq<bool>, all: seq<bool>)
    requires IsEnd(part, all) && Alternates(all)
    ensures Alternates(part)
  {
    forall j, k | 0 <= j < k < |part| && k == j + 1
      ensures part[j] != part[k]
    {
      assert all[|all| - |part| + j] != all[|all| - |part| + k];
    }
  }

  lemma LatestIsEnd(h: History, delay: nat)
    requires Logged(h) && QueuesLatest(h, delay)
    ensures IsEnd(Levels(h.line.queue), Transitions(h.results)) && Alternates(Levels(h.line.queue))
    ensures h.line.queue != [] ==> Some(h.line.queue[|h.line.queue| - 1].level) == h.line.last
  {
    EndOfLevels(h.line.queue, h.entered);
    EndAlternates(Levels(h.line.queue), Levels(h.entered));
  }

  lemma LatestIsSorted(h: History, delay: nat)
    requires Counted(h) && QueuesLatest(h, delay)
    ensures Sorted(h.line.queue)
  {
    var n := |h.entered| - |h.line.queue|;
    forall j, k | 0 <= j < k < |h.line.queue|
      ensures h.line.queue[j].time <= h.line.queue[k].time
    {
      assert h.entered[n + j].time <= h.entered[n + k].time;
    }
  }

  // ---------- A full queue ----------

  /** `n` results in a row at time 0, each different from the one before. */
  ghost function Burst(first: bool, n: nat): seq<Op>
    decreases n
  {
    if n == 0 then [] else [Result(0, first)] + Burst(!first, n - 1)
  }

  lemma ChangeFills(h: History, delay: nat, level: bool)
    requires h.clock == 0 && h.line.last != Some(level)
    requires |h.line.queue| == if |h.entered| <= CAPACITY then |h.entered| else CAPACITY
    ensures var op := Result(0, level);
            && Enabled(h, op)
            && var n := Step(h, delay, op);
               && n.clock == 0 && n.line.last == Some(level) && n.shown == h.shown && |n.entered| == |h.entered| + 1
               && |n.line.queue| == if |n.entered| <= CAPACITY then |n.entered| else CAPACITY
  {
  }

  /** On a line with another result cached. */
  lemma {:induction false} BurstFills(h: History, delay: nat, n: nat, first: bool)
    requires h.clock == 0 && h.line.last != Some(first)
    requires |h.line.queue| == if |h.entered| <= CAPACITY then |h.entered| else CAPACITY
    ensures var ops := Burst(first, n);
            && Possible(h, delay, ops)
            && var r := Run(h, delay, ops);
               && r.shown == h.shown && |r.entered| == |h.entered| + n
               && |r.line.queue| == if |r.entered| <= CAPACITY then |r.entered| else CAPACITY
    decreases n
  {
    if n > 0 {
      ChangeFills(h, delay, first);
      assert Burst(first, n)[1..] == Burst(!first, n - 1);
      BurstFills(Step(h, delay, Result(0, first)), delay, n - 1, !first);
    }
  }

  /** Overflow does happen, and then a transition is never shown: of 101 changes within the
      delay the first one. */
  lemma OverflowLosesTransition(delay: nat, n: nat)
    requires n == 101
    ensures var ops := Burst(true, n);
            && Possible(FRESH, delay, ops)
            && var h := Run(FRESH, delay, ops);
               && h.lost > 0 && h.shown == [] && |Transitions(h.results)| == 101
               && |h.line.queue| == 100 && Levels(h.line.queue) == Transitions(h.results)[1..]
  {
    var ops := Burst(true, n);
    BurstFills(FRESH, delay, n, true);
    EntersTransitions(delay, ops);
    QueueIsOrdered(delay, ops);
    DeliversTransitions(delay, ops);
  }

  /** A wait is outstanding exactly when something is queued, overwrites or not. */
  lemma WaitsWhileQueued(delay: nat, ops: seq<Op>)
    requires Possible(FRESH, delay, ops)
    ensures var h := Run(FRESH, delay, ops);
            h.line.deadline.Some? <==> h.line.queue != []
  {
    RunKeeps(FRESH, delay, ops);
  }
}
