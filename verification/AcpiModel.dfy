/** The ACPI request sequencer: what the host and chassis requests do at once, what they post
    to the io queue in two hops, and the timers of power cycle and idle host. The levels that
    the evaluation gives the four state signals are the environment's. */
module AcpiModel {
  import opened Netlist

  /** State names of sections 2.2 and 2.4 of the ACPI Specification 6.5. */
  datatype ACPILevel = ACPI_INVALID | ACPI_G3 | ACPI_S5 | ACPI_S3 | ACPI_S0

  const HOST_OFF := "xyz.openbmc_project.State.Host.Transition.Off"
  const HOST_ON := "xyz.openbmc_project.State.Host.Transition.On"
  const CHASSIS_OFF := "xyz.openbmc_project.State.Chassis.Transition.Off"
  const CHASSIS_ON := "xyz.openbmc_project.State.Chassis.Transition.On"
  const POWER_CYCLE := "xyz.openbmc_project.State.Chassis.Transition.PowerCycle"

  /** Callbacks on the io queue: the deferred halves of requests, a callback that posts
      another, and the expired or cancelled timers. */
  datatype Handler = HostOn | ChassisOff | Hop(next: Handler) | CycleDone | IdleDone

  /** `cycle` and `idle` say whether that timer is waiting; `seen` lists every pair of host
      and chassis request levels that has been driven, those within a handler included. */
  datatype Acpi = Acpi(host: Level, chassis: Level, outputs: map<ACPILevel, Level>, last: ACPILevel,
                       cycle: bool, idle: bool, offWhenIdle: bool, queue: seq<Handler>, seen: seq<Requested>)

  datatype Requested = Requested(host: Level, chassis: Level)

  ghost function Highs(outputs: map<ACPILevel, Level>): set<ACPILevel> {
    set l | l in outputs && outputs[l] == 1
  }

  /** Any unknown signal means G3; otherwise the one state whose signal is high. */
  ghost function Current(outputs: map<ACPILevel, Level>): ACPILevel {
    if exists l :: l in outputs && outputs[l] < 0 then ACPI_G3
    else if |Highs(outputs)| == 1 then var l :| l in Highs(outputs); l
    else ACPI_INVALID
  }

  /** Which state a table of signals stands for: G3 if any of them was never driven, otherwise
      the one that is high, and none if several are or no one is. */
  lemma CurrentIs(outputs: map<ACPILevel, Level>)
    ensures (exists l | l in outputs :: outputs[l] < 0) ==> Current(outputs) == ACPI_G3
    ensures forall l | l in outputs && outputs[l] == 1 && (forall m | m in outputs && m != l :: outputs[m] == 0) ::
              Current(outputs) == l
    ensures (forall l | l in outputs :: outputs[l] == 0) ==> Current(outputs) == ACPI_INVALID
    ensures forall l, m | l in outputs && m in outputs && l != m && outputs[l] == 1 && outputs[m] == 1
              && (forall k | k in outputs :: outputs[k] >= 0) :: Current(outputs) == ACPI_INVALID
  {
    forall l | l in outputs && outputs[l] == 1 && (forall m | m in outputs && m != l :: outputs[m] == 0)
      ensures Current(outputs) == l
    {
      OneHigh(outputs, l);
    }
    forall l, m | l in outputs && m in outputs && l != m && outputs[l] == 1 && outputs[m] == 1
        && (forall k | k in outputs :: outputs[k] >= 0)
      ensures Current(outputs) == ACPI_INVALID
    {
      TwoHigh(outputs, l, m);
    }
    if forall l | l in outputs :: outputs[l] == 0 {
      assert Highs(outputs) == {};
    }
  }

  lemma OneHigh(outputs: map<ACPILevel, Level>, l: ACPILevel)
    requires l in outputs && outputs[l] == 1 && forall m | m in outputs && m != l :: outputs[m] == 0
    ensures Current(outputs) == l
  {
    assert Highs(outputs) == {l};
  }

  lemma TwoHigh(outputs: map<ACPILevel, Level>, l: ACPILevel, m: ACPILevel)
    requires l in outputs && m in outputs && l != m && outputs[l] == 1 && outputs[m] == 1
    requires forall k | k in outputs :: outputs[k] >= 0
    ensures Current(outputs) == ACPI_INVALID
  {
    assert l in Highs(outputs) && m in Highs(outputs) - {l};
    assert |Highs(outputs)| == |Highs(outputs) - {l}| + 1;
  }

  ghost function Observe(a: Acpi): Acpi {
    var now := Current(a.outputs);
    var b := match now
      case ACPI_S5 => if a.offWhenIdle && a.last != ACPI_G3 && a.last != ACPI_S5 then a.(idle := true) else a
      case ACPI_G3 => a.(idle := false, cycle := false, queue := if a.cycle then a.queue + [CycleDone] else a.queue)
      case ACPI_INVALID => a
      case _ => a.(idle := false);
    b.(last := now)
  }

  ghost function RequestHost(a: Acpi, on: bool): Acpi {
    Observe(a.(host := FromBool(on), seen := a.seen + [Requested(FromBool(on), a.chassis)]))
  }

  ghost function RequestChassis(a: Acpi, on: bool): Acpi {
    Observe(a.(chassis := FromBool(on), seen := a.seen + [Requested(a.host, FromBool(on))]))
  }

  ghost function Posted(a: Acpi, h: Handler): Acpi {
    a.(queue := a.queue + [h])
  }

  ghost function HostTransition(a: Acpi, requested: string): Acpi {
    if requested == HOST_OFF then RequestHost(a, false)
    else if requested == HOST_ON then Posted(RequestChassis(a, true), Hop(HostOn))
    else a
  }

  ghost function PowerOff(a: Acpi): Acpi {
    Posted(RequestHost(a, false), Hop(ChassisOff))
  }

  /** Arming a waiting timer cancels its handler, which then runs as well. */
  ghost function ArmCycle(a: Acpi): Acpi {
    a.(queue := if a.cycle then a.queue + [CycleDone] else a.queue, cycle := true)
  }

  ghost function PowerTransition(a: Acpi, requested: string): Acpi {
    if requested == CHASSIS_OFF then PowerOff(a)
    else if requested == CHASSIS_ON then RequestChassis(a, true)
    else if requested == POWER_CYCLE then
      (if Current(a.outputs) == ACPI_G3 then RequestChassis(a, true) else ArmCycle(PowerOff(a)))
    else a
  }

  ghost function RunHandler(a: Acpi, h: Handler): Acpi {
    match h
    case HostOn => RequestHost(a, true)
    case ChassisOff => RequestChassis(a, false)
    case Hop(next) => Posted(a, next)
    case CycleDone => if Current(a.outputs) == ACPI_G3 then RequestHost(RequestChassis(a, true), true) else a
    case IdleDone => if Current(a.outputs) == ACPI_S5 then PowerOff(a) else a
  }

  // ---------- Runs ----------

  datatype Op =
    | Host(request: string)
    | Chassis(request: string)
    | Evaluated(outputs: map<ACPILevel, Level>)
    | CycleExpires
    | IdleExpires
    | RunNext

  ghost function Step(a: Acpi, op: Op): Acpi {
    match op
    case Host(requested) => HostTransition(a, requested)
    case Chassis(requested) => PowerTransition(a, requested)
    case Evaluated(outputs) => Observe(a.(outputs := outputs))
    case CycleExpires => if a.cycle then Posted(a.(cycle := false), CycleDone) else a
    case IdleExpires => if a.idle then Posted(a.(idle := false), IdleDone) else a
    case RunNext => if a.queue == [] then a else RunHandler(a.(queue := a.queue[1..]), a.queue[0])
  }

  ghost function Run(a: Acpi, ops: seq<Op>): Acpi
    decreases |ops|
  {
    if ops == [] then a else Run(Step(a, ops[0]), ops[1..])
  }

  // ---------- Interlock ----------

  ghost predicate Interlocked(r: Requested) {
    r.host == 1 ==> r.chassis == 1
  }

  /** What a callback will do in the end. */
  ghost function Final(h: Handler): Handler {
    if h.Hop? then Final(h.next) else h
  }

  ghost predicate InFlight(queue: seq<Handler>, act: Handler) {
    exists h | h in queue :: Final(h) == act
  }

  ghost predicate TurnsOff(a: Acpi, requested: string) {
    requested == CHASSIS_OFF || (requested == POWER_CYCLE && Current(a.outputs) != ACPI_G3)
  }

  /** No step starts to turn on what an earlier request is still about to turn off, nor the
      reverse. For the power-cycle timer that is: when its handler finds G3, no chassis-off is
      in flight, of the cycle itself or of a later request. */
  ghost predicate Safe(a: Acpi, op: Op) {
    match op
    case Host(requested) => requested == HOST_ON ==> !InFlight(a.queue, ChassisOff)
    case Chassis(requested) => TurnsOff(a, requested) ==> !InFlight(a.queue, HostOn)
    case RunNext =>
      a.queue != [] ==>
        && (a.queue[0] == CycleDone && Current(a.outputs) == ACPI_G3 ==> !InFlight(a.queue, ChassisOff))
        && (a.queue[0] == IdleDone && Current(a.outputs) == ACPI_S5 ==> !InFlight(a.queue, HostOn))
    case _ => true
  }

  ghost predicate AllSafe(a: Acpi, ops: seq<Op>)
    decreases |ops|
  {
    ops == [] || (Safe(a, ops[0]) && AllSafe(Step(a, ops[0]), ops[1..]))
  }

  ghost predicate Inv(a: Acpi) {
    && Interlocked(Requested(a.host, a.chassis))
    && (InFlight(a.queue, HostOn) ==> a.chassis == 1)
    && (InFlight(a.queue, ChassisOff) ==> a.host != 1 && !InFlight(a.queue, HostOn))
    && forall r | r in a.seen :: Interlocked(r)
  }

  lemma FlightOfPop(queue: seq<Handler>, act: Handler)
    requires queue != []
    ensures InFlight(queue, act) <==> InFlight(queue[1..], act) || Final(queue[0]) == act
  {
  }

  /** Observing changes neither requests nor deferred ones. */
  lemma ObserveSpares(a: Acpi)
    ensures var n := Observe(a);
            && n.host == a.host && n.chassis == a.chassis && n.seen == a.seen && n.outputs == a.outputs
            && InFlight(n.queue, HostOn) == InFlight(a.queue, HostOn)
            && InFlight(n.queue, ChassisOff) == InFlight(a.queue, ChassisOff)
  {
  }

  lemma HostKeeps(a: Acpi, on: bool)
    requires Inv(a) && (on ==> a.chassis == 1 && !InFlight(a.queue, ChassisOff))
    ensures var n := RequestHost(a, on);
            && Inv(n) && n.host == FromBool(on) && n.chassis == a.chassis
            && InFlight(n.queue, HostOn) == InFlight(a.queue, HostOn)
            && InFlight(n.queue, ChassisOff) == InFlight(a.queue, ChassisOff)
  {
  }

  lemma ChassisKeeps(a: Acpi, on: bool)
    requires Inv(a) && (!on ==> a.host != 1 && !InFlight(a.queue, HostOn))
    ensures var n := RequestChassis(a, on);
            && Inv(n) && n.host == a.host && n.chassis == FromBool(on)
            && InFlight(n.queue, HostOn) == InFlight(a.queue, HostOn)
            && InFlight(n.queue, ChassisOff) == InFlight(a.queue, ChassisOff)
  {
  }

  lemma PostKeeps(a: Acpi, h: Handler)
    requires Inv(a)
    requires Final(h) == HostOn ==> a.chassis == 1 && !InFlight(a.queue, ChassisOff)
    requires Final(h) == ChassisOff ==> a.host != 1 && !InFlight(a.queue, HostOn)
    ensures Inv(Posted(a, h))
  {
  }

  lemma PowerOffKeeps(a: Acpi)
    requires Inv(a) && !InFlight(a.queue, HostOn)
    ensures Inv(PowerOff(a))
  {
  }

  lemma RunNextKeeps(a: Acpi)
    requires Inv(a) && a.queue != [] && Safe(a, RunNext)
    ensures Inv(Step(a, RunNext))
  {
    var h, p := a.queue[0], a.(queue := a.queue[1..]);
    FlightOfPop(a.queue, HostOn);
    FlightOfPop(a.queue, ChassisOff);
    assert Inv(p);
    match h
    case HostOn => HostKeeps(p, true);
    case ChassisOff => ChassisKeeps(p, false);
    case Hop(next) => PostKeeps(p, next);
    case CycleDone =>
      if Current(a.outputs) == ACPI_G3 {
        ChassisKeeps(p, true);
        HostKeeps(RequestChassis(p, true), true);
      }
    case IdleDone =>
      if Current(a.outputs) == ACPI_S5 {
        PowerOffKeeps(p);
      }
  }

  lemma StepKeeps(a: Acpi, op: Op)
    requires Inv(a) && Safe(a, op)
    ensures Inv(Step(a, op))
  {
    match op
    case Host(requested) =>
      if requested == HOST_OFF {
        HostKeeps(a, false);
      } else if requested == HOST_ON {
        ChassisKeeps(a, true);
        PostKeeps(RequestChassis(a, true), Hop(HostOn));
      }
    case Chassis(requested) =>
      if TurnsOff(a, requested) {
        PowerOffKeeps(a);
        PostKeeps(PowerOff(a), CycleDone);
      } else if requested == CHASSIS_ON || requested == POWER_CYCLE {
        ChassisKeeps(a, true);
      }
    case Evaluated(outputs) =>
      ObserveSpares(a.(outputs := outputs));
    case CycleExpires =>
      PostKeeps(a.(cycle := false), CycleDone);
    case IdleExpires =>
      PostKeeps(a.(idle := false), IdleDone);
    case RunNext =>
      if a.queue != [] {
        RunNextKeeps(a);
      }
  }

  /** Host requested on implies chassis requested on in every state, those within handlers
      included, over every run in which no step is unsafe: any number of requests, timer
      expiries and evaluations in any order. */
  lemma {:induction false} InterlockHolds(a: Acpi, ops: seq<Op>)
    requires Inv(a) && AllSafe(a, ops)
    ensures Inv(Run(a, ops))
    ensures forall r | r in Run(a, ops).seen :: Interlocked(r)
    decreases |ops|
  {
    if ops != [] {
      StepKeeps(a, ops[0]);
      InterlockHolds(Step(a, ops[0]), ops[1..]);
    }
  }

  // ---------- The condition is exact ----------

  ghost function Drain(a: Acpi, n: nat): Acpi
    decreases n
  {
    if n == 0 then a else Drain(Step(a, RunNext), n - 1)
  }

  /** However far the queue drains after this, nothing else happening, the interlock holds. */
  ghost predicate DrainKeeps(a: Acpi) {
    forall n: nat :: forall r | r in Drain(a, n).seen :: Interlocked(r)
  }

  /** Requests leave a callback or a hop to it. */
  ghost predicate Deferred(h: Handler) {
    h in {HostOn, ChassisOff, Hop(HostOn), Hop(ChassisOff)}
  }

  ghost predicate InG3(a: Acpi) {
    Current(a.outputs) == ACPI_G3
  }

  /** In G3 no power cycle is waiting: reporting G3 has cancelled it. */
  ghost predicate NoAbort(a: Acpi) {
    a.cycle ==> Current(a.outputs) != ACPI_G3
  }

  lemma ObserveCancels(a: Acpi)
    ensures NoAbort(Observe(a))
  {
  }

  lemma RequestCancels(a: Acpi, on: bool)
    ensures NoAbort(RequestHost(a, on)) && NoAbort(RequestChassis(a, on))
  {
    ObserveCancels(a.(host := FromBool(on), seen := a.seen + [Requested(FromBool(on), a.chassis)]));
    ObserveCancels(a.(chassis := FromBool(on), seen := a.seen + [Requested(a.host, FromBool(on))]));
  }

  lemma HandlerCancels(a: Acpi, h: Handler)
    requires NoAbort(a)
    ensures NoAbort(RunHandler(a, h))
  {
    match h
    case HostOn => RequestCancels(a, true);
    case ChassisOff => RequestCancels(a, false);
    case Hop(_) =>
    case CycleDone => RequestCancels(RequestChassis(a, true), true);
    case IdleDone => RequestCancels(a, false);
  }

  /** Every step keeps it so. */
  lemma NoAbortHolds(a: Acpi, op: Op)
    requires NoAbort(a)
    ensures NoAbort(Step(a, op))
  {
    RequestCancels(a, true);
    RequestCancels(a, false);
    match op
    case Chassis(requested) => HostSpares(a, false);
    case Evaluated(outputs) => ObserveCancels(a.(outputs := outputs));
    case RunNext =>
      if a.queue != [] {
        HandlerCancels(a.(queue := a.queue[1..]), a.queue[0]);
      }
    case _ =>
  }

  /** The handler of a timer that finds a state in which it does nothing. */
  ghost predicate Inert(now: ACPILevel, h: Handler) {
    (h == CycleDone && now != ACPI_G3) || (h == IdleDone && now != ACPI_S5)
  }

  /** What the queue may hold: deferred halves and timer handlers, none of them of the idle
      timer and about to act. */
  ghost predicate Workable(a: Acpi) {
    && NoAbort(a)
    && forall h | h in a.queue :: Deferred(h) || h == CycleDone || Inert(Current(a.outputs), h)
  }

  /** As the program runs, without power-off of an idle host. */
  ghost predicate Tidy(a: Acpi) {
    && NoAbort(a) && !a.idle && !a.offWhenIdle
    && forall h | h in a.queue :: Deferred(h) || h == CycleDone
  }

  /** The power cycle's handler is queued in G3, so it is going to raise chassis and host. */
  ghost predicate Restarting(a: Acpi) {
    InG3(a) && CycleDone in a.queue
  }

  lemma HostSpares(a: Acpi, on: bool)
    requires NoAbort(a)
    ensures var n := RequestHost(a, on); n.queue == a.queue && n.cycle == a.cycle && n.outputs == a.outputs
  {
  }

  lemma ChassisSpares(a: Acpi, on: bool)
    requires NoAbort(a)
    ensures var n := RequestChassis(a, on); n.queue == a.queue && n.cycle == a.cycle && n.outputs == a.outputs
  {
  }

  lemma TidyPop(a: Acpi)
    requires Tidy(a)
    ensures Tidy(Step(a, RunNext))
  {
    if a.queue != [] {
      assert a.queue[0] in a.queue && forall x | x in a.queue[1..] :: x in a.queue;
      var p := a.(queue := a.queue[1..]);
      Requests(p, true);
      Requests(p, false);
      Requests(RequestChassis(p, true), true);
    }
  }

  /** Every step keeps it so: in this configuration all reachable states are tidy. */
  lemma TidyHolds(a: Acpi, op: Op)
    requires Tidy(a)
    ensures Tidy(Step(a, op))
  {
    NoAbortHolds(a, op);
    Requests(a, true);
    Requests(a, false);
    if op.RunNext? {
      TidyPop(a);
    }
  }

  ghost function Second(h: Handler): seq<Handler> {
    if h.Hop? then [h.next] else []
  }

  /** The levels driven by a handler. */
  ghost function News(a: Acpi, h: Handler): seq<Requested> {
    match h
    case HostOn => [Requested(1, a.chassis)]
    case ChassisOff => [Requested(a.host, 0)]
    case CycleDone => if InG3(a) then [Requested(a.host, 1), Requested(1, 1)] else []
    case _ => []
  }

  lemma HandlerWorks(a: Acpi, h: Handler)
    requires NoAbort(a) && (Deferred(h) || h == CycleDone || Inert(Current(a.outputs), h))
    ensures var n, on := RunHandler(a, h), h == CycleDone && InG3(a);
            && n.outputs == a.outputs && n.cycle == a.cycle && n.queue == a.queue + Second(h)
            && n.host == (if h == HostOn || on then 1 else a.host)
            && n.chassis == (if h == ChassisOff then 0 else if on then 1 else a.chassis)
            && n.seen == a.seen + News(a, h)
  {
    HostSpares(a, true);
    ChassisSpares(a, false);
    ChassisSpares(a, true);
    HostSpares(RequestChassis(a, true), true);
  }

  /** All that the next handler does. */
  lemma DrainStep(a: Acpi)
    requires Workable(a) && a.queue != []
    ensures var n, h := Step(a, RunNext), a.queue[0];
            var on := h == CycleDone && InG3(a);
            && Workable(n) && n.outputs == a.outputs && n.queue == a.queue[1..] + Second(h)
            && n.host == (if h == HostOn || on then 1 else a.host)
            && n.chassis == (if h == ChassisOff then 0 else if on then 1 else a.chassis)
            && n.seen == a.seen + News(a, h)
  {
    assert a.queue[0] in a.queue && forall x | x in a.queue[1..] :: x in a.queue;
    HandlerWorks(a.(queue := a.queue[1..]), a.queue[0]);
  }

  /** An acting callback leaves the queue, a hop is replaced by what it posts. */
  lemma FlightOfNext(queue: seq<Handler>, act: Handler)
    requires queue != []
    ensures var later := queue[1..] + Second(queue[0]);
            InFlight(later, act) <==> InFlight(queue[1..], act) || (queue[0].Hop? && Final(queue[0]) == act)
  {
    var later := queue[1..] + Second(queue[0]);
    assert forall x | x in queue[1..] :: x in later;
    assert queue[0].Hop? ==> later[|queue| - 1] == queue[0].next;
  }

  /** Handlers to run until the queue is empty. */
  ghost function Work(queue: seq<Handler>): nat {
    if queue == [] then 0 else Hops(queue[0]) + 1 + Work(queue[1..])
  }

  ghost function Hops(h: Handler): nat {
    if h.Hop? then 1 + Hops(h.next) else 0
  }

  lemma {:induction false} WorkOf(a: seq<Handler>, b: seq<Handler>)
    ensures Work(a + b) == Work(a) + Work(b)
    decreases |a|
  {
    if a == [] {
      assert a + b == b;
    } else {
      assert (a + b)[1..] == a[1..] + b;
      WorkOf(a[1..], b);
    }
  }

  /** Every handler run is one less to run. */
  lemma WorkShrinks(queue: seq<Handler>)
    requires queue != []
    ensures Work(queue[1..] + Second(queue[0])) + 1 == Work(queue)
  {
    WorkOf(queue[1..], Second(queue[0]));
    if queue[0].Hop? {
      assert [queue[0].next][1..] == [];
    }
  }

  /** Draining on is draining. */
  lemma KeepsNext(a: Acpi)
    ensures DrainKeeps(a) ==> DrainKeeps(Step(a, RunNext))
    ensures DrainKeeps(Step(a, RunNext)) && (forall r | r in a.seen :: Interlocked(r)) ==> DrainKeeps(a)
    ensures DrainKeeps(a) ==> forall r | r in a.seen :: Interlocked(r)
  {
    var next := Step(a, RunNext);
    if DrainKeeps(a) {
      forall n: nat, r | r in Drain(next, n).seen
        ensures Interlocked(r)
      {
        assert Drain(a, n + 1) == Drain(next, n);
      }
      assert Drain(a, 0) == a;
    }
    if DrainKeeps(next) && forall r | r in a.seen :: Interlocked(r) {
      forall n: nat, r | r in Drain(a, n).seen
        ensures Interlocked(r)
      {
        assert n > 0 ==> Drain(a, n) == Drain(next, n - 1);
      }
    }
  }

  // ---------- What breaks the interlock ----------

  /** Nothing queued lowers host before the chassis-off runs. */
  lemma {:induction false} HostUpBreaks(a: Acpi)
    requires Workable(a) && a.host == 1 && InFlight(a.queue, ChassisOff)
    ensures !DrainKeeps(a)
    decreases Work(a.queue)
  {
    var n := Step(a, RunNext);
    DrainStep(a);
    KeepsNext(a);
    if a.queue[0] == ChassisOff {
      KeepsNext(n);
      assert n.seen[|a.seen|] == Requested(1, 0) && !Interlocked(Requested(1, 0));
    } else {
      FlightOfPop(a.queue, ChassisOff);
      FlightOfNext(a.queue, ChassisOff);
      WorkShrinks(a.queue);
      HostUpBreaks(n);
    }
  }

  lemma NotRestarting(a: Acpi)
    requires Workable(a) && a.queue != [] && !Restarting(a)
    ensures !Restarting(Step(a, RunNext))
  {
    DrainStep(a);
    assert a.queue[0] in a.queue && forall x | x in a.queue[1..] :: x in a.queue;
  }

  /** Without a restart nothing queued raises chassis before the host-on runs. */
  lemma {:induction false} ChassisDownBreaks(a: Acpi)
    requires Workable(a) && a.chassis != 1 && InFlight(a.queue, HostOn) && !Restarting(a)
    ensures !DrainKeeps(a)
    decreases Work(a.queue)
  {
    var n := Step(a, RunNext);
    DrainStep(a);
    KeepsNext(a);
    assert a.queue[0] in a.queue;
    if a.queue[0] == HostOn {
      KeepsNext(n);
      assert n.seen[|a.seen|] == Requested(1, a.chassis) && !Interlocked(Requested(1, a.chassis));
    } else {
      FlightOfPop(a.queue, HostOn);
      FlightOfNext(a.queue, HostOn);
      WorkShrinks(a.queue);
      NotRestarting(a);
      ChassisDownBreaks(n);
    }
  }

  /** Whichever of the two runs first. */
  lemma {:induction false} BothBreak(a: Acpi)
    requires Workable(a) && InFlight(a.queue, HostOn) && InFlight(a.queue, ChassisOff) && !Restarting(a)
    ensures !DrainKeeps(a)
    decreases Work(a.queue)
  {
    var n := Step(a, RunNext);
    DrainStep(a);
    KeepsNext(a);
    FlightOfPop(a.queue, HostOn);
    FlightOfPop(a.queue, ChassisOff);
    FlightOfNext(a.queue, HostOn);
    FlightOfNext(a.queue, ChassisOff);
    NotRestarting(a);
    if a.queue[0] == ChassisOff {
      ChassisDownBreaks(n);
    } else if a.queue[0] == HostOn {
      HostUpBreaks(n);
    } else {
      WorkShrinks(a.queue);
      BothBreak(n);
    }
  }

  /** A chassis-off behind the restarting handler, or ahead of it with a hop left. */
  ghost predicate OffBehind(queue: seq<Handler>, k: nat, j: nat)
    requires k < |queue| && j < |queue|
  {
    (j < k && queue[j] == Hop(ChassisOff)) || (j > k && Final(queue[j]) == ChassisOff)
  }

  lemma {:induction false} RestartBreaks(a: Acpi, k: nat, j: nat)
    requires Workable(a) && InG3(a) && k < |a.queue| && j < |a.queue|
    requires a.queue[k] == CycleDone && OffBehind(a.queue, k, j)
    ensures !DrainKeeps(a)
    decreases k
  {
    var n := Step(a, RunNext);
    DrainStep(a);
    KeepsNext(a);
    if k == 0 {
      assert n.queue[j - 1] == a.queue[j];
      HostUpBreaks(n);
    } else {
      RestartBreaks(n, k - 1, if j == 0 then |a.queue| - 1 else j - 1);
    }
  }

  // ---------- What keeps it ----------

  /** With nothing left that lowers chassis, timers may do what they like. */
  lemma {:induction false} NoOffDrain(a: Acpi, n: nat)
    requires Workable(a) && Inv(a) && !InFlight(a.queue, ChassisOff)
    ensures Inv(Drain(a, n))
    decreases n
  {
    if n > 0 && a.queue != [] {
      assert a.queue[0] in a.queue;
      DrainStep(a);
      FlightOfPop(a.queue, ChassisOff);
      FlightOfNext(a.queue, ChassisOff);
      StepKeeps(a, RunNext);
      NoOffDrain(Step(a, RunNext), n - 1);
    } else if n > 0 {
      NoOffDrain(a, n - 1);
    }
  }

  lemma NoOffDrains(a: Acpi)
    requires Workable(a) && Inv(a) && !InFlight(a.queue, ChassisOff)
    ensures DrainKeeps(a)
  {
    forall k: nat, r | r in Drain(a, k).seen
      ensures Interlocked(r)
    {
      NoOffDrain(a, k);
    }
  }

  lemma {:induction false} QuietDrain(a: Acpi, n: nat)
    requires Workable(a) && Inv(a) && !Restarting(a)
    ensures Inv(Drain(a, n))
    decreases n
  {
    if n > 0 && a.queue != [] {
      assert a.queue[0] in a.queue;
      DrainStep(a);
      NotRestarting(a);
      StepKeeps(a, RunNext);
      QuietDrain(Step(a, RunNext), n - 1);
    } else if n > 0 {
      QuietDrain(a, n - 1);
    }
  }

  lemma QuietDrains(a: Acpi)
    requires Workable(a) && Inv(a) && !Restarting(a)
    ensures DrainKeeps(a)
  {
    forall k: nat, r | r in Drain(a, k).seen
      ensures Interlocked(r)
    {
      QuietDrain(a, k);
    }
  }

  /** The interlock holds now and until the queue has drained. */
  ghost predicate Keeps(a: Acpi) {
    Interlocked(Requested(a.host, a.chassis)) && DrainKeeps(a)
  }

  /** Without a restart that is the invariant, neither more nor less. */
  lemma KeepsIffInv(a: Acpi)
    requires Workable(a) && !Restarting(a)
    ensures Keeps(a) <==> Inv(a)
  {
    if Inv(a) {
      QuietDrains(a);
    }
    if Keeps(a) {
      KeepsNext(a);
      if InFlight(a.queue, HostOn) && a.chassis != 1 {
        ChassisDownBreaks(a);
      }
      if InFlight(a.queue, ChassisOff) && a.host == 1 {
        HostUpBreaks(a);
      }
      if InFlight(a.queue, ChassisOff) && InFlight(a.queue, HostOn) {
        BothBreak(a);
      }
    }
  }

  /** The first handler of a power cycle has all chassis-offs ahead of it, with no hop left. */
  ghost predicate OffsFirst(queue: seq<Handler>, k: nat) {
    && k < |queue| && queue[k] == CycleDone
    && (forall j | 0 <= j < k :: queue[j] != CycleDone && queue[j] != Hop(ChassisOff))
    && (forall j | k < j < |queue| :: Final(queue[j]) != ChassisOff)
  }

  lemma {:induction false} FirstCycle(queue: seq<Handler>) returns (k: nat)
    requires CycleDone in queue
    ensures k < |queue| && queue[k] == CycleDone && forall j | 0 <= j < k :: queue[j] != CycleDone
  {
    if queue[0] == CycleDone {
      k := 0;
    } else {
      k := FirstCycle(queue[1..]);
      k := k + 1;
    }
  }

  lemma RestartNeedsOffsFirst(a: Acpi) returns (k: nat)
    requires Workable(a) && Restarting(a) && DrainKeeps(a)
    ensures OffsFirst(a.queue, k)
  {
    k := FirstCycle(a.queue);
    forall j | 0 <= j < k
      ensures a.queue[j] != Hop(ChassisOff)
    {
      if a.queue[j] == Hop(ChassisOff) {
        RestartBreaks(a, k, j);
      }
    }
    forall j | k < j < |a.queue|
      ensures Final(a.queue[j]) != ChassisOff
    {
      if Final(a.queue[j]) == ChassisOff {
        RestartBreaks(a, k, j);
      }
    }
  }

  lemma OffsFirstNext(queue: seq<Handler>, k: nat)
    requires OffsFirst(queue, k) && k > 0 && (queue[0].Hop? ==> Deferred(queue[0]))
    ensures OffsFirst(queue[1..] + Second(queue[0]), k - 1)
  {
    var later := queue[1..] + Second(queue[0]);
    assert forall j | 0 <= j < |queue| - 1 :: later[j] == queue[j + 1];
  }

  lemma {:induction false} OffsFirstDrains(a: Acpi, k: nat)
    requires Workable(a) && InG3(a) && Inv(a) && OffsFirst(a.queue, k)
    ensures DrainKeeps(a)
    decreases k
  {
    if !InFlight(a.queue, ChassisOff) || k == 0 {
      NoOffDrains(a);
    } else {
      var n := Step(a, RunNext);
      assert a.queue[0] in a.queue;
      DrainStep(a);
      StepKeeps(a, RunNext);
      OffsFirstNext(a.queue, k);
      OffsFirstDrains(n, k - 1);
      KeepsNext(a);
    }
  }

  /** A restart keeps the interlock if and only if no chassis-off is left at or behind it. */
  lemma RestartKeepsIff(a: Acpi)
    requires Workable(a) && Restarting(a) && Inv(a)
    ensures DrainKeeps(a) <==> exists k :: OffsFirst(a.queue, k)
  {
    if DrainKeeps(a) {
      var k := RestartNeedsOffsFirst(a);
    }
    if k :| OffsFirst(a.queue, k) {
      OffsFirstDrains(a, k);
    }
  }

  /** So an evaluation is safe unless it reports G3 to a power cycle with chassis-offs left. */
  lemma EvaluationKeepsIff(a: Acpi, outputs: map<ACPILevel, Level>)
    requires Tidy(a) && Inv(a)
    ensures var n := Step(a, Evaluated(outputs));
            DrainKeeps(n) <==> (Restarting(n) ==> exists k :: OffsFirst(n.queue, k))
  {
    var n := Step(a, Evaluated(outputs));
    TidyHolds(a, Evaluated(outputs));
    StepKeeps(a, Evaluated(outputs));
    if Restarting(n) {
      RestartKeepsIff(n);
    } else {
      QuietDrains(n);
    }
  }

  /** And the handler itself is, when it finds G3, exactly when no chassis-off is in flight. */
  lemma DoneKeepsIff(a: Acpi)
    requires Workable(a) && Inv(a) && a.queue != [] && a.queue[0] == CycleDone && InG3(a)
    ensures DrainKeeps(Step(a, RunNext)) <==> Safe(a, RunNext)
  {
    DrainStep(a);
    FlightOfPop(a.queue, ChassisOff);
    FlightOfNext(a.queue, ChassisOff);
    if Safe(a, RunNext) {
      StepKeeps(a, RunNext);
      NoOffDrains(Step(a, RunNext));
    } else {
      HostUpBreaks(Step(a, RunNext));
    }
  }

  // ---------- Requests ----------

  /** The same queue with host asked for less and chassis more. */
  ghost predicate Milder(a: Acpi, b: Acpi) {
    && b.queue == a.queue && b.outputs == a.outputs
    && (b.host == 1 ==> a.host == 1) && (a.chassis == 1 ==> b.chassis == 1)
    && forall r | r in b.seen :: Interlocked(r)
  }

  lemma {:induction false} DrainEmpty(a: Acpi, n: nat)
    requires a.queue == []
    ensures Drain(a, n) == a
    decreases n
  {
    if n > 0 {
      DrainEmpty(a, n - 1);
    }
  }

  lemma {:induction false} MilderKeeps(a: Acpi, b: Acpi)
    requires Workable(a) && Workable(b) && Milder(a, b) && DrainKeeps(a)
    ensures DrainKeeps(b)
    decreases Work(a.queue)
  {
    if b.queue == [] {
      forall n: nat, r | r in Drain(b, n).seen
        ensures Interlocked(r)
      {
        DrainEmpty(b, n);
      }
    } else {
      var h, m, n := a.queue[0], Step(a, RunNext), Step(b, RunNext);
      DrainStep(a);
      DrainStep(b);
      KeepsNext(a);
      KeepsNext(m);
      WorkShrinks(a.queue);
      NewsMilder(a, b, h);
      MilderKeeps(m, n);
      KeepsNext(b);
    }
  }

  lemma NewsMilder(a: Acpi, b: Acpi, h: Handler)
    requires Milder(a, b) && forall r | r in a.seen + News(a, h) :: Interlocked(r)
    ensures forall r | r in b.seen + News(b, h) :: Interlocked(r)
  {
    if h == HostOn || h == ChassisOff {
      assert News(a, h)[0] in a.seen + News(a, h);
    }
  }

  /** Behind the first restarting handler the queue may hold whatever does not lower chassis. */
  lemma {:induction false} BehindRestart(a: Acpi, b: Acpi, k: nat)
    requires Workable(a) && Workable(b) && InG3(a) && DrainKeeps(a)
    requires b.outputs == a.outputs && b.host == a.host && b.chassis == a.chassis
    requires forall r | r in b.seen :: Interlocked(r)
    requires OffsFirst(b.queue, k) && k < |a.queue| && a.queue[..k + 1] == b.queue[..k + 1]
    ensures DrainKeeps(b)
    decreases k
  {
    var h, m, n := b.queue[0], Step(a, RunNext), Step(b, RunNext);
    assert a.queue[0] == a.queue[..k + 1][0] == b.queue[..k + 1][0] == h;
    DrainStep(a);
    DrainStep(b);
    KeepsNext(a);
    KeepsNext(m);
    KeepsNext(b);
    NewsMilder(a.(queue := b.queue), b, h);
    if k == 0 {
      NoOffLeft(b);
      NoOffDrains(n);
    } else {
      assert h in b.queue;
      OffsFirstNext(b.queue, k);
      assert m.queue[..k] == a.queue[..k + 1][1..] == b.queue[..k + 1][1..] == n.queue[..k];
      BehindRestart(m, n, k - 1);
    }
  }

  lemma NoOffLeft(b: Acpi)
    requires Workable(b) && InG3(b) && OffsFirst(b.queue, 0)
    ensures !InFlight(Step(b, RunNext).queue, ChassisOff)
  {
    DrainStep(b);
    FlightOfNext(b.queue, ChassisOff);
    forall x | x in b.queue[1..]
      ensures Final(x) != ChassisOff
    {
      var j :| 0 <= j < |b.queue| - 1 && b.queue[1..][j] == x;
      assert b.queue[j + 1] == x;
    }
  }

  lemma HostRequest(a: Acpi, on: bool)
    requires Workable(a)
    ensures var n := RequestHost(a, on);
            && Workable(n) && n.queue == a.queue && n.outputs == a.outputs
            && n.host == FromBool(on) && n.chassis == a.chassis
            && n.seen == a.seen + [Requested(FromBool(on), a.chassis)]
  {
    HostSpares(a, on);
  }

  lemma ChassisRequest(a: Acpi, on: bool)
    requires Workable(a)
    ensures var n := RequestChassis(a, on);
            && Workable(n) && n.queue == a.queue && n.outputs == a.outputs
            && n.host == a.host && n.chassis == FromBool(on) && n.seen == a.seen + [Requested(a.host, FromBool(on))]
  {
    ChassisSpares(a, on);
  }

  /** Lowering host or raising chassis does no harm. */
  lemma MildRequest(a: Acpi)
    requires Workable(a) && DrainKeeps(a)
    ensures DrainKeeps(RequestHost(a, false)) && DrainKeeps(RequestChassis(a, true))
  {
    KeepsNext(a);
    HostRequest(a, false);
    ChassisRequest(a, true);
    MilderKeeps(a, RequestHost(a, false));
    MilderKeeps(a, RequestChassis(a, true));
  }

  lemma OffDuringRestart(a: Acpi)
    requires Workable(a) && Restarting(a)
    ensures !DrainKeeps(PowerTransition(a, CHASSIS_OFF))
  {
    var n := PowerTransition(a, CHASSIS_OFF);
    HostRequest(a, false);
    assert n.queue == a.queue + [Hop(ChassisOff)];
    var k := FirstCycle(a.queue);
    RestartBreaks(n, k, |a.queue|);
  }

  lemma OnDuringRestart(a: Acpi)
    requires Workable(a) && Restarting(a) && DrainKeeps(a)
    ensures DrainKeeps(HostTransition(a, HOST_ON))
  {
    var b, n := RequestChassis(a, true), HostTransition(a, HOST_ON);
    MildRequest(a);
    ChassisRequest(a, true);
    KeepsNext(b);
    var k := RestartNeedsOffsFirst(b);
    assert n.queue == b.queue + [Hop(HostOn)];
    assert b.queue[..k + 1] == n.queue[..k + 1];
    BehindRestart(b, n, k);
  }

  lemma RestartingRequest(a: Acpi, op: Op)
    requires Workable(a) && Restarting(a) && DrainKeeps(a) && (op.Host? || op.Chassis?)
    ensures DrainKeeps(Step(a, op)) <==> op != Chassis(CHASSIS_OFF)
  {
    MildRequest(a);
    OnDuringRestart(a);
    OffDuringRestart(a);
  }

  /** What a request leaves in the queue. */
  lemma RequestQueue(a: Acpi, op: Op)
    requires Workable(a) && !Restarting(a) && (op.Host? || op.Chassis?)
    ensures var n := Step(a, op);
            && Workable(n) && !Restarting(n)
            && (forall h | h in a.queue :: h in n.queue)
            && (op == Host(HOST_ON) ==> Hop(HostOn) in n.queue)
            && (op.Chassis? && TurnsOff(a, op.request) ==> Hop(ChassisOff) in n.queue)
  {
    var n := Step(a, op);
    HostRequest(a, false);
    ChassisRequest(a, true);
    NoAbortHolds(a, op);
    var more := if op == Chassis(POWER_CYCLE) && a.cycle then [CycleDone] else [];
    assert || n.queue == a.queue || n.queue == a.queue + [Hop(HostOn)]
           || n.queue == a.queue + [Hop(ChassisOff)] + more;
    assert op == Host(HOST_ON) ==> n.queue[|a.queue|] == Hop(HostOn);
    assert op.Chassis? && TurnsOff(a, op.request) ==> n.queue[|a.queue|] == Hop(ChassisOff);
  }

  lemma QuietRequest(a: Acpi, op: Op)
    requires Workable(a) && !Restarting(a) && Keeps(a) && (op.Host? || op.Chassis?)
    ensures DrainKeeps(Step(a, op)) <==> Safe(a, op)
  {
    RequestQueue(a, op);
    KeepsIffInv(a);
    if Safe(a, op) {
      StepKeeps(a, op);
      QuietDrains(Step(a, op));
    } else {
      BothBreak(Step(a, op));
    }
  }

  /** Exactly when a request is safe, made between two handlers in a state whose queue would
      drain well without it. While a power cycle is restarting, unless it asks for chassis off;
      otherwise if and only if no request of the opposite kind is still in flight. On then off
      and off then on both break it. */
  lemma SafeIffDrainKeeps(a: Acpi, op: Op)
    requires Workable(a) && Keeps(a) && (op.Host? || op.Chassis?)
    ensures DrainKeeps(Step(a, op)) <==>
              if Restarting(a) then !(op.Chassis? && TurnsOff(a, op.request)) else Safe(a, op)
  {
    if Restarting(a) {
      RestartingRequest(a, op);
    } else {
      QuietRequest(a, op);
    }
  }

  // ---------- What requests and timers do ----------

  /** The handler of a waiting power cycle joins the queue when G3 is observed. */
  ghost function Aborted(a: Acpi): seq<Handler> {
    if a.cycle && Current(a.outputs) == ACPI_G3 then [CycleDone] else []
  }

  /** A host request: off lowers host and defers nothing; on raises chassis and defers host by
      two hops; any other word does nothing. */
  lemma HostRequestDoes(a: Acpi, request: string)
    ensures var n := Step(a, Host(request));
            && n.outputs == a.outputs
            && (request == "xyz.openbmc_project.State.Host.Transition.Off" ==>
                  n.host == 0 && n.chassis == a.chassis && n.queue == a.queue + Aborted(a))
            && (request == "xyz.openbmc_project.State.Host.Transition.On" ==>
                  n.host == a.host && n.chassis == 1 && n.queue == a.queue + Aborted(a) + [Hop(HostOn)])
            && (n == a || request == "xyz.openbmc_project.State.Host.Transition.Off"
                || request == "xyz.openbmc_project.State.Host.Transition.On")
  {
    HostObserved(a, false);
    ChassisObserved(a, true);
  }

  /** A chassis request: off lowers host and defers chassis by two hops; on raises chassis and
      leaves host; cycling is the one in G3 and the other otherwise, and then the timer waits;
      any other word does nothing. */
  lemma ChassisRequestDoes(a: Acpi, request: string)
    ensures var n := Step(a, Chassis(request));
            var cycle := request == "xyz.openbmc_project.State.Chassis.Transition.PowerCycle";
            var g3 := Current(a.outputs) == ACPI_G3;
            && n.outputs == a.outputs
            && (request == "xyz.openbmc_project.State.Chassis.Transition.Off" ==>
                  n.host == 0 && n.chassis == a.chassis && n.queue == a.queue + Aborted(a) + [Hop(ChassisOff)])
            && (request == "xyz.openbmc_project.State.Chassis.Transition.On" || (cycle && g3) ==>
                  n.host == a.host && n.chassis == 1 && n.queue == a.queue + Aborted(a))
            && (cycle && !g3 ==>
                  && n.host == 0 && n.chassis == a.chassis && n.cycle
                  && n.queue == a.queue + [Hop(ChassisOff)] + if a.cycle then [CycleDone] else [])
            && (n == a || request == "xyz.openbmc_project.State.Chassis.Transition.Off"
                || request == "xyz.openbmc_project.State.Chassis.Transition.On" || cycle)
  {
    HostObserved(a, false);
    ChassisObserved(a, true);
  }

  lemma HostObserved(a: Acpi, on: bool)
    ensures var n := RequestHost(a, on);
            && n.host == (if on then 1 else 0) && n.chassis == a.chassis && n.outputs == a.outputs
            && n.queue == a.queue + Aborted(a) && n.cycle == (a.cycle && Aborted(a) == [])
  {
  }

  lemma ChassisObserved(a: Acpi, on: bool)
    ensures var n := RequestChassis(a, on);
            && n.host == a.host && n.chassis == (if on then 1 else 0) && n.outputs == a.outputs
            && n.queue == a.queue + Aborted(a) && n.cycle == (a.cycle && Aborted(a) == [])
  {
  }

  /** Where the queue takes the requests, unless a power cycle is restarting: every deferred
      half arrives, and nothing else moves them. A restart ends with host on. */
  lemma {:induction false} DrainArrives(a: Acpi, n: nat)
    requires Workable(a) && n == Work(a.queue)
    ensures var d := Drain(a, n);
            && d.queue == [] && Workable(d)
            && (!Restarting(a) ==>
                  && d.host == (if InFlight(a.queue, HostOn) then 1 else a.host)
                  && d.chassis == (if InFlight(a.queue, ChassisOff) then 0 else a.chassis))
            && (Restarting(a) || a.host == 1 ==> d.host == 1)
            && (!InFlight(a.queue, ChassisOff) && (Restarting(a) || a.chassis == 1) ==> d.chassis == 1)
    decreases n
  {
    if a.queue != [] {
      var next := Step(a, RunNext);
      assert a.queue[0] in a.queue;
      DrainStep(a);
      FlightOfPop(a.queue, HostOn);
      FlightOfPop(a.queue, ChassisOff);
      FlightOfNext(a.queue, HostOn);
      FlightOfNext(a.queue, ChassisOff);
      WorkShrinks(a.queue);
      assert CycleDone in a.queue && a.queue[0] != CycleDone ==> CycleDone in next.queue;
      if !Restarting(a) {
        NotRestarting(a);
      }
      DrainArrives(next, n - 1);
    }
  }

  /** Once the queue has drained after a host-on request, host is on, and so is chassis unless a
      chassis-off was in flight. */
  lemma HostOnArrives(a: Acpi)
    requires Workable(a)
    ensures var n := Step(a, Host("xyz.openbmc_project.State.Host.Transition.On"));
            var d := Drain(n, Work(n.queue));
            d.queue == [] && d.host == 1 && (!InFlight(a.queue, ChassisOff) ==> d.chassis == 1)
  {
    var request := "xyz.openbmc_project.State.Host.Transition.On";
    var n := Step(a, Host(request));
    HostRequestDoes(a, request);
    MoreInFlight(a.queue, Hop(HostOn), HostOn);
    MoreInFlight(a.queue, Hop(HostOn), ChassisOff);
    assert Workable(n);
    DrainArrives(n, Work(n.queue));
  }

  /** After a chassis-off request chassis is off, unless a power cycle is restarting, and so is
      host unless a host-on was in flight. */
  lemma ChassisOffArrives(a: Acpi)
    requires Workable(a) && !Restarting(a)
    ensures var n := Step(a, Chassis("xyz.openbmc_project.State.Chassis.Transition.Off"));
            var d := Drain(n, Work(n.queue));
            d.queue == [] && d.chassis == 0 && (!InFlight(a.queue, HostOn) ==> d.host == 0)
  {
    var request := "xyz.openbmc_project.State.Chassis.Transition.Off";
    var n := Step(a, Chassis(request));
    ChassisRequestDoes(a, request);
    MoreInFlight(a.queue, Hop(ChassisOff), HostOn);
    MoreInFlight(a.queue, Hop(ChassisOff), ChassisOff);
    assert Workable(n) && !Restarting(n);
    DrainArrives(n, Work(n.queue));
  }

  lemma MoreInFlight(queue: seq<Handler>, h: Handler, act: Handler)
    ensures InFlight(queue + [h], act) <==> InFlight(queue, act) || Final(h) == act
  {
    assert (queue + [h])[|queue|] == h;
    assert forall x | x in queue :: x in queue + [h];
  }

  /** What an evaluation does to the timers: G3 ends both waits, and that of a power cycle by
      queueing its handler; S0 and S3 end the idle wait; S5 begins one, where configured, on
      coming from a state that is neither S5 nor G3. Requests stay. */
  lemma EvaluatedDoes(a: Acpi, outputs: map<ACPILevel, Level>)
    ensures var n, now := Step(a, Evaluated(outputs)), Current(outputs);
            && n.host == a.host && n.chassis == a.chassis && n.seen == a.seen
            && n.outputs == outputs && n.last == now && n.offWhenIdle == a.offWhenIdle
            && (now == ACPI_G3 ==> !n.idle && !n.cycle && n.queue == a.queue + if a.cycle then [CycleDone] else [])
            && (now != ACPI_G3 ==> n.cycle == a.cycle && n.queue == a.queue)
            && (now == ACPI_S0 || now == ACPI_S3 ==> !n.idle)
            && (now == ACPI_INVALID ==> n.idle == a.idle)
            && (now == ACPI_S5 ==> n.idle == (a.idle || (a.offWhenIdle && a.last !in {ACPI_S5, ACPI_G3})))
  {
  }

  /** The idle wait ends in a chassis-off request if S5 is still reported, and in nothing
      otherwise. */
  lemma IdleHandlerDoes(a: Acpi)
    requires a.queue != [] && a.queue[0] == IdleDone
    ensures var n := Step(a, RunNext);
            if Current(a.outputs) == ACPI_S5
            then n.host == 0 && n.chassis == a.chassis && n.queue == a.queue[1..] + [Hop(ChassisOff)]
            else n == a.(queue := a.queue[1..])
  {
    HostObserved(a.(queue := a.queue[1..]), false);
  }

  /** An idle host is waited for only where configured, from S5 on and as long as no other state
      is reported. */
  ghost predicate IdleInS5(a: Acpi) {
    a.idle ==> a.offWhenIdle && a.last in {ACPI_S5, ACPI_INVALID}
  }

  lemma ObserveIdle(a: Acpi)
    requires IdleInS5(a)
    ensures IdleInS5(Observe(a))
  {
  }

  lemma RequestIdle(a: Acpi, on: bool)
    requires IdleInS5(a)
    ensures IdleInS5(RequestHost(a, on)) && IdleInS5(RequestChassis(a, on))
  {
    ObserveIdle(a.(host := FromBool(on), seen := a.seen + [Requested(FromBool(on), a.chassis)]));
    ObserveIdle(a.(chassis := FromBool(on), seen := a.seen + [Requested(a.host, FromBool(on))]));
  }

  lemma HandlerIdle(a: Acpi, h: Handler)
    requires IdleInS5(a)
    ensures IdleInS5(RunHandler(a, h))
  {
    RequestIdle(a, true);
    RequestIdle(a, false);
    RequestIdle(RequestChassis(a, true), true);
  }

  /** Every step keeps it so. */
  lemma IdleInS5Holds(a: Acpi, op: Op)
    requires IdleInS5(a)
    ensures IdleInS5(Step(a, op))
  {
    RequestIdle(a, true);
    RequestIdle(a, false);
    match op
    case Evaluated(outputs) => ObserveIdle(a.(outputs := outputs));
    case RunNext =>
      if a.queue != [] {
        HandlerIdle(a.(queue := a.queue[1..]), a.queue[0]);
      }
    case _ =>
  }

  // ---------- A power cycle ----------

  /** What goes on after the request of a power cycle: evaluations, queued callbacks and the
      cycle's own timer, in any order. */
  ghost predicate CycleOps(ops: seq<Op>) {
    forall op | op in ops :: op.Evaluated? || op.RunNext? || op.CycleExpires?
  }

  lemma HopStep(a: Acpi, act: Handler, rest: seq<Handler>)
    requires a.queue == [Hop(act)] + rest
    ensures Step(a, RunNext) == a.(queue := rest + [act])
  {
  }

  /** How far it has come. `Asked` and `Next` say how many hops the chassis-off has left. `Late`:
      the timer's handler found no G3 while chassis-off was still queued; `Early`: it found
      G3 too early. */
  datatype Phase =
    | Asked | AskedDone | Next | NextDone | DoneNext | Late
    | Off | OffDone | Stopped | Restarted
    | Early | EarlyOff

  ghost function QueueOf(p: Phase): seq<Handler> {
    match p
    case Asked => [Hop(ChassisOff)]
    case AskedDone => [Hop(ChassisOff), CycleDone]
    case Next => [ChassisOff]
    case NextDone => [ChassisOff, CycleDone]
    case DoneNext => [CycleDone, ChassisOff]
    case Late => [ChassisOff]
    case OffDone => [CycleDone]
    case Early => [ChassisOff]
    case _ => []
  }

  /** The levels driven by then, from a chassis request at `c`. */
  ghost function SeenBy(p: Phase, c: Level): seq<Requested> {
    match p
    case Off => [Requested(0, c), Requested(0, 0)]
    case OffDone => [Requested(0, c), Requested(0, 0)]
    case Stopped => [Requested(0, c), Requested(0, 0)]
    case Restarted => [Requested(0, c), Requested(0, 0), Requested(0, 1), Requested(1, 1)]
    case Early => [Requested(0, c), Requested(0, 1), Requested(1, 1)]
    case EarlyOff => [Requested(0, c), Requested(0, 1), Requested(1, 1), Requested(1, 0)]
    case _ => [Requested(0, c)]
  }

  ghost predicate In(a: Acpi, p: Phase, c: Level, before: seq<Requested>) {
    && !a.idle && !a.offWhenIdle && NoAbort(a)
    && a.queue == QueueOf(p) && a.cycle == (p == Asked || p == Next || p == Off)
    && a.seen == before + SeenBy(p, c) && Requested(a.host, a.chassis) == SeenBy(p, c)[|SeenBy(p, c)| - 1]
  }

  /** The phase after the timer has expired or G3 has cancelled it. */
  ghost function Ended(p: Phase): Phase {
    match p
    case Asked => AskedDone
    case Next => NextDone
    case Off => OffDone
    case _ => p
  }

  /** The phase after the next callback, in G3 or not. */
  ghost function Ran(p: Phase, g3: bool): Phase {
    match p
    case Asked => Next
    case AskedDone => DoneNext
    case Next => Off
    case NextDone => OffDone
    case DoneNext => if g3 then Early else Late
    case Late => Stopped
    case OffDone => if g3 then Restarted else Stopped
    case Early => EarlyOff
    case _ => p
  }

  ghost function PhaseAfter(a: Acpi, p: Phase, op: Op): Phase {
    match op
    case Evaluated(outputs) => if Current(outputs) == ACPI_G3 then Ended(p) else p
    case CycleExpires => Ended(p)
    case _ => Ran(p, Current(a.outputs) == ACPI_G3)
  }

  lemma PhaseEnds(a: Acpi, p: Phase, op: Op, c: Level, before: seq<Requested>)
    requires In(a, p, c, before) && (op.Evaluated? || op.CycleExpires?)
    ensures In(Step(a, op), PhaseAfter(a, p, op), c, before)
  {
    NoAbortHolds(a, op);
  }

  /** A request by a callback, seen by itself. */
  lemma Requests(a: Acpi, on: bool)
    requires NoAbort(a) && !a.idle && !a.offWhenIdle
    ensures var n := RequestChassis(a, on);
            && NoAbort(n) && !n.idle && !n.offWhenIdle && n.queue == a.queue && n.cycle == a.cycle
            && n.host == a.host && n.chassis == FromBool(on) && n.seen == a.seen + [Requested(a.host, FromBool(on))]
    ensures var n := RequestHost(a, on);
            && NoAbort(n) && !n.idle && !n.offWhenIdle && n.queue == a.queue && n.cycle == a.cycle
            && n.host == FromBool(on) && n.chassis == a.chassis
            && n.seen == a.seen + [Requested(FromBool(on), a.chassis)]
  {
  }

  lemma PhaseHops(a: Acpi, p: Phase, c: Level, before: seq<Requested>)
    requires In(a, p, c, before) && (p == Asked || p == AskedDone)
    ensures In(Step(a, RunNext), PhaseAfter(a, p, RunNext), c, before)
  {
    HopStep(a, ChassisOff, a.queue[1..]);
  }

  lemma PhaseTurnsOff(a: Acpi, p: Phase, c: Level, before: seq<Requested>)
    requires In(a, p, c, before) && a.queue != [] && a.queue[0] == ChassisOff
    ensures In(Step(a, RunNext), PhaseAfter(a, p, RunNext), c, before)
  {
    Requests(a.(queue := a.queue[1..]), false);
  }

  lemma PhaseDone(a: Acpi, p: Phase, c: Level, before: seq<Requested>)
    requires In(a, p, c, before) && a.queue != [] && a.queue[0] == CycleDone
    ensures In(Step(a, RunNext), PhaseAfter(a, p, RunNext), c, before)
  {
    var popped := a.(queue := a.queue[1..]);
    Requests(popped, true);
    Requests(RequestChassis(popped, true), true);
  }

  lemma PhaseRuns(a: Acpi, p: Phase, c: Level, before: seq<Requested>)
    requires In(a, p, c, before)
    ensures In(Step(a, RunNext), PhaseAfter(a, p, RunNext), c, before)
  {
    if a.queue != [] {
      if p == Asked || p == AskedDone {
        PhaseHops(a, p, c, before);
      } else if a.queue[0] == ChassisOff {
        PhaseTurnsOff(a, p, c, before);
      } else {
        PhaseDone(a, p, c, before);
      }
    }
  }

  /** Raising before chassis has fallen is the unsafe case. */
  lemma EarlyIsUnsafe(a: Acpi, c: Level, before: seq<Requested>)
    requires In(a, DoneNext, c, before) && InG3(a)
    ensures !Safe(a, RunNext)
  {
    assert a.queue[1] == ChassisOff && Final(a.queue[1]) == ChassisOff;
  }

  ghost predicate ReportsG3(ops: seq<Op>) {
    exists op | op in ops :: op.Evaluated? && Current(op.outputs) == ACPI_G3
  }

  lemma {:induction false} CycleRun(a: Acpi, p: Phase, c: Level, before: seq<Requested>, ops: seq<Op>)
      returns (q: Phase)
    requires In(a, p, c, before) && CycleOps(ops)
    ensures In(Run(a, ops), q, c, before)
    ensures !InG3(a) && !ReportsG3(ops) && p != Restarted && p != Early && p != EarlyOff ==>
              q != Restarted && q != Early && q != EarlyOff
    ensures AllSafe(a, ops) && p != Early && p != EarlyOff ==> q != Early && q != EarlyOff
    decreases |ops|
  {
    if ops == [] {
      q := p;
    } else {
      var op := ops[0];
      assert op in ops && forall o | o in ops[1..] :: o in ops;
      if op.RunNext? {
        PhaseRuns(a, p, c, before);
        OutputsStay(a);
        if p == DoneNext && InG3(a) {
          EarlyIsUnsafe(a, c, before);
        }
      } else {
        PhaseEnds(a, p, op, c, before);
      }
      q := CycleRun(Step(a, op), PhaseAfter(a, p, op), c, before, ops[1..]);
    }
  }

  lemma RequestsKeepOutputs(a: Acpi, on: bool)
    ensures RequestHost(a, on).outputs == a.outputs && RequestChassis(a, on).outputs == a.outputs
  {
  }

  lemma OutputsStay(a: Acpi)
    ensures Step(a, RunNext).outputs == a.outputs
  {
    if a.queue != [] {
      var p := a.(queue := a.queue[1..]);
      RequestsKeepOutputs(p, true);
      RequestsKeepOutputs(p, false);
      RequestsKeepOutputs(RequestChassis(p, true), true);
    }
  }

  lemma CycleRequest(a: Acpi)
    requires a.queue == [] && !a.cycle && !a.idle && !a.offWhenIdle && !InG3(a)
    ensures In(Step(a, Chassis(POWER_CYCLE)), Asked, a.chassis, a.seen) && !InG3(Step(a, Chassis(POWER_CYCLE)))
  {
    Requests(a, false);
  }

  /** A power cycle asked for in a powered state, over every run of evaluations, callbacks and
      its timer. It lowers host, then chassis, and raises chassis, then host, each at most
      once; only if G3 is reported before chassis has fallen does it raise both too early and
      lower chassis last. If no G3 is reported, power stays off. When nothing is left to do,
      it has gone all the way or stopped after lowering both. */
  lemma PowerCycleRuns(a: Acpi, ops: seq<Op>)
    requires a.queue == [] && !a.cycle && !a.idle && !a.offWhenIdle && !InG3(a) && CycleOps(ops)
    ensures var c := a.chassis;
            var clean := [Requested(0, c), Requested(0, 0), Requested(0, 1), Requested(1, 1)];
            var early := [Requested(0, c), Requested(0, 1), Requested(1, 1), Requested(1, 0)];
            var n := Run(Step(a, Chassis(POWER_CYCLE)), ops);
            && (exists k | 0 < k <= 4 :: n.seen == a.seen + clean[..k] || n.seen == a.seen + early[..k])
            && (!ReportsG3(ops) ==> n.seen == a.seen + clean[..1] || n.seen == a.seen + clean[..2])
            && (AllSafe(Step(a, Chassis(POWER_CYCLE)), ops) ==> exists k | 0 < k <= 4 :: n.seen == a.seen + clean[..k])
            && (n.queue == [] && !n.cycle ==>
                n.seen == a.seen + clean[..2] || n.seen == a.seen + clean || n.seen == a.seen + early)
  {
    CycleRequest(a);
    var q := CycleRun(Step(a, Chassis(POWER_CYCLE)), Asked, a.chassis, a.seen, ops);
    SeenIsPrefix(q, a.chassis);
  }

  lemma SeenIsPrefix(p: Phase, c: Level)
    ensures var clean := [Requested(0, c), Requested(0, 0), Requested(0, 1), Requested(1, 1)];
            var early := [Requested(0, c), Requested(0, 1), Requested(1, 1), Requested(1, 0)];
            && (p == Early ==> SeenBy(p, c) == early[..3]) && (p == EarlyOff ==> SeenBy(p, c) == early == early[..4])
            && (p == Restarted ==> SeenBy(p, c) == clean == clean[..4])
            && (p == Off || p == OffDone || p == Stopped ==> SeenBy(p, c) == clean[..2])
            && (QueueOf(p) != [] && p != OffDone && p != Early ==> SeenBy(p, c) == clean[..1])
  {
  }

  lemma TwoSteps(a: Acpi, first: Op, second: Op)
    ensures Run(a, [first, second]) == Step(Step(a, first), second)
  {
    assert [first, second][1..] == [second] && [second][1..] == [];
    assert Run(a, [first, second]) == Run(Step(a, first), [second]);
    assert Run(Step(a, first), [second]) == Run(Step(Step(a, first), second), []);
  }

  lemma CycleGoesOff(a: Acpi, c: Level, before: seq<Requested>)
    requires In(a, Asked, c, before)
    ensures In(Run(a, [RunNext, RunNext]), Off, c, before)
  {
    PhaseRuns(a, Asked, c, before);
    PhaseRuns(Step(a, RunNext), Next, c, before);
    TwoSteps(a, RunNext, RunNext);
  }

  lemma CycleRestarts(a: Acpi, off: map<ACPILevel, Level>, c: Level, before: seq<Requested>)
    requires In(a, Off, c, before) && Current(off) == ACPI_G3
    ensures In(Run(a, [Evaluated(off), RunNext]), Restarted, c, before)
  {
    PhaseEnds(a, Off, Evaluated(off), c, before);
    EvaluatedSets(a, off);
    PhaseRuns(Step(a, Evaluated(off)), OffDone, c, before);
    TwoSteps(a, Evaluated(off), RunNext);
  }

  lemma EvaluatedSets(a: Acpi, off: map<ACPILevel, Level>)
    ensures Step(a, Evaluated(off)).outputs == off
  {
  }

  /** In particular it goes all the way when G3 is reported once both are down. */
  lemma PowerCycleCompletes(a: Acpi, off: map<ACPILevel, Level>)
    requires a.queue == [] && !a.cycle && !a.idle && !a.offWhenIdle && !InG3(a) && Current(off) == ACPI_G3
    ensures var down := Run(Step(a, Chassis(POWER_CYCLE)), [RunNext, RunNext]);
            var n := Run(down, [Evaluated(off), RunNext]);
            && down.seen == a.seen + [Requested(0, a.chassis), Requested(0, 0)]
            && n.seen == down.seen + [Requested(0, 1), Requested(1, 1)]
            && n.queue == [] && !n.cycle
  {
    CycleRequest(a);
    CycleGoesOff(Step(a, Chassis(POWER_CYCLE)), a.chassis, a.seen);
    CycleRestarts(Run(Step(a, Chassis(POWER_CYCLE)), [RunNext, RunNext]), off, a.chassis, a.seen);
  }

  /** No request meets an opposite one in flight in this run, and yet it ends with host on and
      chassis off: a power cycle has lowered both, G3 is reported, and a chassis-off request is
      made before the cycle's handler has raised them again. */
  lemma OffAfterCycleBreaks(a: Acpi, off: map<ACPILevel, Level>)
    requires a.queue == [] && !a.cycle && !a.idle && !a.offWhenIdle && !InG3(a) && Inv(a) && Current(off) == ACPI_G3
    ensures var down := Run(Step(a, Chassis(POWER_CYCLE)), [RunNext, RunNext]);
            var n := Step(down, Evaluated(off));
            && n.queue == [CycleDone] && Keeps(n) && Safe(n, Chassis(CHASSIS_OFF))
            && !DrainKeeps(Step(n, Chassis(CHASSIS_OFF)))
  {
    var down := Run(Step(a, Chassis(POWER_CYCLE)), [RunNext, RunNext]);
    var n := Step(down, Evaluated(off));
    CycleRequest(a);
    CycleGoesOff(Step(a, Chassis(POWER_CYCLE)), a.chassis, a.seen);
    PhaseEnds(down, Off, Evaluated(off), a.chassis, a.seen);
    EvaluatedSets(down, off);
    NoOffDrains(n);
    OffDuringRestart(n);
  }
}
