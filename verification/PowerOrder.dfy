/** The two-hop requests of the ACPI sequencer on the queue that runs the evaluations. */
module PowerOrder {
  import opened Netlist
  import opened Propagation
  import IoQueue
  import AcpiModel

  /** A deferred half of a request as a handler of the io queue. */
  ghost function Io<S, U>(h: AcpiModel.Handler, host: S, chassis: S): IoQueue.Handler<S, U> {
    match h
    case HostOn => IoQueue.Do([IoQueue.Set(host, true)])
    case ChassisOff => IoQueue.Do([IoQueue.Set(chassis, false)])
    case Hop(next) => IoQueue.Hop(Io(next, host, chassis))
    case _ => IoQueue.Do([])
  }

  /** The whole request: chassis off (`down`), or host on. */
  ghost function Opening<S, U>(down: bool, host: S, chassis: S): IoQueue.Handler<S, U> {
    if down
    then IoQueue.Request(host, false, Io(AcpiModel.ChassisOff, host, chassis))
    else IoQueue.Request(chassis, true, Io(AcpiModel.HostOn, host, chassis))
  }

  ghost function Asked(a: AcpiModel.Acpi, down: bool): AcpiModel.Acpi {
    if down then AcpiModel.PowerTransition(a, AcpiModel.CHASSIS_OFF) else AcpiModel.HostTransition(a, AcpiModel.HOST_ON)
  }

  /** That handler is the sequencer's request: from equal request levels it leaves equal
      request levels, and the same deferred half at the end of the queue; with no power cycle
      waiting in G3 nothing else is posted. */
  lemma OpeningIsRequest<S, U>(net: Net<U, S>, fan: Fan<S, U>, sys: IoQueue.Sys<S, U>, a: AcpiModel.Acpi,
                               down: bool, host: S, chassis: S)
    requires host != chassis && sys.queue != [] && sys.queue[0] == Opening(down, host, chassis)
    requires At(sys.engine.levels, host) == a.host && At(sys.engine.levels, chassis) == a.chassis
    ensures var next, b := IoQueue.Step(net, fan, sys), Asked(a, down);
            && At(next.engine.levels, host) == b.host && At(next.engine.levels, chassis) == b.chassis
            && next.queue != [] && b.queue != []
            && next.queue[|next.queue| - 1] == Io(b.queue[|b.queue| - 1], host, chassis)
            && (AcpiModel.NoAbort(a) ==> b.queue == a.queue + [b.queue[|b.queue| - 1]])
  {
    var s, v := if down then host else chassis, !down;
    IoQueue.RequestStep(net, fan, sys, s, v,
                        Io(if down then AcpiModel.ChassisOff else AcpiModel.HostOn, host, chassis));
    AcpiModel.ObserveSpares(a.(host := 0, seen := a.seen + [AcpiModel.Requested(0, a.chassis)]));
    AcpiModel.ObserveSpares(a.(chassis := 1, seen := a.seen + [AcpiModel.Requested(a.host, 1)]));
  }

  /** Powering down, an evaluation that sees the lowered host request starts, with the chassis
      request still as it was if nothing else queued drives it, and completes before the
      request lowers the chassis; powering
      up, one that sees the raised chassis request completes before host is raised. It is
      queued ahead of the first hop, whatever other threads post meanwhile. The only
      exception is a level that was there already and has been evaluated. */
  lemma EvaluatedInBetween<S, U>(net: Net<U, S>, fan: Fan<S, U>, sys: IoQueue.Sys<S, U>, down: bool, host: S,
                                 chassis: S, env: seq<seq<IoQueue.Handler<S, U>>>) returns (evaluated: nat)
    requires IoQueue.Awake(sys) && host != chassis
    requires Untouched(net, sys.engine, if down then host else chassis)
    requires sys.queue != [] && sys.queue[0] == Opening(down, host, chassis)
    requires forall h | h in sys.queue[1..] :: !IoQueue.Touches(h, if down then host else chassis)
    requires var first := IoQueue.Step(net, fan, sys);
             var n := IoQueue.AheadOfHop(sys, if down then host else chassis, !down);
             n < |env| && |env| == n + |IoQueue.Run(net, fan, first, env[..n]).queue|
    ensures var lead, follow := if down then host else chassis, if down then chassis else host;
            var first := IoQueue.Step(net, fan, sys);
            var last := IoQueue.Run(net, fan, first, env);
            && last.queue != []
            && At(IoQueue.Step(net, fan, last).engine.levels, follow) == FromBool(!down)
            && (if lead in first.engine.pending
                then
                  && evaluated < IoQueue.AheadOfHop(sys, lead, !down)
                  && var e := IoQueue.Run(net, fan, first, env[..evaluated]);
                  && e.queue != [] && e.queue[0] == IoQueue.Handler<S, U>.Eval
                  && At(e.engine.levels, lead) == FromBool(!down)
                  && (Untouched(net, sys.engine, follow) &&
                      (forall h | h in sys.queue[1..] :: !IoQueue.Touches(h, follow)) ==>
                        At(e.engine.levels, follow) == At(sys.engine.levels, follow))
                else At(sys.engine.levels, lead) == FromBool(!down) && lead !in sys.engine.pending)
  {
    var lead, follow := if down then host else chassis, if down then chassis else host;
    var act := Io(if down then AcpiModel.ChassisOff else AcpiModel.HostOn, host, chassis);
    evaluated := IoQueue.TwoHopsSpanEvaluation(net, fan, sys, lead, !down, act, env);
    var first, n := IoQueue.Step(net, fan, sys), IoQueue.AheadOfHop(sys, lead, !down);
    IoQueue.RequestStep(net, fan, sys, lead, !down, act);
    ActDrives(net, fan, IoQueue.Run(net, fan, first, env), follow, !down);
    if lead in first.engine.pending && Untouched(net, sys.engine, follow)
       && forall h | h in sys.queue[1..] :: !IoQueue.Touches(h, follow) {
      forall k | 0 <= k < n
        ensures !IoQueue.Touches(first.queue[k], follow)
      {
        assert k < |sys.queue| - 1 ==> first.queue[k] == sys.queue[1..][k];
      }
      IoQueue.RunIsFifo(net, fan, first, env, evaluated, follow);
    }
  }

  lemma ActDrives<S, U>(net: Net<U, S>, fan: Fan<S, U>, sys: IoQueue.Sys<S, U>, s: S, value: bool)
    requires sys.queue != [] && sys.queue[0] == IoQueue.Do([IoQueue.Set(s, value)])
    ensures At(IoQueue.Step(net, fan, sys).engine.levels, s) == FromBool(value)
  {
    var cmds: seq<IoQueue.Cmd<S, U>> := [IoQueue.Set(s, value)];
    assert cmds[1..] == [];
    var popped := sys.(queue := sys.queue[1..]);
    assert IoQueue.RunCmds(popped, cmds) == IoQueue.RunCmds(IoQueue.RunCmd(popped, cmds[0]), cmds[1..]);
  }
}
