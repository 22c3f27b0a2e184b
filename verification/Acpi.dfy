/** The ACPI request sequencer as an object updated in place, each method tied to the function
    of module AcpiModel that the theorems are about. */
module Acpi {
  import opened Netlist
  import opened AcpiModel

  datatype Reply = Accepted(resp: string) | Unrecognized

  /** `order` is the iteration order of the table of state signals. */
  class ACPIStates {
    const order: seq<ACPILevel>
    const acpiG3OnHostShutdown: bool
    var outputs: map<ACPILevel, Level>
    var signalHostState: Level
    var signalChassisState: Level
    var lastLevel: ACPILevel
    var powerCycleTimer: bool
    var idleTimer: bool
    var io: seq<Handler>
    ghost var seen: seq<Requested>

    ghost predicate Valid()
      reads this
    {
      Lists(order, outputs)
    }

    ghost function Value(): AcpiModel.Acpi
      reads this
    {
      AcpiModel.Acpi(signalHostState, signalChassisState, outputs, lastLevel,
                     powerCycleTimer, idleTimer, acpiG3OnHostShutdown, io, seen)
    }

    constructor (autoG3: bool, host: Level, chassis: Level, levels: map<ACPILevel, Level>)
      requires levels.Keys == {ACPI_G3, ACPI_S5, ACPI_S3, ACPI_S0}
      ensures Valid()
      ensures Value() == AcpiModel.Acpi(host, chassis, levels, ACPI_G3, false, false, autoG3, [], [])
    {
      order := [ACPI_G3, ACPI_S5, ACPI_S3, ACPI_S0];
      acpiG3OnHostShutdown, outputs := autoG3, levels;
      signalHostState, signalChassisState, lastLevel := host, chassis, ACPI_G3;
      powerCycleTimer, idleTimer, io, seen := false, false, [], [];
    }

    /** Any unknown state signal gives G3, exactly one high signal its state, and anything else
        is invalid, whatever the order in which the table is walked. */
    method GetCurrent() returns (level: ACPILevel)
      requires Valid()
      ensures level == Current(outputs)
      ensures (exists l | l in outputs :: outputs[l] < 0) ==> level == ACPI_G3
      ensures forall l | l in outputs && outputs[l] == 1 && (forall m | m in outputs && m != l :: outputs[m] == 0) ::
                level == l
      ensures (forall l | l in outputs :: outputs[l] == 0) ==> level == ACPI_INVALID
      ensures forall l, m | l in outputs && m in outputs && l != m && outputs[l] == 1 && outputs[m] == 1
                && (forall k | k in outputs :: outputs[k] >= 0) :: level == ACPI_INVALID
    {
      CurrentIs(outputs);
      var unknown, levels := CountHigh();
      if unknown {
        return ACPI_G3;
      }
      if levels > 1 {
        return ACPI_INVALID;
      }
      level := FirstHigh(levels);
    }

    /** The first walk stops at an unknown signal and counts the high ones before it. */
    method CountHigh() returns (unknown: bool, levels: nat)
      requires Valid()
      ensures unknown <==> exists l | l in outputs :: outputs[l] < 0
      ensures !unknown ==> levels == |Highs(outputs)|
    {
      levels := 0;
      for i := 0 to |order|
        invariant forall k | 0 <= k < i :: outputs[order[k]] >= 0
        invariant levels == |HighsAmong(order[..i], outputs)|
      {
        var it := order[i];
        NextHigh(order, i, outputs);
        if outputs[it] < 0 {
          return true, levels;
        }
        if outputs[it] != 0 {
          levels := levels + 1;
        }
      }
      AllHighs(order, outputs);
      return false, levels;
    }

    /** The second one stops at the first high signal. */
    method FirstHigh(ghost levels: nat) returns (level: ACPILevel)
      requires Valid() && (forall l | l in outputs :: outputs[l] >= 0) && levels == |Highs(outputs)| <= 1
      ensures Highs(outputs) == if levels == 1 then {level} else {}
      ensures levels == 0 ==> level == ACPI_INVALID
    {
      for i := 0 to |order|
        invariant forall k | 0 <= k < i :: outputs[order[k]] == 0
      {
        if outputs[order[i]] != 0 {
          SingletonIs(Highs(outputs), order[i]);
          return order[i];
        }
      }
      NoHighs(order, outputs);
      return ACPI_INVALID;
    }

    /** What a receiver of a state signal does, less the properties shown on D-Bus. */
    method Update()
      requires Valid()
      modifies this`lastLevel, this`powerCycleTimer, this`idleTimer, this`io
      ensures Valid() && Value() == Observe(old(Value()))
      ensures lastLevel == Current(outputs)
      ensures lastLevel == ACPI_G3 ==>
                !idleTimer && !powerCycleTimer && io == old(io) + if old(powerCycleTimer) then [CycleDone] else []
      ensures lastLevel != ACPI_G3 ==> powerCycleTimer == old(powerCycleTimer) && io == old(io)
      ensures lastLevel == ACPI_S0 || lastLevel == ACPI_S3 ==> !idleTimer
      ensures lastLevel == ACPI_INVALID ==> idleTimer == old(idleTimer)
      ensures lastLevel == ACPI_S5 ==>
                idleTimer == (old(idleTimer) || (acpiG3OnHostShutdown && old(lastLevel) !in {ACPI_S5, ACPI_G3}))
    {
      var newLevel := GetCurrent();
      match newLevel {
        case ACPI_S0 => idleTimer := false;
        case ACPI_S3 => idleTimer := false;
        case ACPI_S5 =>
          if acpiG3OnHostShutdown && lastLevel != ACPI_G3 && lastLevel != ACPI_S5 {
            idleTimer := true;
          }
        case ACPI_G3 =>
          idleTimer := false;
          CancelPowerCycle();
        case ACPI_INVALID =>
      }
      lastLevel := newLevel;
    }

    /** A cancelled wait runs its handler too. */
    method CancelPowerCycle()
      modifies this`powerCycleTimer, this`io
      ensures Value() == old(Value()).(cycle := false,
                                       queue := if old(powerCycleTimer) then old(io) + [CycleDone] else old(io))
    {
      if powerCycleTimer {
        io := io + [CycleDone];
      }
      powerCycleTimer := false;
    }

    method RequestHost(powerOn: bool)
      requires Valid()
      modifies this
      ensures Valid() && Value() == AcpiModel.RequestHost(old(Value()), powerOn)
    {
      signalHostState := FromBool(powerOn);
      seen := seen + [Requested(signalHostState, signalChassisState)];
      Update();
    }

    method RequestChassis(powerOn: bool)
      requires Valid()
      modifies this
      ensures Valid() && Value() == AcpiModel.RequestChassis(old(Value()), powerOn)
    {
      signalChassisState := FromBool(powerOn);
      seen := seen + [Requested(signalHostState, signalChassisState)];
      Update();
    }

    method RequestedHostTransition(requested: string) returns (reply: Reply)
      requires Valid()
      modifies this
      ensures Valid() && Value() == HostTransition(old(Value()), requested)
      ensures requested == "xyz.openbmc_project.State.Host.Transition.Off" ==>
                reply == Accepted(requested) && signalHostState == 0 && signalChassisState == old(signalChassisState)
      ensures requested == "xyz.openbmc_project.State.Host.Transition.On" ==>
                && reply == Accepted(requested) && signalHostState == old(signalHostState) && signalChassisState == 1
                && io != [] && io[|io| - 1] == Hop(HostOn)
      ensures requested !in {"xyz.openbmc_project.State.Host.Transition.Off",
                             "xyz.openbmc_project.State.Host.Transition.On"} ==>
                reply == Unrecognized && Value() == old(Value())
    {
      HostRequestDoes(Value(), requested);
      if requested == HOST_OFF {
        RequestHost(false);
      } else if requested == HOST_ON {
        RequestChassis(true);
        io := io + [Hop(HostOn)];
      } else {
        return Unrecognized;
      }
      return Accepted(requested);
    }

    method RequestedPowerTransition(requested: string) returns (reply: Reply)
      requires Valid()
      modifies this
      ensures Valid() && Value() == PowerTransition(old(Value()), requested)
      ensures requested == "xyz.openbmc_project.State.Chassis.Transition.Off" ==>
                && reply == Accepted(requested) && signalHostState == 0 && signalChassisState == old(signalChassisState)
                && io != [] && io[|io| - 1] == Hop(ChassisOff)
      ensures requested == "xyz.openbmc_project.State.Chassis.Transition.On" ==>
                reply == Accepted(requested) && signalHostState == old(signalHostState) && signalChassisState == 1
      ensures requested == "xyz.openbmc_project.State.Chassis.Transition.PowerCycle" ==>
                && reply == Accepted(requested)
                && if Current(old(outputs)) == ACPI_G3
                   then signalHostState == old(signalHostState) && signalChassisState == 1
                   else && signalHostState == 0 && signalChassisState == old(signalChassisState)
                        && powerCycleTimer && Hop(ChassisOff) in io
      ensures requested !in {"xyz.openbmc_project.State.Chassis.Transition.Off",
                             "xyz.openbmc_project.State.Chassis.Transition.On",
                             "xyz.openbmc_project.State.Chassis.Transition.PowerCycle"} ==>
                reply == Unrecognized && Value() == old(Value())
    {
      ChassisRequestDoes(Value(), requested);
      if requested == CHASSIS_OFF {
        RequestHost(false);
        io := io + [Hop(ChassisOff)];
      } else if requested == CHASSIS_ON {
        RequestChassis(true);
      } else if requested == POWER_CYCLE {
        var current := GetCurrent();
        if current == ACPI_G3 {
          RequestChassis(true);
        } else {
          RequestHost(false);
          io := io + [Hop(ChassisOff)];
          CancelPowerCycle();
          powerCycleTimer := true;
        }
      } else {
        return Unrecognized;
      }
      return Accepted(requested);
    }

    /** The power-cycle wait is over: its handler joins the queue. */
    method PowerCycleExpires()
      requires Valid() && powerCycleTimer
      modifies this`powerCycleTimer, this`io
      ensures Valid() && Value() == Step(old(Value()), CycleExpires)
      ensures !powerCycleTimer && io == old(io) + [CycleDone]
    {
      powerCycleTimer := false;
      io := io + [CycleDone];
    }

    /** Likewise for the idle wait. */
    method IdleExpires()
      requires Valid() && idleTimer
      modifies this`idleTimer, this`io
      ensures Valid() && Value() == Step(old(Value()), Op.IdleExpires)
      ensures !idleTimer && io == old(io) + [IdleDone]
    {
      idleTimer := false;
      io := io + [IdleDone];
    }

    /** Takes the oldest callback from the io queue and runs it. */
    method RunPosted()
      requires Valid() && io != []
      modifies this
      ensures Valid() && Value() == Step(old(Value()), RunNext)
    {
      var h := io[0];
      io := io[1..];
      match h
      case HostOn => RequestHost(true);
      case ChassisOff => RequestChassis(false);
      case Hop(next) => io := io + [next];
      case CycleDone =>
        var current := GetCurrent();
        if current == ACPI_G3 {
          RequestChassis(true);
          RequestHost(true);
        }
      case IdleDone =>
        var current := GetCurrent();
        if current == ACPI_S5 {
          var _ := RequestedPowerTransition(CHASSIS_OFF);
        }
    }
  }

  ghost function HighsAmong(ls: seq<ACPILevel>, outputs: map<ACPILevel, Level>): set<ACPILevel> {
    set l | l in ls && l in outputs && outputs[l] == 1
  }

  /** Each output once. */
  ghost predicate Lists(order: seq<ACPILevel>, outputs: map<ACPILevel, Level>) {
    && (forall i, j | 0 <= i < j < |order| :: order[i] != order[j])
    && (forall l | l in outputs :: l in order)
    && (forall i | 0 <= i < |order| :: order[i] in outputs)
  }

  lemma OneMore(ls: seq<ACPILevel>, l: ACPILevel, outputs: map<ACPILevel, Level>)
    requires l !in ls && l in outputs
    ensures HighsAmong(ls + [l], outputs) == HighsAmong(ls, outputs) + if outputs[l] == 1 then {l} else {}
    ensures l !in HighsAmong(ls, outputs)
  {
  }

  lemma NextInOrder(order: seq<ACPILevel>, i: nat, outputs: map<ACPILevel, Level>)
    requires Lists(order, outputs) && i < |order|
    ensures order[..i + 1] == order[..i] + [order[i]] && order[i] !in order[..i] && order[i] in outputs
  {
  }

  lemma NextHigh(order: seq<ACPILevel>, i: nat, outputs: map<ACPILevel, Level>)
    requires Lists(order, outputs) && i < |order|
    ensures |HighsAmong(order[..i + 1], outputs)| ==
            |HighsAmong(order[..i], outputs)| + if outputs[order[i]] == 1 then 1 else 0
  {
    NextInOrder(order, i, outputs);
    OneMore(order[..i], order[i], outputs);
  }

  lemma AllHighs(order: seq<ACPILevel>, outputs: map<ACPILevel, Level>)
    requires Lists(order, outputs) && forall k | 0 <= k < |order| :: outputs[order[k]] >= 0
    ensures HighsAmong(order[..|order|], outputs) == Highs(outputs)
    ensures forall l | l in outputs :: outputs[l] >= 0
  {
  }

  lemma NoHighs(order: seq<ACPILevel>, outputs: map<ACPILevel, Level>)
    requires Lists(order, outputs) && forall k | 0 <= k < |order| :: outputs[order[k]] == 0
    ensures Highs(outputs) == {}
  {
  }

  lemma SingletonIs<T>(s: set<T>, x: T)
    requires x in s && |s| <= 1
    ensures s == {x}
  {
    assert |s - {x}| == |s| - 1;
  }
}
