/** The voltage regulator as an object updated in place, each method tied to the function of
    module RegulatorModel that the theorems are about. */
module Regulator {
  import opened Netlist
  import opened Options
  import opened RegulatorModel

  /** The object, its methods tied to the functions above. */
  class VoltageRegulator {
    var stateShadow: State
    var statusShadow: Status
    var newLevel: bool
    /** Callbacks posted to the output queue that will call `Apply`. */
    var ioOutput: nat
    var pendingLevelChange: bool
    var pendingNewLevel: State
    var retries: nat
    /** The wait the state check timer was armed with, while it runs. */
    var timerStateCheck: Option<nat>
    var io: seq<Task>
    var enabled: Level
    var powergood: Level
    var fault: Level
    var callbacks: nat
    const stateChangeTimeoutUsec: nat
    const errorCallback: bool
    const noErrorCallback: bool

    ghost function Value(): Reg
      reads this
    {
      Reg(stateShadow, statusShadow, newLevel, ioOutput, pendingLevelChange, pendingNewLevel, retries, timerStateCheck,
          io, enabled, powergood, fault, callbacks)
    }

    ghost function Cfg(): Config {
      Config(stateChangeTimeoutUsec, errorCallback && !noErrorCallback)
    }

    const DEFAULT_TIMEOUT := 1000000

    constructor (timeout: nat, callback: bool, allowFaulting: bool, state: State, status1: Status, status2: Status,
                 status3: Status)
      ensures Cfg() == Config(if timeout == 0 then 1000000 else timeout, callback && !allowFaulting)
      ensures Value() == RegulatorModel.ApplyStatus(
                           Booting(state, if status1 != OFF && status2 == ON then ENABLED else DISABLED), status3)
    {
      errorCallback, noErrorCallback := callback, allowFaulting;
      stateChangeTimeoutUsec := if timeout == 0 then DEFAULT_TIMEOUT else timeout;
      statusShadow, newLevel, ioOutput, pendingNewLevel, retries, timerStateCheck :=
          NOCHANGE, false, 0, DISABLED, 0, None;
      io, enabled, powergood, fault, callbacks := [], -1, -1, -1, 0;
      stateShadow := state;
      pendingLevelChange := true;
      if status1 == OFF {
        pendingNewLevel := DISABLED;
      } else if status2 == ON {
        pendingNewLevel := ENABLED;
      }
      new;
      ApplyStatus(status3);
    }

    method Apply(read1: State, read2: State)
      modifies this
      ensures Value() == RegulatorModel.Apply(Cfg(), old(Value()), read1, read2)
    {
      var s := if newLevel then ENABLED else DISABLED;
      if s != stateShadow {
        timerStateCheck := None;
        stateShadow := read1;
        if s != stateShadow {
          stateShadow := read2;
        }
        pendingLevelChange := true;
        pendingNewLevel := s;
        retries := 10;
        timerStateCheck := Some(stateChangeTimeoutUsec / retries);
        io := io + [ShowEnabled(stateShadow == ENABLED)];
      }
    }

    /** Any level but 0, an unknown one included, asks for power; the change is applied later by
        the output thread. */
    method Update(level: Level)
      modifies this`newLevel, this`ioOutput
      ensures Value() == Step(Cfg(), old(Value()), Op.Update(level))
      ensures newLevel == (level != 0) && ioOutput == old(ioOutput) + 1
    {
      newLevel := level != 0;
      ioOutput := ioOutput + 1;
    }

    /** The output thread takes a posted callback, which applies the newest level. */
    method RunOutput(read1: State, read2: State)
      requires ioOutput > 0
      modifies this
      ensures Value() == Step(Cfg(), old(Value()), Change(read1, read2))
    {
      ioOutput := ioOutput - 1;
      Apply(read1, read2);
    }

    method ConfirmStatusAfterTimeout(read: Status)
      modifies this
      ensures Value() == Confirm(Cfg(), old(Value()), read)
    {
      timerStateCheck := None;
      ApplyStatus(read);
      ghost var c := RegulatorModel.ApplyStatus(old(Value()).(timer := None), read);
      assert Value() == c;
      var failure := ChangeFailed();
      if failure {
        if retries > 0 {
          timerStateCheck := Some(stateChangeTimeoutUsec / retries);
          retries := retries - 1;
          assert Value() == Confirm(Cfg(), old(Value()), read);
          return;
        }
        pendingLevelChange := false;
        assert Value() == c.(pending := false);
        ApplyStatus(ERROR);
        assert Value() == RegulatorModel.ApplyStatus(c.(pending := false), ERROR);
      }
    }

    method ChangeFailed() returns (failure: bool)
      ensures failure == Failing(Value())
    {
      failure := false;
      if pendingNewLevel == DISABLED && stateShadow == ENABLED {
        failure := true;
      } else if pendingNewLevel == ENABLED && stateShadow == DISABLED {
        failure := true;
      }
      if pendingNewLevel == ENABLED && statusShadow != ON {
        failure := true;
      } else if pendingNewLevel == DISABLED && statusShadow != OFF {
        failure := true;
      }
    }

    method ApplyStatus(read: Status)
      modifies this
      ensures Value() == RegulatorModel.ApplyStatus(old(Value()), read)
    {
      var status := read;
      if status == UNDEFINED {
        if stateShadow == ENABLED {
          status := ON;
        } else {
          status := OFF;
        }
      }
      if status == NOCHANGE {
        return;
      }
      if statusShadow == status {
        return;
      }
      if pendingLevelChange {
        if pendingNewLevel == ENABLED && status == ON {
          pendingLevelChange := false;
        } else if pendingNewLevel == DISABLED && status == OFF {
          pendingLevelChange := false;
        } else {
          if status == ERROR {
            return;
          }
        }
      } else {
        if status == ERROR && stateShadow == DISABLED {
          return;
        }
      }
      statusShadow := status;
      io := io + [Publish(status)];
    }

    method CheckStatus(later: bool, read: Status)
      modifies this
      ensures Value() == RegulatorModel.CheckStatus(old(Value()), later, read)
    {
      if later {
        io := io + [CheckLater];
        return;
      }
      if statusShadow == read {
        io := io + [ReadAgain];
      } else {
        ApplyStatus(read);
      }
    }

    method SetEnabledFrom(events: Events)
      modifies this`enabled
      ensures Value() == ShowEventBits(old(Value()), events)
    {
      if events.enable && !events.disable {
        enabled := 1;
      } else if events.disable && !events.enable {
        enabled := 0;
      }
    }

    /** The netlink callback. */
    method OnNetlinkEvent(events: Events)
      modifies this
      ensures Value() == OnNetlink(old(Value()), events)
    {
      if events.failure {
        ApplyStatus(ERROR);
      }
      if events.enable || events.disable {
        io := io + [HandleEvents(events)];
      }
    }

    method ShowStatus(status: Status)
      modifies this
      ensures Value() == RunTask(Cfg(), old(Value()), Publish(status), status)
    {
      if status == OFF {
        enabled, powergood, fault := 0, 0, 0;
      } else if status == ERROR {
        powergood, fault := 0, 1;
        if errorCallback && !noErrorCallback {
          callbacks := callbacks + 1;
        }
      } else if status == ON {
        enabled, powergood, fault := 1, 1, 0;
      }
    }

    method OnPostedEvents(events: Events, read: Status)
      modifies this
      ensures Value() == RunTask(Cfg(), old(Value()), HandleEvents(events), read)
    {
      if events.failure {
        CheckStatus(true, read);
        io := io + [ShowEvents(events)];
      } else {
        CheckStatus(false, read);
        SetEnabledFrom(events);
      }
    }

    /** Takes the oldest posted callback from the io queue and runs it. */
    method RunPosted(read: Status)
      requires io != []
      modifies this
      ensures Value() == RunTask(Cfg(), old(Value()).(io := old(io)[1..]), old(io)[0], read)
    {
      var t := io[0];
      io := io[1..];
      assert Value() == old(Value()).(io := old(io)[1..]);
      match t
      case ShowEnabled(on) =>
        enabled := FromBool(on);
      case Publish(status) =>
        ShowStatus(status);
      case HandleEvents(events) =>
        OnPostedEvents(events, read);
      case CheckLater =>
        CheckStatus(false, read);
      case ReadAgain =>
        ApplyStatus(read);
      case ShowEvents(events) =>
        SetEnabledFrom(events);
    }
  }
}
