/** The voltage regulator state machine: shadows of the kernel's state and status, a pending
    change with its retries, and the signal updates it posts to the io queue. What sysfs
    returns is a parameter of every step that reads it. */
module RegulatorModel {
  import opened Netlist
  import opened Options

  datatype State = ENABLED | DISABLED | UNKNOWN
  datatype Status = OFF | ON | ERROR | FAST | NORMAL | IDLE | STANDBY | UNDEFINED | NOCHANGE | INVALID

  /** The bits of a netlink event that matter here. */
  datatype Events = Events(failure: bool, enable: bool, disable: bool)

  /** Callbacks this regulator posts to the io queue. */
  datatype Task =
    | ShowEnabled(on: bool)      // from Apply
    | Publish(status: Status)    // from ApplyStatus
    | HandleEvents(events: Events)
    | CheckLater                 // CheckStatus(true)
    | ReadAgain                  // from CheckStatus(false) on an unchanged status
    | ShowEvents(events: Events)

  datatype Config = Config(timeout: nat, callback: bool)

  /** `applies` counts the callbacks of `Update` that wait in the output queue. */
  datatype Reg = Reg(state: State, status: Status, newLevel: bool, applies: nat, pending: bool, target: State,
                     retries: nat, timer: Option<nat>, io: seq<Task>, enabled: Level, powergood: Level, fault: Level,
                     callbacks: nat)

  const RETRIES := 10

  function Goal(target: State): Status {
    if target == ENABLED then ON else OFF
  }

  /** The wait before the next confirmation; an integer division as in the source. */
  function Wait(timeout: nat, retries: nat): nat
    requires retries > 0
  {
    timeout / retries
  }

  function Normalized(r: Reg, status: Status): Status {
    if status == UNDEFINED then (if r.state == ENABLED then ON else OFF) else status
  }

  /** Whether a status reaches the shadow: an error does not while a change is pending or the
      regulator is off. */
  predicate Accepted(r: Reg, s: Status) {
    && s != NOCHANGE && s != r.status
    && !(s == ERROR && (r.pending || r.state == DISABLED))
  }

  function ApplyStatus(r: Reg, status: Status): Reg {
    var s := Normalized(r, status);
    if !Accepted(r, s) then r
    else
      r.(status := s, io := r.io + [Publish(s)],
         pending := r.pending && !(r.target != UNKNOWN && s == Goal(r.target)))
  }

  function Apply(cfg: Config, r: Reg, read1: State, read2: State): Reg {
    var s := if r.newLevel then ENABLED else DISABLED;
    if s == r.state then r
    else
      var state := if read1 != s then read2 else read1;
      r.(state := state, pending := true, target := s, retries := RETRIES,
         timer := Some(Wait(cfg.timeout, RETRIES)), io := r.io + [ShowEnabled(state == ENABLED)])
  }

  /** The control took the opposite state of what was asked for. */
  predicate Opposed(r: Reg) {
    (r.target == DISABLED && r.state == ENABLED) || (r.target == ENABLED && r.state == DISABLED)
  }

  predicate Failing(r: Reg) {
    Opposed(r) || (r.target != UNKNOWN && r.status != Goal(r.target))
  }

  function Confirm(cfg: Config, r: Reg, read: Status): Reg {
    var c := ApplyStatus(r.(timer := None), read);
    if !Failing(c) then c
    else if c.retries > 0 then c.(timer := Some(Wait(cfg.timeout, c.retries)), retries := c.retries - 1)
    else ApplyStatus(c.(pending := false), ERROR)
  }

  function CheckStatus(r: Reg, later: bool, read: Status): Reg {
    if later then r.(io := r.io + [CheckLater])
    else if r.status == read then r.(io := r.io + [ReadAgain])
    else ApplyStatus(r, read)
  }

  function ShowEventBits(r: Reg, ev: Events): Reg {
    if ev.enable && !ev.disable then r.(enabled := 1)
    else if ev.disable && !ev.enable then r.(enabled := 0)
    else r
  }

  function OnNetlink(r: Reg, ev: Events): Reg {
    var a := if ev.failure then ApplyStatus(r, ERROR) else r;
    if ev.enable || ev.disable then a.(io := a.io + [HandleEvents(ev)]) else a
  }

  /** Executes one posted callback; `read` is what the status file holds at that time. */
  function RunTask(cfg: Config, r: Reg, t: Task, read: Status): Reg {
    match t
    case ShowEnabled(on) => r.(enabled := FromBool(on))
    case Publish(OFF) => r.(enabled := 0, powergood := 0, fault := 0)
    case Publish(ERROR) =>
      r.(powergood := 0, fault := 1, callbacks := if cfg.callback then r.callbacks + 1 else r.callbacks)
    case Publish(ON) => r.(enabled := 1, powergood := 1, fault := 0)
    case Publish(_) => r
    case HandleEvents(ev) =>
      if ev.failure
      then var c := CheckStatus(r, true, read); c.(io := c.io + [ShowEvents(ev)])
      else ShowEventBits(CheckStatus(r, false, read), ev)
    case CheckLater => CheckStatus(r, false, read)
    case ReadAgain => ApplyStatus(r, read)
    case ShowEvents(ev) => ShowEventBits(r, ev)
  }

  /** The fields when the constructor first applies a status: a change is marked pending to
      silence the warning. */
  function Booting(state: State, target: State): Reg {
    Reg(state, NOCHANGE, false, 0, true, target, 0, None, [], -1, -1, -1, 0)
  }

  // ---------- Runs ----------

  /** What can happen to a regulator, in any order. `Change` is a posted `Apply` and `Reported`
      every direct call of `ApplyStatus`: a poll or an injected error. */
  datatype Op =
    | Update(level: Level)
    | Change(read1: State, read2: State)
    | Timeout(read: Status)
    | Reported(status: Status)
    | Netlink(events: Events)
    | Io(read: Status)

  predicate Enabled(r: Reg, op: Op) {
    (op.Timeout? ==> r.timer.Some?) && (op.Io? ==> r.io != []) && (op.Change? ==> r.applies > 0)
  }

  function Step(cfg: Config, r: Reg, op: Op): Reg
    requires Enabled(r, op)
  {
    match op
    case Update(level) => r.(newLevel := level != 0, applies := r.applies + 1)
    case Change(read1, read2) => Apply(cfg, r.(applies := r.applies - 1), read1, read2)
    case Timeout(read) => Confirm(cfg, r, read)
    case Reported(status) => ApplyStatus(r, status)
    case Netlink(events) => OnNetlink(r, events)
    case Io(read) => RunTask(cfg, r.(io := r.io[1..]), r.io[0], read)
  }

  ghost predicate Possible(cfg: Config, r: Reg, ops: seq<Op>)
    decreases |ops|
  {
    ops == [] || (Enabled(r, ops[0]) && Possible(cfg, Step(cfg, r, ops[0]), ops[1..]))
  }

  ghost function Run(cfg: Config, r: Reg, ops: seq<Op>): Reg
    requires Possible(cfg, r, ops)
    decreases |ops|
  {
    if ops == [] then r else Run(cfg, Step(cfg, r, ops[0]), ops[1..])
  }

  // ---------- What each step stores and shows ----------

  /** A poll or an injected error, for every status and state. An error reaches the shadow if
      and only if no change is pending and the regulator is not off, any other status always;
      an undefined one stands for on where the regulator is enabled and for off elsewhere. What
      is news is posted, and the status asked for ends a pending change. */
  lemma ReportedDoes(cfg: Config, r: Reg, s: Status)
    ensures var n := Step(cfg, r, Reported(s));
            && n == r.(status := n.status, io := n.io, pending := n.pending)
            && (s == ERROR ==> n.status == if !r.pending && r.state != DISABLED then ERROR else r.status)
            && (s == UNDEFINED ==> n.status == if r.state == ENABLED then ON else OFF)
            && (s == NOCHANGE ==> n.status == r.status)
            && (s in {OFF, ON, FAST, NORMAL, IDLE, STANDBY, INVALID} ==> n.status == s)
            && n.io == r.io + (if n.status == r.status then [] else [Publish(n.status)])
            && (n.pending <==>
                && r.pending
                && !(n.status != r.status && r.target == ENABLED && n.status == ON)
                && !(n.status != r.status && r.target == DISABLED && n.status == OFF))
  {
  }

  /** An event is an error report first if it tells of a failure, and is then handled later if
      it tells of a change of state. */
  lemma NetlinkDoes(cfg: Config, r: Reg, ev: Events)
    ensures var a := if ev.failure then Step(cfg, r, Reported(ERROR)) else r;
            var n := Step(cfg, r, Netlink(ev));
            n == a.(io := if ev.enable || ev.disable then a.io + [HandleEvents(ev)] else a.io)
  {
  }

  /** A status that is read later is reported if it has changed, and read once more if not. */
  lemma StatusReadLater(cfg: Config, r: Reg, read: Status)
    requires r.io != []
    ensures var popped, n := r.(io := r.io[1..]), Step(cfg, r, Io(read));
            && (r.io[0] == CheckLater ==>
                  n == if read == r.status then popped.(io := popped.io + [ReadAgain])
                       else Step(cfg, popped, Reported(read)))
            && (r.io[0] == ReadAgain ==> n == Step(cfg, popped, Reported(read)))
  {
  }

  /** A posted event reads the status later if it tells of a failure, and shows its bits after
      that; otherwise it reads it at once and shows its bits. */
  lemma EventHandled(cfg: Config, r: Reg, read: Status, ev: Events)
    requires r.io != [] && r.io[0] == HandleEvents(ev)
    ensures var popped, n := r.(io := r.io[1..]), Step(cfg, r, Io(read));
            if ev.failure then n == popped.(io := popped.io + [CheckLater, ShowEvents(ev)])
            else
              && n.enabled == (if ev.enable == ev.disable then r.enabled else if ev.enable then 1 else 0)
              && n == (if read == r.status then popped.(io := popped.io + [ReadAgain])
                       else Step(cfg, popped, Reported(read))).(enabled := n.enabled)
  {
    var popped := r.(io := r.io[1..]);
    StatusIsRead(popped, read);
    ReportedDoes(cfg, popped, read);
  }

  lemma StatusIsRead(r: Reg, read: Status)
    ensures CheckStatus(r, true, read) == r.(io := r.io + [CheckLater])
    ensures CheckStatus(r, false, read) ==
            if read == r.status then r.(io := r.io + [ReadAgain]) else ApplyStatus(r, read)
  {
  }

  /** What the callbacks that only show something leave on the signals. */
  lemma CallbackShows(cfg: Config, r: Reg, read: Status)
    requires r.io != [] && (r.io[0].Publish? || r.io[0].ShowEnabled? || r.io[0].ShowEvents?)
    ensures var n, t := Step(cfg, r, Io(read)), r.io[0];
            && n == r.(io := r.io[1..], enabled := n.enabled, powergood := n.powergood, fault := n.fault,
                       callbacks := n.callbacks)
            && (t == Publish(ON) ==> n.enabled == 1 && n.powergood == 1 && n.fault == 0)
            && (t == Publish(OFF) ==> n.enabled == 0 && n.powergood == 0 && n.fault == 0)
            && (t == Publish(ERROR) ==> n.enabled == r.enabled && n.powergood == 0 && n.fault == 1)
            && n.callbacks == r.callbacks + (if t == Publish(ERROR) && cfg.callback then 1 else 0)
            && (t.ShowEnabled? ==> n.enabled == if t.on then 1 else 0)
            && (t.ShowEvents? ==>
                  n.enabled == if t.events.enable == t.events.disable then r.enabled
                               else if t.events.enable then 1 else 0)
            && (!t.Publish? || t.status !in {ON, OFF, ERROR} ==> n.powergood == r.powergood && n.fault == r.fault)
            && (t.Publish? && t.status !in {ON, OFF} ==> n.enabled == r.enabled)
  {
  }

  /** Nothing happens when the level asked for is the state already. */
  lemma ApplyInForce(cfg: Config, r: Reg, read1: State, read2: State)
    requires r.applies > 0 && r.state == if r.newLevel then ENABLED else DISABLED
    ensures Step(cfg, r, Change(read1, read2)) == r.(applies := r.applies - 1)
  {
  }

  /** A confirmation reports the status it reads. The change is done if state and status are
      then as asked for; otherwise the next one is armed, or the change given up. */
  lemma ConfirmDoes(cfg: Config, r: Reg, read: Status)
    requires r.timer.Some? && r.target != UNKNOWN
    ensures var n, c := Step(cfg, r, Timeout(read)), Step(cfg, r.(timer := None), Reported(read));
            var done := || (r.target == ENABLED && r.state != DISABLED && c.status == ON)
                        || (r.target == DISABLED && r.state != ENABLED && c.status == OFF);
            n == if done then c
                 else if r.retries > 0 then c.(timer := Some(cfg.timeout / r.retries), retries := r.retries - 1)
                 else Step(cfg, c.(pending := false), Reported(ERROR))
  {
    var c := Step(cfg, r.(timer := None), Reported(read));
    StatusIsOne(r.(timer := None), read);
    assert Failing(c) <==> !(|| (c.target == ENABLED && c.state != DISABLED && c.status == ON)
                             || (c.target == DISABLED && c.state != ENABLED && c.status == OFF));
  }

  /** As booted from a state and a status: nothing shown yet, and no error stored. */
  lemma BootDoes(state: State, target: State, status: Status)
    ensures var n := ApplyStatus(Booting(state, target), status);
            && n.state == state && n.target == target && !n.newLevel && n.applies == 0
            && n.retries == 0 && n.timer.None? && n.callbacks == 0
            && n.enabled == -1 && n.powergood == -1 && n.fault == -1
            && (status == ERROR || status == NOCHANGE ==> n.status == NOCHANGE)
            && (status == UNDEFINED ==> n.status == if state == ENABLED then ON else OFF)
            && (status !in {ERROR, NOCHANGE, UNDEFINED} ==> n.status == status)
            && n.io == (if n.status == NOCHANGE then [] else [Publish(n.status)])
            && (n.pending <==> !(target == ENABLED && n.status == ON) && !(target == DISABLED && n.status == OFF))
  {
  }

  // ---------- An error that counts is shown ----------

  ghost function Ios(ops: seq<Op>): nat {
    if ops == [] then 0 else (if ops[0].Io? then 1 else 0) + Ios(ops[1..])
  }

  lemma ConfirmAppends(cfg: Config, r: Reg, read: Status)
    ensures r.io <= Confirm(cfg, r, read).io
  {
    var c := ApplyStatus(r.(timer := None), read);
    ReportAppends(r.(timer := None), read);
    ReportAppends(c.(pending := false), ERROR);
  }

  lemma TaskAppends(cfg: Config, r: Reg, t: Task, read: Status)
    ensures r.io <= RunTask(cfg, r, t, read).io
  {
    match t
    case HandleEvents(ev) => CheckAppends(r, ev.failure, read);
    case CheckLater => CheckAppends(r, false, read);
    case ReadAgain => ReportAppends(r, read);
    case _ =>
  }

  lemma CheckAppends(r: Reg, later: bool, read: Status)
    ensures r.io <= CheckStatus(r, later, read).io
  {
    ReportAppends(r, read);
  }

  lemma StepAppends(cfg: Config, r: Reg, op: Op)
    requires Enabled(r, op)
    ensures (if op.Io? then r.io[1..] else r.io) <= Step(cfg, r, op).io
  {
    match op
    case Timeout(read) => ConfirmAppends(cfg, r, read);
    case Io(read) => TaskAppends(cfg, r.(io := r.io[1..]), r.io[0], read);
    case Reported(status) => ReportAppends(r, status);
    case Netlink(_) => ReportAppends(r, ERROR);
    case _ =>
  }

  lemma ReportAppends(r: Reg, read: Status)
    ensures r.io <= ApplyStatus(r, read).io
  {
  }

  /** Callbacks run in the order they were posted. */
  lemma {:induction false} CallbacksInOrder(cfg: Config, r: Reg, ops: seq<Op>)
    requires Possible(cfg, r, ops) && Ios(ops) <= |r.io|
    ensures r.io[Ios(ops)..] <= Run(cfg, r, ops).io
    decreases |ops|
  {
    if ops != [] {
      var n := Step(cfg, r, ops[0]);
      StepAppends(cfg, r, ops[0]);
      CallbacksInOrder(cfg, n, ops[1..]);
      var rest := if ops[0].Io? then r.io[1..] else r.io;
      assert rest[Ios(ops[1..])..] == r.io[Ios(ops)..];
      assert n.io[Ios(ops[1..])..][..|rest| - Ios(ops[1..])] == rest[Ios(ops[1..])..];
    }
  }

  /** Over every run: an error reported with no change pending, the regulator not off and
      another status known, by a poll, an injection or a failure event, is stored. Once the
      callbacks posted before it have run, whatever else happens meanwhile, its own is next,
      which raises Fault, lowers PowerGood and calls back where that is allowed. */
  lemma ErrorIsShown(cfg: Config, r: Reg, op: Op, ops: seq<Op>, read: Status)
    requires !r.pending && r.state != DISABLED && r.status != ERROR
    requires op == Reported(ERROR) || (op.Netlink? && op.events.failure)
    requires Possible(cfg, Step(cfg, r, op), ops) && Ios(ops) == |r.io|
    ensures Step(cfg, r, op).status == ERROR
    ensures var n := Run(cfg, Step(cfg, r, op), ops);
            && n.io != [] && n.io[0] == Publish(ERROR)
            && var d := Step(cfg, n, Io(read));
               && d.fault == 1 && d.powergood == 0
               && d.callbacks == n.callbacks + if cfg.callback then 1 else 0
  {
    var m := Step(cfg, r, op);
    ReportedDoes(cfg, r, ERROR);
    if op.Netlink? {
      NetlinkDoes(cfg, r, op.events);
    }
    CallbacksInOrder(cfg, m, ops);
    assert m.io[|r.io|] == Publish(ERROR);
    var n := Run(cfg, m, ops);
    assert n.io[0] == m.io[|r.io|..][0];
    CallbackShows(cfg, n, read);
  }

  // ---------- Pending changes settle ----------

  ghost function Confirms(ops: seq<Op>): nat {
    if ops == [] then 0 else (if ops[0].Timeout? then 1 else 0) + Confirms(ops[1..])
  }

  ghost predicate NoNewChange(ops: seq<Op>) {
    forall op | op in ops :: !op.Change?
  }

  /** As `Apply` leaves it when it acts. */
  ghost predicate JustApplied(r: Reg) {
    r.pending && r.target != UNKNOWN && r.retries == 10 && r.timer.Some?
  }

  /** Applying a new level tries twice to set the state, announces what was read back and arms
      the first confirmation. */
  lemma ApplyLeaves(cfg: Config, r: Reg, read1: State, read2: State)
    requires r.applies > 0 && r.state != (if r.newLevel then ENABLED else DISABLED)
    ensures var n := Step(cfg, r, Change(read1, read2));
            && JustApplied(n) && n.target == (if r.newLevel then ENABLED else DISABLED)
            && n.retries == 10 && n.timer == Some(cfg.timeout / 10)
            && n.state == (if n.target == read1 then read1 else read2)
            && n.io == r.io + [ShowEnabled(n.state == ENABLED)] && n.applies == r.applies - 1
            && r == n.(state := r.state, pending := r.pending, target := r.target, retries := r.retries,
                       timer := r.timer, io := r.io, applies := r.applies)
  {
  }

  /** At most one status has been stored, and nothing else of the change in progress moved. */
  ghost predicate OneStatus(r: Reg, n: Reg) {
    && n.state == r.state && n.target == r.target && n.retries == r.retries && n.timer == r.timer
    && (if n.status == r.status then n.pending == r.pending
        else
          && (n.status == ERROR ==> !r.pending && r.state != DISABLED)
          && n.pending == (r.pending && !(r.target != UNKNOWN && n.status == Goal(r.target))))
  }

  lemma StatusIsOne(r: Reg, status: Status)
    ensures OneStatus(r, ApplyStatus(r, status))
  {
  }

  lemma CheckIsOne(r: Reg, later: bool, read: Status)
    ensures OneStatus(r, CheckStatus(r, later, read))
  {
    StatusIsOne(r, read);
  }

  lemma TaskIsOne(cfg: Config, r: Reg, t: Task, read: Status)
    ensures OneStatus(r, RunTask(cfg, r, t, read))
  {
    match t
    case HandleEvents(ev) => CheckIsOne(r, ev.failure, read);
    case CheckLater => CheckIsOne(r, false, read);
    case ReadAgain => StatusIsOne(r, read);
    case _ =>
  }

  lemma StepIsOne(cfg: Config, r: Reg, op: Op)
    requires Enabled(r, op) && !op.Change? && !op.Timeout?
    ensures OneStatus(r, Step(cfg, r, op))
  {
    match op
    case Update(_) =>
    case Reported(status) => StatusIsOne(r, status);
    case Netlink(events) => StatusIsOne(r, ERROR);
    case Io(read) => TaskIsOne(cfg, r.(io := r.io[1..]), r.io[0], read);
  }

  ghost predicate Settling(r: Reg, confirms: nat) {
    && r.target != UNKNOWN
    && (r.pending ==> r.timer.Some? && confirms + r.retries == RETRIES && (r.status != Goal(r.target) || Opposed(r)))
  }

  lemma SettlingConfirm(cfg: Config, r: Reg, confirms: nat, read: Status)
    requires Settling(r, confirms)
    ensures Settling(Confirm(cfg, r, read), confirms + 1)
  {
    var t := r.(timer := None);
    StatusIsOne(t, read);
    StatusIsOne(ApplyStatus(t, read).(pending := false), ERROR);
  }

  lemma SettlingStep(cfg: Config, r: Reg, confirms: nat, op: Op)
    requires Settling(r, confirms) && Enabled(r, op) && !op.Change?
    ensures Settling(Step(cfg, r, op), confirms + (if op.Timeout? then 1 else 0))
  {
    if op.Timeout? {
      SettlingConfirm(cfg, r, confirms, op.read);
    } else {
      StepIsOne(cfg, r, op);
    }
  }

  lemma {:induction false} SettlingRun(cfg: Config, r: Reg, confirms: nat, ops: seq<Op>)
    requires Settling(r, confirms) && Possible(cfg, r, ops) && NoNewChange(ops)
    ensures Settling(Run(cfg, r, ops), confirms + Confirms(ops))
    decreases |ops|
  {
    if ops != [] {
      assert ops[0] in ops;
      SettlingStep(cfg, r, confirms, ops[0]);
      SettlingRun(cfg, Step(cfg, r, ops[0]), confirms + (if ops[0].Timeout? then 1 else 0), ops[1..]);
    }
  }

  /** For every sequence of status reads and events without a new change: the change is settled
      after at most eleven confirmations, and until then the next one is scheduled. */
  ghost predicate AlwaysSettles(cfg: Config, r: Reg) {
    forall ops | Possible(cfg, r, ops) && NoNewChange(ops) ::
      Run(cfg, r, ops).pending ==> Run(cfg, r, ops).timer.Some? && Confirms(ops) <= 10
  }

  /** Exactly when: unless the status shadow is the goal already and the control took the new
      state. Then the status is never seen to change, the flag stays and no timer runs. */
  lemma SettlesIff(cfg: Config, r: Reg)
    requires JustApplied(r)
    ensures AlwaysSettles(cfg, r) <==>
              if r.target == ENABLED then r.status != ON || r.state == DISABLED
              else r.status != OFF || r.state == ENABLED
  {
    if r.status != Goal(r.target) || Opposed(r) {
      forall ops | Possible(cfg, r, ops) && NoNewChange(ops)
        ensures Run(cfg, r, ops).pending ==> Run(cfg, r, ops).timer.Some? && Confirms(ops) <= 10
      {
        SettlingRun(cfg, r, 0, ops);
      }
    } else {
      var ops := [Timeout(Goal(r.target))];
      assert ops[1..] == [];
      var c := Step(cfg, r, ops[0]);
      assert Possible(cfg, c, []) && Run(cfg, c, []) == c;
      assert Possible(cfg, r, ops) && NoNewChange(ops);
      assert Run(cfg, r, ops) == c && c.pending && c.timer.None?;
    }
  }

  /** That case: the flag is set, no confirmation is scheduled, and the goal is no news. */
  ghost predicate Stuck(r: Reg) {
    r.pending && r.timer.None? && r.target != UNKNOWN && r.status == Goal(r.target)
  }

  /** The values the status shadow changes to during a run. */
  ghost function Stored(cfg: Config, r: Reg, ops: seq<Op>): seq<Status>
    requires Possible(cfg, r, ops)
    decreases |ops|
  {
    if ops == [] then []
    else Changes(r.status, Trace(cfg, r, ops[0])) + Stored(cfg, Step(cfg, r, ops[0]), ops[1..])
  }

  lemma StoredNext(cfg: Config, r: Reg, ops: seq<Op>)
    requires ops != [] && Possible(cfg, r, ops) && !ops[0].Timeout?
    ensures var n := Step(cfg, r, ops[0]);
            Stored(cfg, r, ops) == (if n.status == r.status then [] else [n.status]) + Stored(cfg, n, ops[1..])
  {
    var n := Step(cfg, r, ops[0]);
    ChangesOf(r.status, n.status, n.status);
  }

  /** Without a confirmation a pending change ends exactly when the goal is stored, and until
      then no error is. */
  lemma {:induction false} EndsWithGoal(cfg: Config, r: Reg, ops: seq<Op>)
    requires r.pending && r.timer.None? && r.target != UNKNOWN && Possible(cfg, r, ops) && NoNewChange(ops)
    ensures var n, stored := Run(cfg, r, ops), Stored(cfg, r, ops);
            && (n.pending <==> Goal(r.target) !in stored)
            && (n.pending ==> ERROR !in stored && n.timer.None? && n.target == r.target)
            && (n.pending ==> n.status == if stored == [] then r.status else stored[|stored| - 1])
    decreases |ops|
  {
    if ops != [] {
      var n := Step(cfg, r, ops[0]);
      assert ops[0] in ops;
      StepIsOne(cfg, r, ops[0]);
      StoredNext(cfg, r, ops);
      if n.pending {
        EndsWithGoal(cfg, n, ops[1..]);
      } else {
        NothingLeft(cfg, n, ops[1..]);
      }
    }
  }

  /** From a stuck change on, over every run without a new one: the flag stays exactly until
      the goal is stored anew, and every error is dropped as long as it stays. The goal can
      end it if and only if some other status has reached the shadow before. */
  lemma StuckUntilGoalReturns(cfg: Config, r: Reg, ops: seq<Op>)
    requires Stuck(r) && Possible(cfg, r, ops) && NoNewChange(ops)
    ensures var n, stored := Run(cfg, r, ops), Stored(cfg, r, ops);
            && (n.pending <==> Goal(r.target) !in stored)
            && (n.pending ==> ERROR !in stored && n.timer.None? && ApplyStatus(n, ERROR) == n)
            && (n.pending && ApplyStatus(n, Goal(r.target)).pending <==> stored == [])
  {
    EndsWithGoal(cfg, r, ops);
  }

  /** The ordinary way into it: a regulator that is on and good is switched off and on again
      before it has reported any change of status. */
  lemma SwitchingBackGetsStuck(cfg: Config, r: Reg)
    requires r.state == ENABLED && r.status == ON && !r.pending && r.applies == 0
    ensures var ops := [Update(0), Change(DISABLED, DISABLED), Update(1), Change(ENABLED, ENABLED), Timeout(ON)];
            && Possible(cfg, r, ops)
            && Stuck(Run(cfg, r, ops)) && Run(cfg, r, ops).state == ENABLED
  {
    var r1 := Step(cfg, r, Update(0));
    var r2 := Step(cfg, r1, Change(DISABLED, DISABLED));
    var r3 := Step(cfg, r2, Update(1));
    var r4 := Step(cfg, r3, Change(ENABLED, ENABLED));
    var r5 := Step(cfg, r4, Timeout(ON));
    assert Stuck(r5) && r5.state == ENABLED;
    RunIsPath(cfg, [r, r1, r2, r3, r4, r5],
              [Update(0), Change(DISABLED, DISABLED), Update(1), Change(ENABLED, ENABLED), Timeout(ON)]);
  }

  /** A run by its states. */
  lemma {:induction false} RunIsPath(cfg: Config, states: seq<Reg>, ops: seq<Op>)
    requires |states| == |ops| + 1
    requires forall k | 0 <= k < |ops| :: Enabled(states[k], ops[k]) && states[k + 1] == Step(cfg, states[k], ops[k])
    ensures Possible(cfg, states[0], ops) && Run(cfg, states[0], ops) == states[|ops|]
    decreases |ops|
  {
    if ops != [] {
      RunIsPath(cfg, states[1..], ops[1..]);
    }
  }

  // ---------- Retry bound ----------

  /** Every confirmation of the run sees the change not done. */
  ghost predicate NeverSucceeds(cfg: Config, r: Reg, ops: seq<Op>)
    requires Possible(cfg, r, ops)
    decreases |ops|
  {
    ops == [] ||
    ((ops[0].Timeout? ==> Failing(ApplyStatus(r.(timer := None), ops[0].read))) &&
     NeverSucceeds(cfg, Step(cfg, r, ops[0]), ops[1..]))
  }

  /** The sum of the waits scheduled by the confirmations of the run. */
  ghost function Scheduled(cfg: Config, r: Reg, ops: seq<Op>): nat
    requires Possible(cfg, r, ops)
    decreases |ops|
  {
    if ops == [] then 0
    else
      var n := Step(cfg, r, ops[0]);
      (if ops[0].Timeout? && n.timer.Some? then n.timer.value else 0) + Scheduled(cfg, n, ops[1..])
  }

  ghost function SumOfShares(timeout: nat, n: nat): nat {
    if n == 0 then 0 else timeout / n + SumOfShares(timeout, n - 1)
  }

  /** A confirmation that fails schedules the next one, or gives up. */
  lemma FailedConfirm(cfg: Config, r: Reg, read: Status)
    requires Failing(ApplyStatus(r.(timer := None), read))
    ensures var n := Confirm(cfg, r, read);
            && n.state == r.state && n.target == r.target
            && (r.retries > 0 ==> n.timer == Some(Wait(cfg.timeout, r.retries)) && n.retries == r.retries - 1)
            && (r.retries == 0 ==> n.timer.None? && !n.pending && (r.state != DISABLED ==> n.status == ERROR))
  {
    var t := r.(timer := None);
    StatusIsOne(t, read);
    StatusIsOne(ApplyStatus(t, read).(pending := false), ERROR);
  }

  /** A change that is over stays so, and is not confirmed any more. */
  lemma {:induction false} NothingLeft(cfg: Config, r: Reg, ops: seq<Op>)
    requires r.timer.None? && !r.pending && Possible(cfg, r, ops) && NoNewChange(ops)
    ensures Confirms(ops) == 0 == Scheduled(cfg, r, ops)
    ensures Run(cfg, r, ops).timer.None? && !Run(cfg, r, ops).pending && Run(cfg, r, ops).state == r.state
    decreases |ops|
  {
    if ops != [] {
      assert ops[0] in ops;
      StepIsOne(cfg, r, ops[0]);
      NothingLeft(cfg, Step(cfg, r, ops[0]), ops[1..]);
    }
  }

  lemma {:induction false} RetriesRunOut(cfg: Config, r: Reg, ops: seq<Op>)
    requires r.timer.Some? && Possible(cfg, r, ops) && NoNewChange(ops) && NeverSucceeds(cfg, r, ops)
    ensures Confirms(ops) <= r.retries + 1 && Run(cfg, r, ops).state == r.state
    ensures Confirms(ops) <= r.retries ==> Run(cfg, r, ops).timer.Some?
    ensures Confirms(ops) == r.retries + 1 ==>
              && Run(cfg, r, ops).timer.None? && !Run(cfg, r, ops).pending
              && Scheduled(cfg, r, ops) == SumOfShares(cfg.timeout, r.retries)
              && (ops[|ops| - 1].Timeout? && r.state != DISABLED ==> Run(cfg, r, ops).status == ERROR)
    decreases |ops|
  {
    if ops != [] {
      assert ops[0] in ops;
      var n := Step(cfg, r, ops[0]);
      if !ops[0].Timeout? {
        StepIsOne(cfg, r, ops[0]);
        RetriesRunOut(cfg, n, ops[1..]);
      } else {
        FailedConfirm(cfg, r, ops[0].read);
        if r.retries == 0 {
          NothingLeft(cfg, n, ops[1..]);
          assert ops[1..] != [] ==> ops[1..][|ops| - 2] == ops[|ops| - 1];
          NotLast(ops[1..]);
        } else {
          RetriesRunOut(cfg, n, ops[1..]);
        }
      }
    }
  }

  lemma {:induction false} NotLast(ops: seq<Op>)
    requires Confirms(ops) == 0
    ensures ops != [] ==> !ops[|ops| - 1].Timeout?
    decreases |ops|
  {
    if |ops| > 1 {
      NotLast(ops[1..]);
    }
  }

  /** From the change to giving up: the wait armed by `Apply` and those of ten retries. */
  ghost function TotalWait(timeout: nat): nat {
    Wait(timeout, RETRIES) + SumOfShares(timeout, RETRIES)
  }

  /** Whatever polls, events and callbacks come in between: a change that never succeeds gets
      exactly eleven confirmations, each but the last scheduling the next. The last one ends
      the change and reports an error unless the regulator's state is off. The waits add up to
      `TotalWait`. */
  lemma ElevenConfirmations(cfg: Config, r: Reg, ops: seq<Op>)
    requires JustApplied(r) && r.timer == Some(cfg.timeout / 10)
    requires Possible(cfg, r, ops) && NoNewChange(ops) && NeverSucceeds(cfg, r, ops)
    ensures var n := Run(cfg, r, ops);
            && Confirms(ops) <= 11
            && (Confirms(ops) < 11 ==> n.timer.Some?)
            && (Confirms(ops) == 11 ==>
                  && n.timer.None? && !n.pending
                  && r.timer.value + Scheduled(cfg, r, ops) == TotalWait(cfg.timeout)
                  && (ops[|ops| - 1].Timeout? && r.state != DISABLED ==> n.status == ERROR))
  {
    RetriesRunOut(cfg, r, ops);
  }

  lemma TenShares(t: nat)
    ensures SumOfShares(t, RETRIES) == t / 10 + t / 9 + t / 8 + t / 7 + t / 6 + t / 5 + t / 4 + t / 3 + t / 2 + t
  {
    assert SumOfShares(t, 1) == t / 1 + SumOfShares(t, 0);
    assert SumOfShares(t, 2) == t / 2 + SumOfShares(t, 1);
    assert SumOfShares(t, 3) == t / 3 + SumOfShares(t, 2);
    assert SumOfShares(t, 4) == t / 4 + SumOfShares(t, 3);
    assert SumOfShares(t, 5) == t / 5 + SumOfShares(t, 4);
    assert SumOfShares(t, 6) == t / 6 + SumOfShares(t, 5);
    assert SumOfShares(t, 7) == t / 7 + SumOfShares(t, 6);
    assert SumOfShares(t, 8) == t / 8 + SumOfShares(t, 7);
    assert SumOfShares(t, 9) == t / 9 + SumOfShares(t, 8);
  }

  /** About 3.03 times the configured timeout, never the two times that the log claims. */
  lemma TotalWaitBounds(t: nat)
    ensures 2520 * TotalWait(t) <= 7633 * t < 2520 * (TotalWait(t) + 10)
    ensures t >= 10 ==> TotalWait(t) > 2 * t
  {
    TenShares(t);
  }

  // ---------- Accounting of published statuses ----------

  /** The values the status shadow takes during a step, in order. */
  ghost function Trace(cfg: Config, r: Reg, op: Op): seq<Status>
    requires Enabled(r, op)
  {
    if op.Timeout?
    then [ApplyStatus(r.(timer := None), op.read).status, Step(cfg, r, op).status]
    else [Step(cfg, r, op).status]
  }

  /** Those that differ from the value before. */
  ghost function Changes(before: Status, trace: seq<Status>): seq<Status>
    decreases |trace|
  {
    if trace == [] then []
    else (if trace[0] == before then [] else [trace[0]]) + Changes(trace[0], trace[1..])
  }

  ghost function Published(io: seq<Task>): seq<Status> {
    if io == [] then []
    else (if io[0].Publish? then [io[0].status] else []) + Published(io[1..])
  }

  ghost function ErrorsIn(ss: seq<Status>): nat {
    if ss == [] then 0 else (if ss[0] == ERROR then 1 else 0) + ErrorsIn(ss[1..])
  }

  /** The last of OFF, ON and ERROR, or else what was known before. */
  ghost function LastShown(before: Option<Status>, ss: seq<Status>): Option<Status>
    decreases |ss|
  {
    if ss == [] then before
    else LastShown(if ss[0] in {OFF, ON, ERROR} then Some(ss[0]) else before, ss[1..])
  }

  lemma {:induction false} PublishedConcat(a: seq<Task>, b: seq<Task>)
    ensures Published(a + b) == Published(a) + Published(b)
    decreases |a|
  {
    if a == [] {
      assert a + b == b;
    } else {
      assert (a + b)[1..] == a[1..] + b;
      PublishedConcat(a[1..], b);
      var head := if a[0].Publish? then [a[0].status] else [];
      assert Published(a + b) == head + Published(a[1..] + b);
      assert Published(a) == head + Published(a[1..]);
      assert head + (Published(a[1..]) + Published(b)) == head + Published(a[1..]) + Published(b);
    }
  }

  lemma {:induction false} CountsConcat(before: Option<Status>, a: seq<Status>, b: seq<Status>)
    ensures ErrorsIn(a + b) == ErrorsIn(a) + ErrorsIn(b)
    ensures LastShown(before, a + b) == LastShown(LastShown(before, a), b)
    decreases |a|
  {
    if a == [] {
      assert a + b == b;
    } else {
      assert (a + b)[1..] == a[1..] + b;
      CountsConcat(if a[0] in {OFF, ON, ERROR} then Some(a[0]) else before, a[1..], b);
    }
  }

  lemma AppendPublished(io: seq<Task>, t: Task)
    ensures Published(io + [t]) == Published(io) + (if t.Publish? then [t.status] else [])
  {
    PublishedConcat(io, [t]);
    assert [t][1..] == [];
  }

  /** Between these states exactly the change of the status shadow, if any, was published. */
  ghost predicate Publishes(r: Reg, n: Reg) {
    Published(n.io) == Published(r.io) + (if n.status == r.status then [] else [n.status])
  }

  lemma ApplyStatusPublishes(r: Reg, status: Status)
    ensures Publishes(r, ApplyStatus(r, status))
  {
    AppendPublished(r.io, Publish(Normalized(r, status)));
  }

  lemma CheckPublishes(r: Reg, later: bool, read: Status)
    ensures Publishes(r, CheckStatus(r, later, read))
  {
    ApplyStatusPublishes(r, read);
    AppendPublished(r.io, CheckLater);
    AppendPublished(r.io, ReadAgain);
  }

  lemma NetlinkPublishes(r: Reg, ev: Events)
    ensures Publishes(r, OnNetlink(r, ev))
  {
    ApplyStatusPublishes(r, ERROR);
    AppendPublished(r.io, HandleEvents(ev));
    AppendPublished(ApplyStatus(r, ERROR).io, HandleEvents(ev));
  }

  lemma EventsPublish(cfg: Config, r: Reg, ev: Events, read: Status)
    ensures Publishes(r, RunTask(cfg, r, HandleEvents(ev), read))
  {
    CheckPublishes(r, ev.failure, read);
    AppendPublished(CheckStatus(r, ev.failure, read).io, ShowEvents(ev));
  }

  lemma TaskPublishes(cfg: Config, r: Reg, t: Task, read: Status)
    ensures Publishes(r, RunTask(cfg, r, t, read))
  {
    match t
    case HandleEvents(ev) => EventsPublish(cfg, r, ev, read);
    case CheckLater => CheckPublishes(r, false, read);
    case ReadAgain => ApplyStatusPublishes(r, read);
    case _ =>
  }

  lemma ChangesOf(before: Status, a: Status, b: Status)
    ensures Changes(before, [a]) == if a == before then [] else [a]
    ensures Changes(before, [a, b]) == Changes(before, [a]) + Changes(a, [b])
  {
  }

  lemma ConfirmPublishes(cfg: Config, r: Reg, read: Status)
    ensures var c := ApplyStatus(r.(timer := None), read);
            Published(Confirm(cfg, r, read).io) ==
                Published(r.io) + Changes(r.status, [c.status, Confirm(cfg, r, read).status])
  {
    var t := r.(timer := None);
    var c := ApplyStatus(t, read);
    var n := Confirm(cfg, r, read);
    ApplyStatusPublishes(t, read);
    assert Publishes(c, n) by {
      ApplyStatusPublishes(c.(pending := false), ERROR);
    }
    ChangesOf(r.status, c.status, n.status);
    ChangesOf(c.status, n.status, n.status);
  }

  /** In every step what is published is what the status shadow changed to, in order. */
  lemma StepPublishes(cfg: Config, r: Reg, op: Op)
    requires Enabled(r, op)
    ensures Published(Step(cfg, r, op).io) ==
            Published(if op.Io? then r.io[1..] else r.io) + Changes(r.status, Trace(cfg, r, op))
  {
    if op.Timeout? {
      ConfirmPublishes(cfg, r, op.read);
    } else {
      var p := if op.Io? then r.(io := r.io[1..]) else r;
      var n := Step(cfg, r, op);
      assert Publishes(p, n) by {
        match op
        case Update(_) =>
        case Change(_, _) => AppendPublished(r.io, ShowEnabled(n.state == ENABLED));
        case Reported(status) => ApplyStatusPublishes(r, status);
        case Netlink(events) => NetlinkPublishes(r, events);
        case Io(read) => TaskPublishes(cfg, p, r.io[0], read);
      }
      ChangesOf(r.status, n.status, n.status);
    }
  }

  /** A regulator with its past: how often the status shadow went into ERROR, the last of OFF,
      ON and ERROR stored in it, and the last of them that was shown on the signals. */
  datatype History = History(reg: Reg, entered: nat, stored: Option<Status>, shown: Option<Status>)

  ghost function Advance(cfg: Config, h: History, op: Op): History
    requires Enabled(h.reg, op)
  {
    var changes := Changes(h.reg.status, Trace(cfg, h.reg, op));
    History(Step(cfg, h.reg, op), h.entered + ErrorsIn(changes), LastShown(h.stored, changes),
            if op.Io? then LastShown(h.shown, Published([h.reg.io[0]])) else h.shown)
  }

  ghost predicate PossibleHistory(cfg: Config, h: History, ops: seq<Op>)
    decreases |ops|
  {
    ops == [] || (Enabled(h.reg, ops[0]) && PossibleHistory(cfg, Advance(cfg, h, ops[0]), ops[1..]))
  }

  ghost function AdvanceAll(cfg: Config, h: History, ops: seq<Op>): History
    requires PossibleHistory(cfg, h, ops)
    decreases |ops|
  {
    if ops == [] then h else AdvanceAll(cfg, Advance(cfg, h, ops[0]), ops[1..])
  }

  ghost predicate Signals(r: Reg, shown: Option<Status>) {
    match shown
    case None => r.powergood == -1 && r.fault == -1
    case Some(s) => r.powergood == FromBool(s == ON) && r.fault == FromBool(s == ERROR)
  }

  ghost predicate Accounted(cfg: Config, h: History) {
    && (cfg.callback ==> h.reg.callbacks + ErrorsIn(Published(h.reg.io)) == h.entered)
    && (!cfg.callback ==> h.reg.callbacks == 0)
    && LastShown(h.shown, Published(h.reg.io)) == h.stored
    && (h.shown.Some? ==> h.shown.value in {OFF, ON, ERROR})
    && Signals(h.reg, h.shown)
  }

  /** The constructor's initial status is stored as expected, or not an error. */
  ghost function Booted(state: State, target: State, status: Status): History {
    var r := ApplyStatus(Booting(state, target), status);
    History(r, 0, LastShown(None, Changes(NOCHANGE, [r.status])), None)
  }

  lemma BootIsAccounted(cfg: Config, state: State, target: State, status: Status)
    ensures Accounted(cfg, Booted(state, target, status))
    ensures Booted(state, target, status).reg.status != ERROR
  {
  }

  lemma PopPublished(io: seq<Task>)
    requires io != []
    ensures Published(io) == Published([io[0]]) + Published(io[1..])
  {
  }

  lemma CheckSpares(r: Reg, later: bool, read: Status)
    ensures var n := CheckStatus(r, later, read);
            n.powergood == r.powergood && n.fault == r.fault && n.callbacks == r.callbacks
  {
  }

  lemma TaskSpares(cfg: Config, r: Reg, t: Task, read: Status)
    requires !t.Publish?
    ensures var n := RunTask(cfg, r, t, read);
            n.powergood == r.powergood && n.fault == r.fault && n.callbacks == r.callbacks
  {
    if t.HandleEvents? {
      CheckSpares(r, t.events.failure, read);
    }
  }

  /** Running the head of the queue moves at most one status from the queue to the signals. */
  lemma TaskShows(cfg: Config, r: Reg, t: Task, read: Status, shown: Option<Status>)
    requires Signals(r, shown) && (shown.Some? ==> shown.value in {OFF, ON, ERROR})
    ensures var now := LastShown(shown, Published([t]));
            && Signals(RunTask(cfg, r, t, read), now) && (now.Some? ==> now.value in {OFF, ON, ERROR})
    ensures RunTask(cfg, r, t, read).callbacks == r.callbacks + if cfg.callback then ErrorsIn(Published([t])) else 0
  {
    PublishedOne(t);
    if t.Publish? {
      assert [t.status][1..] == [];
      var now := if t.status in {OFF, ON, ERROR} then Some(t.status) else shown;
      assert LastShown(shown, [t.status]) == now;
      assert ErrorsIn([t.status]) == if t.status == ERROR then 1 else 0;
      assert Signals(RunTask(cfg, r, t, read), now);
    } else {
      TaskSpares(cfg, r, t, read);
    }
  }

  lemma PublishedOne(t: Task)
    ensures Published([t]) == if t.Publish? then [t.status] else []
  {
  }

  lemma StepSpares(cfg: Config, r: Reg, op: Op)
    requires Enabled(r, op) && !op.Io?
    ensures var n := Step(cfg, r, op);
            n.powergood == r.powergood && n.fault == r.fault && n.callbacks == r.callbacks
  {
  }

  lemma AdvanceIsAccounted(cfg: Config, h: History, op: Op)
    requires Accounted(cfg, h) && Enabled(h.reg, op)
    ensures Accounted(cfg, Advance(cfg, h, op))
  {
    var r := h.reg;
    var changes := Changes(r.status, Trace(cfg, r, op));
    StepPublishes(cfg, r, op);
    if op.Io? {
      var first, rest := Published([r.io[0]]), Published(r.io[1..]);
      PopPublished(r.io);
      CountsConcat(h.shown, first, rest);
      CountsConcat(LastShown(h.shown, first), rest, changes);
      TaskShows(cfg, r.(io := r.io[1..]), r.io[0], op.read, h.shown);
    } else {
      CountsConcat(h.shown, Published(r.io), changes);
      StepSpares(cfg, r, op);
    }
  }

  lemma {:induction false} AllAccounted(cfg: Config, h: History, ops: seq<Op>)
    requires Accounted(cfg, h) && PossibleHistory(cfg, h, ops)
    ensures Accounted(cfg, AdvanceAll(cfg, h, ops))
    decreases |ops|
  {
    if ops != [] {
      AdvanceIsAccounted(cfg, h, ops[0]);
      AllAccounted(cfg, Advance(cfg, h, ops[0]), ops[1..]);
    }
  }

  /** Over every run, once the posted callbacks have drained, error callbacks number exactly
      the times the status shadow went into ERROR, or zero where none may be made. */
  lemma CallbacksCountErrors(cfg: Config, state: State, target: State, status: Status, ops: seq<Op>)
    requires PossibleHistory(cfg, Booted(state, target, status), ops)
    ensures var h := AdvanceAll(cfg, Booted(state, target, status), ops);
            h.reg.io == [] ==> h.reg.callbacks == if cfg.callback then h.entered else 0
  {
    BootIsAccounted(cfg, state, target, status);
    AllAccounted(cfg, Booted(state, target, status), ops);
  }

  /** PowerGood and Fault are never high together, and once drained they show the last of OFF,
      ON and ERROR that was stored, whatever the interleaving. */
  lemma SignalsShowStatus(cfg: Config, state: State, target: State, status: Status, ops: seq<Op>)
    requires PossibleHistory(cfg, Booted(state, target, status), ops)
    ensures var h := AdvanceAll(cfg, Booted(state, target, status), ops);
            && !(h.reg.powergood == 1 && h.reg.fault == 1)
            && (h.reg.io == [] ==> Signals(h.reg, h.stored))
  {
    BootIsAccounted(cfg, state, target, status);
    AllAccounted(cfg, Booted(state, target, status), ops);
  }

  lemma ConfirmError(cfg: Config, r: Reg, read: Status)
    requires var c := ApplyStatus(r.(timer := None), read);
             (r.status != ERROR && c.status == ERROR) || (c.status != ERROR && Confirm(cfg, r, read).status == ERROR)
    ensures var n := Confirm(cfg, r, read); n.status == ERROR && !n.pending && n.state != DISABLED
  {
    var t := r.(timer := None);
    StatusIsOne(t, read);
    StatusIsOne(ApplyStatus(t, read).(pending := false), ERROR);
  }

  /** The shadow goes into ERROR only with no change pending and a state other than off. */
  lemma ErrorNeedsSettledOn(cfg: Config, r: Reg, op: Op)
    requires Enabled(r, op) && ERROR in Changes(r.status, Trace(cfg, r, op))
    ensures var n := Step(cfg, r, op);
            n.status == ERROR && !n.pending && n.state != DISABLED
  {
    var n := Step(cfg, r, op);
    ChangesOf(r.status, n.status, n.status);
    if op.Timeout? {
      var c := ApplyStatus(r.(timer := None), op.read);
      ChangesOf(r.status, c.status, n.status);
      ChangesOf(c.status, n.status, n.status);
      ConfirmError(cfg, r, op.read);
    } else if !op.Change? {
      StepIsOne(cfg, r, op);
    }
  }
}
