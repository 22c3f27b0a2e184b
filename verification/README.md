# A verified model of pwrseqd

pwrseqd is a "software CPLD": boolean units connected by three-valued signals (-1 never driven,
0, 1) are re-evaluated whenever a signal changes, and around them run voltage regulators and the
ACPI request sequencer. This project models that machinery and proves what it guarantees over
every netlist, every run and every interleaving of queued handlers.

Every asio handler is one atomic step, `io` is a FIFO queue, and time is a natural number of
microseconds. Files that sysfs or netlink would supply are arbitrary parameters of the step that
reads them.

| module | content |
|---|---|
| `Netlist` | levels, inputs, units, the gate function |
| `Propagation` | the engine on values: dirty list, cached results, rounds, foreign receivers; nothing is lost |
| `Convergence` | termination by depth, agreement with recursive evaluation, the exhausted budget |
| `Hold` | units that keep their own output, over whole runs |
| `IoQueue` | runs of the handler queue: wake-ups, fixpoints when drained, two-hop posts |
| `DelayLine`, `StableFilter` | the timed output and the timed input of a unit |
| `Circuit`, `Replay`, `Builder` | `Signal`, `SignalProvider`, `LogicInput`, `Logic`, `StateMachine` as objects updated in place; how stretches of an evaluation compose; building a circuit from a configuration |
| `RegulatorModel`, `Regulator` | the voltage regulator: theorems on values, and the object |
| `AcpiModel`, `Acpi`, `PowerOrder` | the request sequencer: interlock, the object, ordering against evaluations |
| `PchRails` | the PCH rail chain of the sbp1 board on the engine |

The engine's netlist holds the units without delay and filters that are alone on their output.
Every other receiver of a signal is *foreign*: within an evaluation it may drive its own output at
any of its updates, to any level. A unit with an input filter does so, and boards mix both kinds.
An engine carries a script of what its foreign receivers will do, so a theorem about every engine
holds for every such behaviour. Termination is proved for every behaviour too, as long as the
foreign receivers belong to the same order as the netlist: each drives a signal that ranks above
those it is notified by. Values are relative to the foreign outputs, which count as sources.

How the parts connect. The objects of `Circuit` are proved to do exactly what the functions of
`Propagation`, `DelayLine` and `StableFilter` do, for every wired circuit: `EvaluateState` leaves
the state that the engine's `Evaluate` computes when the units with delays or filters do what they
did in this call. `ValidIsWired` shows that such an object graph meets the conditions of the
engine's theorems, `OrderIsRank` that an order of its units is a rank for them, and
`Builder.BuiltIsStarted` that what the constructors produce is where runs begin. In the same way every
method of `VoltageRegulator` and `ACPIStates` is tied to one function, and the theorems speak of
runs of those functions.

Two words used below. A unit is *settled* when its cached result and its output both equal its
gate on the present levels; a *fixpoint* is a state in which all units of the netlist are. A
netlist is *ranked* when every input that can make a unit stale ranks below its output; a unit's
own output need not when it is read back without any inverter, as in a hold. Loops through a
delayed unit do not matter, since it drives its output outside of evaluations.

What turned out false of the code, with the exact condition:

- A unit's change is lost when the 10000 rounds run out: the batch fetched last is not visited and
  its bits are already cleared, so the retry finds an empty list. For a ranked netlist of depth D
  this cannot happen if D is at most 10000 (`Convergence.RankedReachesFixpoint`) and does happen in
  a plain chain of depth 10001 (`Convergence.DeepChainLosesUpdate`). Whatever the netlist, an
  evaluation that ends on an empty list ends in a fixpoint.
- A pending regulator change settles if and only if, when it is applied, the status shadow is not
  already the goal or the control took the opposite state (`RegulatorModel.SettlesIff`). In the
  remaining case, reached by switching a good regulator off and on again before its status moves
  (`RegulatorModel.SwitchingBackGetsStuck`), no timer runs, and until the goal is stored anew the
  flag stays and every error is dropped. Reporting the goal ends that if and only if some other
  status has reached the shadow in between (`RegulatorModel.StuckUntilGoalReturns`).
- Host-on implies chassis-on does not survive every request. Made in a state whose queue would
  drain well without it, a request keeps it if and only if no opposite request is in flight; while
  a power cycle is about to raise chassis and host, if and only if it does not ask for chassis off
  (`AcpiModel.SafeIffDrainKeeps`). So a chassis-off request breaks it without meeting any opposite
  request, after a power cycle has lowered both and G3 has been reported
  (`AcpiModel.OffAfterCycleBreaks`). Reporting G3 to a power cycle keeps it if and only if the
  chassis-offs in flight have no hop left and stand ahead of the cycle's handler
  (`AcpiModel.EvaluationKeepsIff`).
- A delayed output shows exactly its unit's transitions if and only if no change met a full queue
  (`DelayLine.DeliversTransitions`). As long as at most 99 are waiting at each change it is a pure
  delay (`DelayLine.RoomyDelivers`, `DelayLine.RoomyIsOnTime`); of 101 changes within the delay the
  first is lost (`DelayLine.OverflowLosesTransition`).
- An answer of the regulators keeps the order of the PCH rails if and only if p1v8 does not come up
  while p3v3 goes down under RTCRST (`PchRails.AnswerKeepsChainIff`,
  `PchRails.ResetRaceBreaksChain`). RTCRST low, or one signal changing at a time, excludes it.

Where the code and its own words disagree the model follows the code: the configuration's
comments say that an input reads 0 while it is not stable, but the filter keeps its old reading
(`StableFilter.UnstableKeepsOldReading`); `SignalProvider::ClearDirty` is said to clear the list
and clears only the bits; a failed regulator change logs twice the configured timeout, while the
waits add up to about 3.03 times (`RegulatorModel.TotalWaitBounds`); an inverted input that was
never driven reads 0, not 1 (`Netlist.UnknownBreaksDuality`).

## Model

| member | source | states |
|---|---|---|
| Netlist.GateFrame | src/Logic.cpp:54-87 | a unit's result depends on the levels of its inputs only |
| Netlist.HighIs | src/LogicInput.cpp:14-22 | an unfiltered input contributes if and only if its signal is driven, to 1 as it is and to 0 inverted |
| Netlist.OrAlone | src/Logic.cpp:56-87 | a unit with OR inputs alone is an OR gate, inverted once for each of an active-low output and, in the default order only, an inverted first gate |
| Netlist.AndAlone | src/Logic.cpp:56-87 | a unit with AND inputs alone is an AND gate, inverted likewise, by the first gate's inverter only if AND comes first |
| Netlist.OrThenAnd | src/Logic.cpp:73-87 | with both kinds in the default order the OR gate, inverted or not, is one more AND input |
| Netlist.AndThenOr | src/Logic.cpp:58-72 | in the other order the AND gate, inverted or not, is one more OR input |
| Netlist.NoInputs | src/Logic.cpp:56-87 | without inputs the unit is constant, high in the default order and low in the other one, active-low inverting it |
| Netlist.HoldIsStable | config/sbp1/pch.yaml:183-192 | driving a self-holding output to the result leaves the result as it is |
| Netlist.DualGate | src/Logic.cpp:58-87 | with known inputs the and-then-or and or-then-and cascades are De Morgan duals, the skipped empty first gate included |
| Netlist.UnknownBreaksDuality | src/LogicInput.cpp:16-19 | a never-driven input reads low even when inverted, so duality fails without known inputs |
| Propagation.UpdateSettles | src/Logic.cpp:54-117 | after its update a unit is settled unless it changed an output it reads back through an inverter |
| Propagation.UpdateDisturbs | src/Logic.cpp:89-116 | an update unsettles another unit only through a signal that is then on the dirty list |
| Propagation.UpdateKeeps | src/Signal.cpp:99-105 | in the middle of visiting a signal no unit is stale without something scheduled that wakes it, whether the receiver just updated is a unit of the netlist or drives its output after filters |
| Propagation.BootKeeps | src/Logic.cpp:184 | a unit's first, posted update, with filters or without, may run between any two evaluations without losing another's |
| Propagation.SourceKeeps | src/Signal.cpp:39-50 | driving a signal of no unit, within an evaluation or between, leaves every unit it unsettles a waking signal on the list |
| Propagation.ForeignKeeps | src/LogicInput.cpp:14-49 | so does a filtered unit that drives its output in the middle of an evaluation, whatever its filters let through |
| Propagation.RoundsKeep | src/StateMachine.cpp:165-182 | cycles, filtered and delayed units included and in any visiting order, between rounds each zero-delay, zero-filter unit alone on its output is settled or a signal that wakes it is still to be visited |
| Propagation.EmptyExitIsFixpoint | src/StateMachine.cpp:162-182 | an evaluation that ends because the list came back empty leaves every such unit settled, whatever filtered and delayed units did meanwhile |
| Propagation.RoundsFetch | src/StateMachine.cpp:180 | the loop always ends right after a fetch, so the active list is then empty, even when the budget ran out |
| Convergence.RoundsEnd | src/StateMachine.cpp:160-182 | the batch of round j holds signals of rank j and above, whatever filtered units drive meanwhile, so each round uses up one layer, and a batch left unvisited ranks as high as the budget |
| Convergence.LoopEnds | src/StateMachine.cpp:160-187 | a circuit of depth D, filtered units included and acting as they like, needs at most D+1 rounds; with D+1 below 10000 the failure branch is not taken |
| Convergence.RankedReachesFixpoint | src/StateMachine.cpp:157-188 | every evaluation of a circuit of depth up to 10000, hold loops and acting filtered units allowed, leaves the netlist at a fixpoint, even where the failure branch is taken |
| Convergence.DeepChainLosesUpdate | src/StateMachine.cpp:160-187 | at depth 10001 a chain of plain buffers is left unsettled with nothing listed, and the retry changes nothing |
| Convergence.FixpointIsValue | src/Logic.cpp:54-117 | a fixpoint of a loop-free netlist is its recursive evaluation from the sources, for every signal |
| Convergence.EvaluateIsValue | src/StateMachine.cpp:157-189 | the levels an evaluation leaves are the recursive evaluation of its sources, filtered outputs among them, as they are in the end, and of the levels they had before if no filtered unit acts |
| Convergence.OrderDoesNotMatter | src/Signal.cpp:99-105 | two engines with equal sources agree on every signal afterwards, whatever their dirty lists, receiver orders, caches and old outputs |
| Convergence.ExhaustedRunLosesUpdate | src/StateMachine.cpp:183-187 | an inverter on its own output calls the listener 10001 times, stays unsettled with nothing listed, and the retry changes nothing |
| Hold.HoldGate | config/sbp1/pch.yaml:183-192 | a hold unit is high when set or held and clear is driven low; an undriven clear counts as asserted |
| Hold.HoldRemembers | config/sbp1/pch.yaml:183-192 | over every run its output is high if and only if some update saw the set input high (or it was high before) and every update since saw clear low |
| Hold.EvaluationHolds | src/StateMachine.cpp:165-182 | one evaluation is such a run: it drops the hold only in an update that sees clear other than low |
| IoQueue.RunAwake | src/SignalProvider.cpp:141-165 | for every netlist, budget exhausted or not, whatever filtered units drive within evaluations and other threads post: a non-empty active list means an evaluation is queued |
| IoQueue.RunDistinct | src/SignalProvider.cpp:149-157 | although new signals are listed twice, after the first evaluation the active list never has duplicates |
| IoQueue.RunConsistent | src/StateMachine.cpp:151-197 | as long as evaluations end on an empty list, in every state between handlers each zero-delay, zero-filter unit alone on its output is settled, woken by a listed signal, or waiting for its first update |
| IoQueue.DrainedIsFixpoint | src/StateMachine.cpp:191-197 | from the start of the main loop on, whenever the queue has drained after such evaluations, all these units are settled |
| IoQueue.RankedEndsEmpty | src/StateMachine.cpp:160-187 | in a circuit that is acyclic up to holds, filtered units included, every evaluation of every run ends on an empty list |
| IoQueue.RankedDrainsToFixpoint | src/StateMachine.cpp:191-197 | so there, over every run, a drained queue means that all undelayed, unfiltered units alone on their output are settled |
| IoQueue.DrainedIsValue | src/StateMachine.cpp:157-197 | and every signal of a loop-free netlist then has the value of the recursive evaluation from the present sources and filtered outputs |
| IoQueue.RunIsFifo | src/StateMachine.cpp:151-154 | handlers run in the order queued, and sources not driven by those ahead keep their level until then |
| IoQueue.TwoHopsSpanEvaluation | src/ACPIStates.cpp:222-233 | between driving a signal and an action posted in two hops, an evaluation that sees the new level runs to completion |
| DelayLine.DeliversTransitions | src/Logic.cpp:89-136 | what was shown followed by what is queued is the sequence of result transitions if and only if no change met a full queue |
| DelayLine.EntersTransitions | src/Logic.cpp:89-115 | what enters the delay is exactly the sequence of result transitions |
| DelayLine.RoomyDelivers | src/Logic.cpp:89-143 | over every run in which at most 99 transitions are entered and not yet shown at each change, what was shown followed by what is queued is the sequence of result transitions |
| DelayLine.RoomyIsOnTime | src/Logic.cpp:91-135 | in those runs no transition is shown before its delay is over, and the timer runs out exactly when the delay of the oldest one not yet shown does |
| DelayLine.ShownInOrderAndNotEarly | src/Logic.cpp:91-135 | while nothing was overwritten each transition is shown in its turn and not before its delay, and the wait is for the head |
| DelayLine.QueueIsOrdered | src/Logic.cpp:89-136 | overwritten entries or not, the queue is the end of the transitions: sorted by time, alternating, ending in the cached result |
| DelayLine.OverflowLosesTransition | src/Logic.cpp:99-143 | of 101 transitions within the delay the first one is lost and the other 100 are queued |
| DelayLine.WaitsWhileQueued | src/Logic.cpp:101-134 | a wait is outstanding exactly when something is queued, overwritten entries or not |
| StableFilter.FilterIsDebounce | src/LogicInput.cpp:14-49 | with timers on time the reading is, at every instant, the value of the last segment that stayed constant for the stability time, 0 before there is one |
| StableFilter.FilterCatchesUp | src/LogicInput.cpp:32-45 | however late timers and evaluations are, while the reading differs from the live input, the input is still to be evaluated or a timer is set for the end of the segment's stability time |
| StableFilter.UnstableKeepsOldReading | config/sbp1/pch.yaml:8-9 | an unstable input keeps its old reading; an input just dropped still reads high |
| Circuit.Signal.constructor | src/Signal.cpp:18-26 | a signal starts unknown, dirty and listed once |
| Circuit.Signal.SetLevel | src/Signal.cpp:39-50 | a change sets bit and time, lists the signal and announces it if it was not listed; a repeated level changes nothing; the fetched batch is not touched |
| Circuit.Signal.Validate | src/Signal.cpp:70-84 | passes if and only if somebody listens or the name is listed as floating |
| Circuit.Signal.UpdateReceivers | src/Signal.cpp:99-105 | on every wired circuit, the engine's updates of the reading units in registration order, with what delayed and filtered ones did on record |
| Circuit.ParentsInOrder | src/Signal.cpp:92-105 | the units a signal updates are those of its receivers, in registration order |
| Circuit.SignalProvider.SetDirty | src/SignalProvider.cpp:141-165 | appends only what is not listed and announces exactly then; keeps the list free of duplicates and the other buffer unchanged |
| Circuit.SignalProvider.ClearDirty | src/SignalProvider.cpp:122-138 | every signal's bit is off afterwards, because set bits are exactly those of listed signals |
| Circuit.SignalProvider.GetDirtySignalsAndClearList | src/SignalProvider.cpp:102-119 | hands out the set of pending signals and starts an empty one, keeping bit and list in agreement |
| Circuit.SignalProvider.Add | src/SignalProvider.cpp:52-76 | an unnamed signal is refused; a new one is registered, unknown, unheard and stands on the active list twice; the provider stays valid if the name was new |
| Circuit.SignalProvider.FindOrAdd | src/SignalProvider.cpp:89-96 | one signal per name: a known name changes nothing, an unknown one adds that entry only, unknown, unheard and listed |
| Circuit.SignalProvider.IsDriven | src/SignalProvider.cpp:189-210 | true if and only if the signal is immutable or some driver reports it |
| Circuit.SignalProvider.Validate | src/SignalProvider.cpp:178-214 | accepts if and only if every signal is heard or floating and every signal is driven or immutable; else names an offender, unheard ones first |
| Circuit.LogicInput.constructor | src/LogicInput.cpp:75-87 | the first reading is a sample of the filter, and inside the stability window it leaves the level as it happened to be |
| Circuit.LogicInput.GetLevel | src/LogicInput.cpp:14-49 | one sample of the stability filter: an unknown signal reads low, a stable one as it is or inverted, and an unstable one keeps the reading and sets the timer for the end of its stability time |
| Circuit.LogicInput.Update | src/LogicInput.cpp:58-62 | exactly one update of the engine, of a unit of the netlist or of a foreign receiver whose act is the result of its filtered gate |
| Circuit.LogicInput.TimerExpired | src/LogicInput.cpp:39-44 | the expired timer leads to a fresh sample of the filter and to the unit's result being published like after any update |
| Circuit.Logic.Combine | src/Logic.cpp:56-87 | the gate of the filtered inputs; every filter is sampled, none is skipped by a known result |
| Circuit.Logic.ResultByShape | src/Logic.cpp:56-87 | what that gate computes from the filters' readings, for every combination of inputs, order and inverters |
| Circuit.Logic.Publish | src/Logic.cpp:89-116 | an unchanged result goes nowhere; a changed one is on the output at once, or stands last in the delay line, due after the delay, and leaves the output alone |
| Circuit.Logic.TimerHandler | src/Logic.cpp:119-136 | the oldest queued level reaches the output, which a change lists and announces, and the next is waited for |
| Circuit.StateMachine.ValidIsWired | src/LogicInput.cpp:79-83 | a circuit whose inputs are registered with the signals they read gives a netlist with sole drivers, exact wiring and foreign receivers that leave its outputs alone |
| Circuit.StateMachine.EvaluationSettles | src/StateMachine.cpp:162-182 | when an evaluation of the circuit empties the list, its undelayed, unfiltered units with an output of their own are settled |
| Circuit.StateMachine.OrderIsRank | src/Logic.cpp:161-185 | an order of the units, filtered ones included and loops through delays left aside, ranks the netlist and its foreign receivers |
| Circuit.StateMachine.OrderedEvaluationSettles | src/StateMachine.cpp:157-188 | with such an order of depth up to 10000 every evaluation settles those units, whatever the filtered ones do |
| Circuit.StateMachine.ResultIsGate | src/Logic.cpp:54-87 | a unit of the netlist computes the engine's gate in its loops over the inputs |
| Circuit.StateMachine.VisitBatch | src/StateMachine.cpp:171-177 | visiting a fetched batch is the engine's visit although updates list new signals meanwhile, delayed and filtered units included |
| Circuit.StateMachine.EvaluateState | src/StateMachine.cpp:157-188 | on every wired circuit the handler leaves the state of the engine's evaluation in which delayed and filtered units do what they did, exhausted budget included |
| Builder.Register | src/LogicInput.cpp:79-80 | registering a unit's inputs keeps all units connected and adds this one, at the end of each signal's receivers, once for each input that reads it |
| Builder.Build | src/StateMachine.cpp:22-28 | with the dirty listener installed first, a configuration is refused if and only if some input or output of a unit has no name; otherwise its units become a valid state machine, each as configured, with every signal listed and no result cached |
| Builder.BuiltIsStarted | src/StateMachine.cpp:191-197 | with any queue that holds the first updates, an evaluation and what drives no unit's output, in any order, that machine is where the theorems about runs begin |
| Builder.BuiltDrainsToFixpoint | src/StateMachine.cpp:150-197 | from any such queue on, in a circuit whose units are in order, a drained queue means that its undelayed, unfiltered units with an output of their own are settled |
| RegulatorModel.ApplyLeaves | src/VoltageRegulator.cpp:22-57 | a new level is set in at most two tries, what was read back is announced, ten retries are allowed and the first confirmation is armed after a tenth of the timeout; nothing else changes |
| RegulatorModel.ApplyInForce | src/VoltageRegulator.cpp:22-26 | a level that is in force already is not applied again |
| RegulatorModel.ReportedDoes | src/VoltageRegulator.cpp:123-207 | an error is stored if and only if no change is pending and the regulator is not off, any other status always; undefined counts as on if enabled and as off otherwise; only news is posted, and only the status asked for ends a pending change |
| RegulatorModel.ErrorIsShown | src/VoltageRegulator.cpp:168-196 | over every run an error reported with no change pending to a regulator that is not off is stored, and when the callbacks posted before have run, whatever else happened, its own raises Fault, lowers PowerGood and calls back where that is allowed |
| RegulatorModel.CallbacksInOrder | src/VoltageRegulator.cpp:182-207 | over every run posted callbacks run in the order they were posted |
| RegulatorModel.CallbackShows | src/VoltageRegulator.cpp:53-206 | what each callback leaves on Enabled, PowerGood and Fault, and that errors alone call back |
| RegulatorModel.NetlinkDoes | src/VoltageRegulator.cpp:292-334 | a failure event is an error report first, and an enable or disable event is handled later |
| RegulatorModel.EventHandled | src/VoltageRegulator.cpp:300-331 | after a failure the status is read and the event's bit shown two callbacks later, otherwise at once; contradicting bits show nothing |
| RegulatorModel.StatusReadLater | src/VoltageRegulator.cpp:229-253 | a status found changed is reported, an unchanged one read once more |
| RegulatorModel.ConfirmDoes | src/VoltageRegulator.cpp:79-121 | a confirmation ends the change if state and status are as asked for, else arms the next one after the timeout divided by the retries left, or gives up with an error |
| RegulatorModel.BootDoes | src/VoltageRegulator.cpp:277-288 | which status a regulator boots with, and whether a change is then still pending |
| RegulatorModel.SettlesIff | src/VoltageRegulator.cpp:79-167 | a pending change ends within 11 confirmations for every sequence of reads and events, if and only if the status shadow is not the goal already or the control took the opposite state |
| RegulatorModel.StuckUntilGoalReturns | src/VoltageRegulator.cpp:138-180 | from a stuck change on, over every run without a new one, the flag stays exactly until the goal is stored anew and every error is dropped until then; reporting the goal ends it if and only if another status has reached the shadow |
| RegulatorModel.SwitchingBackGetsStuck | src/VoltageRegulator.cpp:143-167 | a regulator that is on and good, switched off and on again before any change of status, gets stuck |
| RegulatorModel.ElevenConfirmations | src/VoltageRegulator.cpp:102-119 | over every run, with any polls, events and callbacks in between, a change that no confirmation finds done is confirmed exactly 11 times, the last ends it as an error unless the state is off, and its waits add up to the total wait |
| RegulatorModel.TotalWaitBounds | src/VoltageRegulator.cpp:44-116 | the total wait is at most 7633/2520 of the timeout and more than that minus 10, so above the logged twice the timeout |
| RegulatorModel.StepPublishes | src/VoltageRegulator.cpp:123-207 | every step posts exactly the values its status shadow changed to, in order |
| RegulatorModel.BootIsAccounted | src/VoltageRegulator.cpp:277-288 | the constructor never stores an error and starts the accounts balanced |
| RegulatorModel.CallbacksCountErrors | src/VoltageRegulator.cpp:189-195 | over every run, once the queue drains, error callbacks number the transitions of the shadow into error, or none when suppressed |
| RegulatorModel.SignalsShowStatus | src/VoltageRegulator.cpp:182-206 | PowerGood and Fault are never both high, and when drained they show the last OFF, ON or ERROR stored, for every interleaving |
| RegulatorModel.ErrorNeedsSettledOn | src/VoltageRegulator.cpp:154-180 | the shadow enters error only with no change pending and a state other than off |
| Regulator.VoltageRegulator.constructor | src/VoltageRegulator.cpp:255-288 | boots from one state and three status reads, with the default timeout for 0 |
| Regulator.VoltageRegulator.Apply | src/VoltageRegulator.cpp:22-57 | the whole new state: nothing when the level is in force already, else at most two tries, a fresh retry count, the first wait and the read-back announced |
| Regulator.VoltageRegulator.Update | src/VoltageRegulator.cpp:71-77 | any level but 0, an unknown one included, asks for power, and one more `Apply` is posted to the output queue |
| Regulator.VoltageRegulator.RunOutput | src/VoltageRegulator.cpp:74-76 | a posted `Apply` is taken and applies the level asked for last |
| Regulator.VoltageRegulator.ConfirmStatusAfterTimeout | src/VoltageRegulator.cpp:79-121 | the whole new state: a failed confirmation arms the next wait from the remaining retries, the last one ends the change and applies an error |
| Regulator.VoltageRegulator.ApplyStatus | src/VoltageRegulator.cpp:123-207 | the whole new state: which statuses are stored and posted, which end a pending change, and which errors are dropped |
| Regulator.VoltageRegulator.CheckStatus | src/VoltageRegulator.cpp:229-253 | the whole new state: an unchanged status is read once more later, a changed one applied at once |
| Regulator.VoltageRegulator.OnNetlinkEvent | src/VoltageRegulator.cpp:292-334 | a failure is applied before the enable or disable part is posted |
| Regulator.VoltageRegulator.RunPosted | src/VoltageRegulator.cpp:182-334 | takes the oldest callback only, and leaves the signals, the callback count and the queue as that callback must |
| AcpiModel.InterlockHolds | src/ACPIStates.cpp:192-285 | host requested on implies chassis requested on in every state, within handlers too, over every run in which no step starts to turn on what an earlier one is about to turn off, or the reverse, the power-cycle handler's own step included |
| AcpiModel.CurrentIs | src/ACPIStates.cpp:90-119 | for every table: any state signal never driven gives G3, exactly one high its state, none or several invalid |
| AcpiModel.HostRequestDoes | src/ACPIStates.cpp:192-218 | host off lowers host and nothing else; host on raises chassis now and defers host by two hops; other words do nothing |
| AcpiModel.ChassisRequestDoes | src/ACPIStates.cpp:220-285 | chassis off lowers host now and defers chassis by two hops; chassis on, or a cycle in G3, raises chassis and leaves host; any other cycle is a chassis off that arms the timer; other words do nothing |
| AcpiModel.DrainStep | src/ACPIStates.cpp:200-273 | all that the next queued handler changes: a deferred half drives its request, a hop posts what it carries, the power-cycle handler raises chassis and then host in G3 and nothing elsewhere |
| AcpiModel.DrainArrives | src/ACPIStates.cpp:200-273 | when the queue has drained, host is on if a host-on was in flight and chassis off if a chassis-off was, and otherwise they are what they were; a power cycle restarting ends with host on |
| AcpiModel.HostOnArrives | src/ACPIStates.cpp:200-211 | a host-on request ends with host on, and with chassis on if no chassis-off was in flight |
| AcpiModel.ChassisOffArrives | src/ACPIStates.cpp:224-233 | a chassis-off request ends with chassis off, and with host off if no host-on was in flight, unless a power cycle is restarting |
| AcpiModel.EvaluatedDoes | src/ACPIStates.cpp:121-190 | what a reported state does to both timers, the queue and the remembered state; requests stay |
| AcpiModel.IdleHandlerDoes | src/ACPIStates.cpp:160-168 | the idle timer turns off in S5 and does nothing elsewhere |
| AcpiModel.IdleInS5Holds | src/ACPIStates.cpp:121-190 | every step keeps it that the idle timer waits only where configured and while no state but S5 is reported |
| AcpiModel.NoAbortHolds | src/ACPIStates.cpp:179-181 | between handlers no power cycle is waiting in G3: reporting G3 has cancelled it |
| AcpiModel.TidyHolds | src/ACPIStates.cpp:75-285 | in the configuration the program runs with, every reachable queue holds only deferred halves and power-cycle handlers |
| AcpiModel.KeepsIffInv | src/ACPIStates.cpp:192-285 | while no power cycle is restarting, a queue drains with the interlock kept if and only if not both kinds of request are in flight, host-on meets chassis on and chassis-off meets host off |
| AcpiModel.RestartKeepsIff | src/ACPIStates.cpp:256-273 | a power cycle about to restart keeps the interlock if and only if no chassis-off is left at or behind its handler |
| AcpiModel.EvaluationKeepsIff | src/ACPIStates.cpp:179-181 | so an evaluation does, unless it reports G3 to a power cycle with such a chassis-off left |
| AcpiModel.DoneKeepsIff | src/ACPIStates.cpp:260-271 | and the handler's own step, when it finds G3, if and only if no chassis-off is in flight |
| AcpiModel.SafeIffDrainKeeps | src/ACPIStates.cpp:192-273 | a request keeps the interlock until the queue drains if and only if no opposite request is in flight, or, while a power cycle is restarting, it does not ask for chassis off; on-off and off-on overlaps both break it |
| AcpiModel.OffAfterCycleBreaks | src/ACPIStates.cpp:222-273 | a run that breaks it although no request meets an opposite one in flight: power cycle, both down, G3 reported, chassis-off |
| AcpiModel.PowerCycleRuns | src/ACPIStates.cpp:246-274 | over every run of evaluations, callbacks and its timer a power cycle drives host down, chassis down, chassis up, host up or a prefix of it; without a G3 report power stays off; only G3 reported before chassis has fallen makes it raise both first and lower chassis last |
| AcpiModel.PowerCycleCompletes | src/ACPIStates.cpp:246-274 | it goes all the way when G3 is reported once both are down |
| Acpi.ACPIStates.GetCurrent | src/ACPIStates.cpp:90-119 | any unknown state signal gives G3, exactly one high signal its state, none or several invalid, in whatever order the table is walked |
| Acpi.ACPIStates.Update | src/ACPIStates.cpp:121-190 | the whole new state: G3 cancels both timers, which queues the power-cycle handler of a waiting cycle; entering S5 from anything but G3 arms the idle timer where configured; requests stay |
| Acpi.ACPIStates.RequestedHostTransition | src/ACPIStates.cpp:192-218 | off drives host to 0 and leaves chassis; on drives chassis to 1 now and defers host by two hops; both are accepted; an unknown word changes nothing and is refused |
| Acpi.ACPIStates.RequestedPowerTransition | src/ACPIStates.cpp:220-285 | off drives host to 0 now and defers chassis by two hops; on, and cycling from G3, drives chassis to 1 and leaves host; cycling elsewhere is off with the timer armed; an unknown word changes nothing and is refused |
| Acpi.ACPIStates.PowerCycleExpires | src/ACPIStates.cpp:256-260 | the expired wait is over and its handler stands last in the queue |
| Acpi.ACPIStates.IdleExpires | src/ACPIStates.cpp:159-168 | likewise for the idle wait |
| Acpi.ACPIStates.RunPosted | src/ACPIStates.cpp:160-273 | deferred halves and expired or cancelled timers run in queue order |
| PowerOrder.OpeningIsRequest | src/ACPIStates.cpp:202-232 | the queued handler used for the ordering theorem leaves the same request levels and the same deferred half as the sequencer |
| PowerOrder.EvaluatedInBetween | src/ACPIStates.cpp:200-233 | chassis falls only after an evaluation that saw host low, and host rises only after one that saw chassis high, unless that level had been evaluated before or a handler already queued drives it back |
| PchRails.NetIsRanked | config/sbp1/pch.yaml:98-192 | the rail units have single drivers and form four layers but for the fault hold |
| PchRails.RailsAtFixpoint | config/sbp1/pch.yaml:98-158 | what each rail is told, in terms of chassis, reset, the other rails, the CPU rails, the latch and dummies |
| PchRails.MonitorsAtFixpoint | config/sbp1/pch.yaml:160-181 | the fault signal is high if and only if some rail is in fault, the off signal if and only if no rail is enabled, good or in fault |
| PchRails.DummyAtFixpoint | config/sbp1/pch.yaml:371-379 | the dummy signal is high if and only if one of the four regulators is a dummy |
| PchRails.AnswerKeepsChainIff | config/sbp1/pch.yaml:98-158 | an answer that follows the commands keeps the order of the rails if and only if it is not the reset race |
| PchRails.RailsInOrder | config/sbp1/pch.yaml:98-158 | over every run with RTCRST low or one source changing at a time, up and down, p1v05 good implies p1v8 good implies p3v3 good, and CPU rails need p1v05 |
| PchRails.ResetRaceBreaksChain | config/sbp1/pch.yaml:98-133 | with RTCRST high, p3v3 good and p1v8 coming up, both rails obeying before the next evaluation leave p1v8 good without p3v3 |
| PchRails.CommandsFollowChain | config/sbp1/pch.yaml:98-158 | a rail is told to come up only with the one before it good and to go down only with the one behind it gone; after a fault or with a dummy none is told to come up |
| PchRails.EarlyCpuBreaksChain | config/sbp1/pch.yaml:147-156 | a CPU rail on while p1v05 is not good switches p1v05 on before p1v8 |
| PchRails.LatchAtFixpoint | config/sbp1/pch.yaml:160-192 | any rail's own fault is latched, and the latch is open once all rails are off and none is in fault |
| PchRails.FaultStopsRails | config/sbp1/pch.yaml:98-192 | a rail's own fault switches every rail off that the one behind it does not need |
| PchRails.LatchStays | config/sbp1/pch.yaml:160-192 | as long as a rail is enabled or good no evaluation clears the latch, faults gone or not |

## Left out

- D-Bus, libgpiod, netlink sockets, sysfs files and asio: foreign calls; what they deliver is arbitrary, and the D-Bus properties shown by `ACPIStates::Update` are single branches.
- Configuration files (src/Config.cpp): reading and merging them; `Builder` starts from decoded units.
- GPIO inputs and outputs, LEDs, log outputs and the null drivers: a receiver that changes no signal at once is a `Sink`. Gating of GPIO inputs has no clean invariant, since it is decided when the update is posted.
- Logging, tracing, `PrintSignals`, the one-second poll timer of a regulator (each poll is one more reported status) and a regulator's dummy signal.
- The C++ memory model and the mutexes: handlers are atomic steps, those of the output thread too. A timer handler that had expired already when its timer was cancelled or re-armed is modelled for the ACPI timers only.
- `SignalProvider::ClearDirty` and `Signal::ClearDirty` called on their own, outside a fetch, would break the agreement of bits and list; nothing in the repository calls them so.
- Circuit.SignalProvider.Add: promises a valid provider for a new name only, which is how its one caller `FindOrAdd` uses it; for a known name the entry is replaced and the old signal leaks.
- Circuit.SignalProvider.Validate: walks the names in an arbitrary order; the source's hash order decides which of several offenders is named.
- Builder.Build: builds the units only; drivers, immutable signals and receivers that change no signal are added by other constructors.
- Convergence.LoopEnds: assumes that filtered units rank above what they are notified by; a loop through filters without a delay has no depth.
- Circuit.StateMachine.EvaluateState: has one clock reading per handler where the source reads the clock in every `GetLevel`, `SetLevel` and `Update`; and its record says what filtered units did, but only `LogicInput.Update` says that this was the result of their filtered gates.
- Circuit.StateMachine.VisitBatch: the same.
- Circuit.Signal.UpdateReceivers: the same.
- IoQueue.RunConsistent: assumes evaluations that end on an empty list, without which an update can be lost; `IoQueue.RankedEndsEmpty` gives them for circuits in order.
- DelayLine.ShownInOrderAndNotEarly: assumes no overwritten entry; past 100 queued changes the oldest is lost and the old deadline reused.
- StableFilter.FilterIsDebounce: assumes timers that fire on time and evaluations within the stability time.
- AcpiModel.SafeIffDrainKeeps: assumes that no handler of the idle timer is queued that is going to act; `AcpiModel.TidyHolds` shows that there is none in the configuration the program runs with. `AcpiModel.InterlockHolds` allows it, under a condition on its step that is not shown to be necessary.
- AcpiModel.EvaluationKeepsIff: for that configuration only.
- AcpiModel.PowerCycleRuns: for the configuration the program runs with, without power-off of an idle host, and with no further request meanwhile.
- PowerOrder.OpeningIsRequest: leaves out the power-cycle handler that the request's own `Update` queues if a cycle is waiting in G3, which `AcpiModel.NoAbortHolds` excludes.
- PowerOrder.EvaluatedInBetween: asks that no handler already queued drives the signal requested first, which could take the level back before it is evaluated.
- PchRails.RailsInOrder: input filters are 0, the board's other units are sources, regulators follow their commands and CPU rails come on only with p1v05 good. With filters a request dropped within the 100 usec window breaks the order.
- The remaining boards, the CPU rails' own units and the RSMRST and p5v units: more units of the same kind.
- How long the idle timer waits, and that a waiting one starts anew on S5: a timer that waits is all that is modelled.
