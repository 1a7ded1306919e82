/**
 * The control unit's program state machine (controlunit/engine/fsm_controller.go). A program
 * starts, waits for fresh sensor readings, preheats the oven to the wood's temperature, then
 * runs its steps in order (heat up, acclimate, cool down) and ends idle, with all power off.
 * Power commands sent to the power unit are recorded in order; the clock of a tick is an
 * explicit parameter.
 */
module ControlUnitFsm {
  import opened Wrappers
  import opened ProgramTypes
  import opened ApiTypes
  import opened ControlUnitPower

  /** The handler states; `Unset` is the state before `Start` is first called. */
  datatype FsmState = Unset | StartState | NextProgramStep | Idle | Waiting | PreHeat | HeatUp | AcclimateState | CoolDown | Failed

  /** The power unit outputs, addressed as "heater", "fan" and "humidifier". */
  datatype Psu = OvenPsu | FanPsu | HumidifierPsu

  datatype PowerCommand = PowerCommand(psu: Psu, percent: Uint8)

  datatype Temperatures = Temperatures(oven: real, material: real)

  datatype PsuReadings = PsuReadings(heater: Uint8, fan: Uint8, humidifier: Uint8)

  /** A sensor reading and the clock at which it was received. */
  datatype TemperatureSnapshot = TemperatureSnapshot(updated: int, reading: Temperatures)

  datatype PsuSnapshot = PsuSnapshot(updated: int, reading: PsuReadings)

  /** The controller's state apart from its power controllers. */
  datatype Machine = Machine(
    state: FsmState,
    started: int,
    stopped: int,
    steps: seq<ProgramStep>,
    step: int,
    stepStarted: int,
    psuStatus: PsuSnapshot,
    temperatures: TemperatureSnapshot)

  const NanosecondsPerSecond := 1_000_000_000

  /** `int64(runtime.Seconds())`: whole seconds, truncated toward zero. */
  function RuntimeSeconds(ns: int): (r: int)
    ensures 0 <= ns ==> r * NanosecondsPerSecond <= ns < (r + 1) * NanosecondsPerSecond
    ensures ns < 0 ==> -r * NanosecondsPerSecond <= -ns < (-r + 1) * NanosecondsPerSecond
  {
    if ns >= 0 then ns / NanosecondsPerSecond else -((-ns) / NanosecondsPerSecond)
  }

  /** The `stepToState` map; an unknown type has no state. */
  function StateOfType(t: StepType): Option<FsmState> {
    match t
    case Heating => Some(HeatUp)
    case Acclimate => Some(AcclimateState)
    case Cooling => Some(CoolDown)
    case OtherStep(_) => None
  }

  predicate Running(s: FsmState) {
    s == HeatUp || s == AcclimateState || s == CoolDown
  }

  predicate IsCompleted(s: FsmState) {
    s == Failed || s == Idle
  }

  /**
   * A step the state machine can run without dereferencing a missing value: a known type,
   * the three settings present and usable, and a runtime for acclimate.
   */
  predicate RunnableStep(s: ProgramStep) {
    StateOfType(s.stepType).Some? && SettingsPresent(s) &&
    Usable(s.heater.value) && Usable(s.fan.value) && Usable(s.humidifier.value) &&
    (s.stepType == Acclimate ==> s.runtime.Some?)
  }

  predicate AllRunnable(steps: seq<ProgramStep>) {
    forall i :: 0 <= i < |steps| ==> RunnableStep(steps[i])
  }

  /** A step that passes validation can be run once validation has recorded its settings' types. */
  lemma ValidatedStepRunnable(s: ProgramStep)
    requires SettingsPresent(s) && StepAccepted(s)
    ensures ValidateStep(s).error.None? && RunnableStep(ValidateStep(s).value)
  {
    ValidatedUsable(s.fan.value, "fan");
    ValidatedUsable(s.humidifier.value, "humidifier");
    ValidatedUsable(s.heater.value, "heater");
  }

  /**
   * The router starts the engine only with a program whose defaults were applied and which then
   * validated without error; the validated steps are all runnable, as `Start` requires.
   */
  lemma AcceptedProgramRunnable(pre: seq<ProgramStep>, validated: seq<ProgramStep>)
    requires AllPresent(pre) && ProgramError(true, pre).None?
    requires |validated| == |pre| && forall i :: 0 <= i < |pre| ==> validated[i] == ValidateStep(pre[i]).value
    ensures AllRunnable(validated)
  {
    ProgramAccepted(true, pre);
    forall i | 0 <= i < |validated|
      ensures RunnableStep(validated[i])
    {
      ValidatedStepRunnable(pre[i]);
    }
  }

  /** The bounds on `step` each state keeps, once the program has left the start state. */
  predicate Consistent(m: Machine) {
    AllRunnable(m.steps) &&
    (m.state != Unset && m.state != StartState ==> -1 <= m.step <= |m.steps|) &&
    (m.state == Waiting || m.state == PreHeat ==> m.step == -1) &&
    (m.state == NextProgramStep ==> m.step < |m.steps|) &&
    (m.state == Idle ==> m.step == |m.steps|) &&
    (Running(m.state) ==> 0 <= m.step < |m.steps| && StateOfType(m.steps[m.step].stepType) == Some(m.state))
  }

  /** The step being run, in a running state. */
  function CurrentStep(m: Machine): ProgramStep
    requires Consistent(m) && Running(m.state)
  {
    m.steps[m.step]
  }

  /** Whether a running step's exit condition holds at clock `now`. */
  predicate StepDone(m: Machine, now: int)
    requires Consistent(m) && Running(m.state)
  {
    var s := CurrentStep(m);
    match m.state
    case HeatUp => m.temperatures.reading.material >= s.targetTemperature as real
    case AcclimateState => now - m.stepStarted >= RuntimeSeconds(s.runtime.value)
    case CoolDown =>
      (s.runtime.Some? && now - m.stepStarted >= RuntimeSeconds(s.runtime.value)) ||
      (s.targetTemperature != 0 && m.temperatures.reading.material <= s.targetTemperature as real)
    case _ => false
  }

  /** `executeState` of the current state's handler: the state it asks for and what it updates. */
  function Execute(m: Machine, now: int, psu: PsuSnapshot, temps: TemperatureSnapshot): Machine
    requires Consistent(m) && m.state != Unset
  {
    match m.state
    case StartState => m.(state := Waiting)
    case Waiting =>
      if psu.updated >= m.started && temps.updated >= m.started then m.(state := PreHeat) else m
    case PreHeat =>
      if temps.reading.oven < temps.reading.material then m else m.(state := NextProgramStep)
    case NextProgramStep =>
      var n := m.step + 1;
      if n >= |m.steps| then m.(step := n, state := Idle)
      else m.(step := n, stepStarted := now, state := StateOfType(m.steps[n].stepType).value)
    case Idle => m
    case Failed => m
    case Unset => m
    case HeatUp | AcclimateState | CoolDown => RunningNext(m, now, temps)
  }

  /** The running states' `executeState`: leave when done, else mark a new enough reading as used. */
  function RunningNext(m: Machine, now: int, temps: TemperatureSnapshot): Machine
    requires Consistent(m) && Running(m.state)
  {
    if StepDone(m, now) then m.(state := NextProgramStep)
    else if temps.updated >= m.temperatures.updated then m.(temperatures := m.temperatures.(updated := temps.updated))
    else m
  }

  /** `shutdown`: records the clock only the first time. */
  function PowerOff(m: Machine, now: int): Machine {
    if m.stopped == 0 then m.(stopped := now) else m
  }

  /** `enterState` of the state just entered (the power controllers are not part of `Machine`). */
  function Enter(m: Machine, now: int): Machine {
    match m.state
    case StartState => m.(started := now, stopped := 0)
    case Waiting => m.(step := -1)
    case NextProgramStep => m.(stepStarted := now)
    case Idle => PowerOff(m, now)
    case Failed => PowerOff(m, now)
    case _ => m
  }

  /**
   * `executeTick`: nothing once completed; otherwise the handler runs, a changed state resets
   * `stepStarted` and is entered, and the sensor snapshots are taken for the next tick.
   */
  function Tick(m: Machine, now: int, psu: PsuSnapshot, temps: TemperatureSnapshot): Machine
    requires Consistent(m) && m.state != Unset
  {
    if IsCompleted(m.state) then m
    else Settle(Execute(m, now, psu, temps), m.state, now).(psuStatus := psu, temperatures := temps)
  }

  /**
   * A tick of a program that has not completed is its handler `e`, then the entry of a new
   * state `x`, then the snapshots.
   */
  lemma TickByParts(m: Machine, now: int, psu: PsuSnapshot, temps: TemperatureSnapshot, e: Machine, x: Machine)
    requires Consistent(m) && m.state != Unset && !IsCompleted(m.state)
    requires e == Execute(m, now, psu, temps) && x == Settle(e, m.state, now)
    ensures Tick(m, now, psu, temps) == x.(psuStatus := psu, temperatures := temps) && Consistent(x)
  {
    TickConsistent(m, now, psu, temps);
  }

  /** The commands of such a tick: the handler's (the power controllers' `power` when they run), then those of the entry. */
  lemma TickCommandsByParts(m: Machine, now: int, psu: PsuSnapshot, temps: TemperatureSnapshot, e: Machine,
                            before: seq<PowerCommand>, power: seq<PowerCommand>)
    requires Consistent(m) && m.state != Unset && !IsCompleted(m.state)
    requires e == Execute(m, now, psu, temps)
    ensures e.stopped == m.stopped
    ensures before + (if UpdatesPower(m, now, temps) then power else TickCommands(m, now, psu, temps)) ==
      before + (if UpdatesPower(m, now, temps) then power else ExecuteCommands(m, temps)) +
      (if e.state != m.state then EnterCommands(e.state, m.stopped) else [])
  {
    var handler := if UpdatesPower(m, now, temps) then power else ExecuteCommands(m, temps);
    var entry := if e.state != m.state then EnterCommands(e.state, m.stopped) else [];
    if UpdatesPower(m, now, temps) {
      assert e.state == m.state;
    }
    assert before + handler + entry == before + (handler + entry);
  }

  /** After a handler ran in state `previous`: a different state resets the step's start and is entered. */
  function Settle(e: Machine, previous: FsmState, now: int): Machine {
    if e.state != previous then Enter(e.(stepStarted := now), now) else e
  }

  /** The commands a tick sends that do not come from the power controllers. */
  function TickCommands(m: Machine, now: int, psu: PsuSnapshot, temps: TemperatureSnapshot): seq<PowerCommand>
    requires Consistent(m) && m.state != Unset
  {
    if IsCompleted(m.state) then []
    else
      var next := Execute(m, now, psu, temps).state;
      ExecuteCommands(m, temps) + (if next == m.state then [] else EnterCommands(next, m.stopped))
  }

  /** The command preheat sends: the heater to 100 while the oven is colder than the wood and the heater was off. */
  function ExecuteCommands(m: Machine, temps: TemperatureSnapshot): seq<PowerCommand> {
    if m.state == PreHeat && temps.reading.oven < temps.reading.material && m.psuStatus.reading.heater == 0
    then [PowerCommand(OvenPsu, 100)] else []
  }

  /** The commands entering a state sends: the fan at 50 for preheat, everything off when the program ends. */
  function EnterCommands(s: FsmState, stopped: int): seq<PowerCommand> {
    if s == PreHeat then [PowerCommand(FanPsu, 50)]
    else if IsCompleted(s) && stopped == 0 then AllOff
    else []
  }

  const AllOff := [PowerCommand(OvenPsu, 0), PowerCommand(FanPsu, 0), PowerCommand(HumidifierPsu, 0)]

  /** Whether a tick runs the power controllers: a running step that is not done, with a reading not older than the last. */
  predicate UpdatesPower(m: Machine, now: int, temps: TemperatureSnapshot)
    requires Consistent(m)
  {
    Running(m.state) && !StepDone(m, now) && temps.updated >= m.temperatures.updated
  }

  /** Every tick keeps the bounds on `step`, and never returns to the start state. */
  lemma TickConsistent(m: Machine, now: int, psu: PsuSnapshot, temps: TemperatureSnapshot)
    requires Consistent(m) && m.state != Unset
    ensures Consistent(Tick(m, now, psu, temps)) && Tick(m, now, psu, temps).steps == m.steps
    ensures Tick(m, now, psu, temps).state != Unset && Tick(m, now, psu, temps).state != StartState
  {
    if m.state == NextProgramStep {
      NextStepConsistent(m, now, psu, temps);
    } else if Running(m.state) {
      RunningConsistent(m, now, psu, temps);
    }
  }

  lemma NextStepConsistent(m: Machine, now: int, psu: PsuSnapshot, temps: TemperatureSnapshot)
    requires Consistent(m) && m.state == NextProgramStep
    ensures Consistent(Tick(m, now, psu, temps)) && Tick(m, now, psu, temps).steps == m.steps
    ensures Tick(m, now, psu, temps).state != Unset && Tick(m, now, psu, temps).state != StartState
  {
    var n := m.step + 1;
    if n >= |m.steps| {
      assert Tick(m, now, psu, temps) ==
        PowerOff(m.(step := n, state := Idle, stepStarted := now), now).(psuStatus := psu, temperatures := temps);
    } else {
      var next := StateOfType(m.steps[n].stepType).value;
      assert Tick(m, now, psu, temps) == m.(step := n, stepStarted := now, state := next, psuStatus := psu, temperatures := temps);
    }
  }

  lemma RunningConsistent(m: Machine, now: int, psu: PsuSnapshot, temps: TemperatureSnapshot)
    requires Consistent(m) && Running(m.state)
    ensures Consistent(Tick(m, now, psu, temps)) && Tick(m, now, psu, temps).steps == m.steps
    ensures Tick(m, now, psu, temps).state != Unset && Tick(m, now, psu, temps).state != StartState
  {
    var r := Tick(m, now, psu, temps);
    assert r.step == m.step && r.steps == m.steps;
  }

  /**
   * A completed program does not change; otherwise the snapshots are taken, and a change of
   * state, and only that, resets the step's start.
   */
  lemma TickTiming(m: Machine, now: int, psu: PsuSnapshot, temps: TemperatureSnapshot)
    requires Consistent(m) && m.state != Unset
    ensures var r := Tick(m, now, psu, temps);
      (IsCompleted(m.state) ==> r == m) &&
      (!IsCompleted(m.state) ==> r.psuStatus == psu && r.temperatures == temps) &&
      (r.state != m.state ==> r.stepStarted == now) &&
      (r.state == m.state ==> r.stepStarted == m.stepStarted && r.step == m.step && r.started == m.started && r.stopped == m.stopped)
  {
  }

  /** The start state always moves to waiting, which sets `step` to -1. */
  lemma StartMovesToWaiting(m: Machine, now: int, psu: PsuSnapshot, temps: TemperatureSnapshot)
    requires Consistent(m) && m.state == StartState
    ensures var r := Tick(m, now, psu, temps);
      r.state == Waiting && r.step == -1 && r.started == m.started && r.stopped == m.stopped
  {
  }

  /** Waiting moves to preheat exactly when both sensors have reported since the program started. */
  lemma WaitingNeedsFreshReadings(m: Machine, now: int, psu: PsuSnapshot, temps: TemperatureSnapshot)
    requires Consistent(m) && m.state == Waiting
    ensures var r := Tick(m, now, psu, temps);
      (r.state == PreHeat <==> psu.updated >= m.started && temps.updated >= m.started) &&
      (r.state == Waiting || r.state == PreHeat) && r.step == -1
  {
  }

  /** Preheat lasts while the oven is colder than the wood, then the first step is taken. */
  lemma PreHeatUntilOvenWarm(m: Machine, now: int, psu: PsuSnapshot, temps: TemperatureSnapshot)
    requires Consistent(m) && m.state == PreHeat
    ensures var r := Tick(m, now, psu, temps);
      (r.state == PreHeat <==> temps.reading.oven < temps.reading.material) &&
      (r.state == PreHeat || r.state == NextProgramStep) &&
      (TickCommands(m, now, psu, temps) ==
        if temps.reading.oven < temps.reading.material
        then (if m.psuStatus.reading.heater == 0 then [PowerCommand(OvenPsu, 100)] else [])
        else [])
  {
  }

  /**
   * The next step is taken in one tick: past the last step the program is idle and powered
   * off (if it was not already stopped); otherwise the step type chooses the state.
   */
  lemma NextStepChosen(m: Machine, now: int, psu: PsuSnapshot, temps: TemperatureSnapshot)
    requires Consistent(m) && m.state == NextProgramStep
    ensures var r := Tick(m, now, psu, temps);
      r.step == m.step + 1 && r.stepStarted == now &&
      (r.step == |m.steps| ==>
        r.state == Idle && r.stopped == (if m.stopped == 0 then now else m.stopped) &&
        TickCommands(m, now, psu, temps) == (if m.stopped == 0 then AllOff else [])) &&
      (r.step < |m.steps| ==>
        Some(r.state) == StateOfType(m.steps[r.step].stepType) && r.stopped == m.stopped &&
        TickCommands(m, now, psu, temps) == [])
  {
  }

  /**
   * A running step ends exactly when its exit condition holds: heating at the target,
   * acclimate after its runtime, cooling after its runtime or at a non-zero target.
   */
  lemma RunningStepExits(m: Machine, now: int, psu: PsuSnapshot, temps: TemperatureSnapshot)
    requires Consistent(m) && Running(m.state)
    ensures var r := Tick(m, now, psu, temps);
      var s := m.steps[m.step];
      (r.state == NextProgramStep || r.state == m.state) &&
      (m.state == HeatUp ==> (r.state == NextProgramStep <==> m.temperatures.reading.material >= s.targetTemperature as real)) &&
      (m.state == AcclimateState ==> (r.state == NextProgramStep <==> now - m.stepStarted >= RuntimeSeconds(s.runtime.value))) &&
      (m.state == CoolDown ==>
        (r.state == NextProgramStep <==>
          (s.runtime.Some? && now - m.stepStarted >= RuntimeSeconds(s.runtime.value)) ||
          (s.targetTemperature != 0 && m.temperatures.reading.material <= s.targetTemperature as real))) &&
      r.step == m.step && TickCommands(m, now, psu, temps) == []
  {
  }

  /** Shutting down twice is shutting down once (at a non-zero clock). */
  lemma ShutdownIdempotent(m: Machine, t1: int, t2: int)
    requires t1 != 0
    ensures PowerOff(PowerOff(m, t1), t2) == PowerOff(m, t1)
    ensures PowerOff(m, t1).stopped != 0
  {
  }

  /** A sequence of ticks, each with its own clock and sensor snapshots. */
  datatype TickInput = TickInput(now: int, psu: PsuSnapshot, temps: TemperatureSnapshot)

  function Run(m: Machine, ticks: seq<TickInput>): (r: Machine)
    requires Consistent(m) && m.state != Unset
    ensures Consistent(r) && r.state != Unset
    decreases |ticks|
  {
    if ticks == [] then m
    else
      TickConsistent(m, ticks[0].now, ticks[0].psu, ticks[0].temps);
      Run(Tick(m, ticks[0].now, ticks[0].psu, ticks[0].temps), ticks[1..])
  }

  /** One tick never moves `step` back. */
  lemma TickStepNeverDecreases(m: Machine, now: int, psu: PsuSnapshot, temps: TemperatureSnapshot)
    requires Consistent(m) && m.state != Unset && m.state != StartState
    ensures Tick(m, now, psu, temps).step >= m.step
  {
    if !IsCompleted(m.state) {
      var e := Execute(m, now, psu, temps);
      assert e.step >= m.step;
      assert e.state == Waiting ==> m.state == Waiting;
      assert Settle(e, m.state, now).step >= m.step;
    }
  }

  /** After the start state, `step` never goes back: the steps are run in order, each at most once. */
  lemma {:induction false} RunStepNeverDecreases(m: Machine, ticks: seq<TickInput>)
    requires Consistent(m) && m.state != Unset && m.state != StartState
    ensures Run(m, ticks).step >= m.step
    ensures IsCompleted(m.state) ==> Run(m, ticks) == m
    decreases |ticks|
  {
    if ticks != [] {
      var next := Tick(m, ticks[0].now, ticks[0].psu, ticks[0].temps);
      TickConsistent(m, ticks[0].now, ticks[0].psu, ticks[0].temps);
      TickStepNeverDecreases(m, ticks[0].now, ticks[0].psu, ticks[0].temps);
      RunStepNeverDecreases(next, ticks[1..]);
    }
  }

  /** `int8(percent)`: values above 127 wrap to negative numbers. */
  function Int8(x: Uint8): (r: int)
    ensures -128 <= r < 128 && (r - x) % 256 == 0
  {
    if x < 128 then x else x - 256
  }

  /** The step name `UpdateStatus` publishes. */
  function StepLabel(steps: seq<ProgramStep>, step: int): string {
    if 0 <= step < |steps| then steps[step].name
    else if step < 0 then "Initializing"
    else "Completed"
  }

  /** `UpdateStatus`: the status fields the state machine owns, taken from its state and last snapshots. */
  function Status(m: Machine, status: ExecutionStatus): (r: ExecutionStatus) {
    status.(
      startedAt := m.started,
      currentStepStartedAt := m.stepStarted,
      currentStep := StepLabel(m.steps, m.step),
      temperatures := TemperatureStatus(m.temperatures.reading.material, m.temperatures.reading.oven),
      powerStatus := PsuStatus(Int8(m.psuStatus.reading.heater), Int8(m.psuStatus.reading.fan), Int8(m.psuStatus.reading.humidifier)))
  }

  /**
   * The published step is the running step's name while a step runs, "Initializing" while
   * waiting or preheating, and "Completed" once idle; power levels up to 100 are shown as read.
   */
  lemma StatusLabelByState(m: Machine, status: ExecutionStatus)
    requires Consistent(m)
    ensures var r := Status(m, status);
      (Running(m.state) ==> r.currentStep == m.steps[m.step].name) &&
      (m.state == Waiting || m.state == PreHeat ==> r.currentStep == "Initializing") &&
      (m.state == Idle ==> r.currentStep == "Completed") &&
      (m.psuStatus.reading.heater <= 100 ==> r.powerStatus.heater == m.psuStatus.reading.heater) &&
      (m.psuStatus.reading.heater > 127 ==> r.powerStatus.heater == m.psuStatus.reading.heater - 256)
  {
  }

  /** The fixed power a step sets for an optional setting, 0 when it has none. */
  function FixedPower(p: Option<PowerPidSettings>): Uint8 {
    if p.Some? && p.value.power.Some? then p.value.power.value else 0
  }

  /** The three controllers exist, were made for step `s`, and do not share a PID. */
  predicate ControllersFor(s: ProgramStep, heater: PowerController?, fan: PowerController?, humidifier: PowerController?)
    requires RunnableStep(s)
  {
    heater != null && fan != null && humidifier != null &&
    heater.targetTemperature == s.targetTemperature as real && heater.settings == s.heater.value &&
    fan.targetTemperature == 0.0 && fan.settings == s.fan.value &&
    humidifier.targetTemperature == 0.0 && humidifier.settings == s.humidifier.value &&
    heater.Ready() && fan.Ready() && humidifier.Ready() &&
    (heater.pidController != null ==>
      heater.pidController != fan.pidController && heater.pidController != humidifier.pidController) &&
    (fan.pidController != null ==> fan.pidController != humidifier.pidController)
  }

  /** The PID controller a power controller owns, if any. */
  function PidsOf(c: PowerController?): set<PidController> {
    if c != null && c.pidController != null then {c.pidController} else {}
  }

  /** The controller's invariant: consistent bounds, the step count, and the running step's controllers. */
  predicate Wellformed(m: Machine, numberOfSteps: int, heater: PowerController?, fan: PowerController?, humidifier: PowerController?) {
    Consistent(m) && numberOfSteps == |m.steps| &&
    (Running(m.state) ==> ControllersFor(m.steps[m.step], heater, fan, humidifier))
  }

  /** The sensor snapshots play no part in the invariant. */
  lemma WellformedIgnoresReadings(m: Machine, n: int, heater: PowerController?, fan: PowerController?, humidifier: PowerController?,
                                  psu: PsuSnapshot, temps: TemperatureSnapshot)
    requires Wellformed(m, n, heater, fan, humidifier)
    ensures Wellformed(m.(psuStatus := psu, temperatures := temps), n, heater, fan, humidifier)
  {
  }

  /** `programFSMController`, with one set of power controllers shared by the three running states. */
  class ProgramFsmController {
    var state: FsmState
    var started: int
    var stopped: int
    var steps: seq<ProgramStep>
    var numberOfSteps: int
    var step: int
    var stepStarted: int
    var psuStatus: PsuSnapshot
    var temperatures: TemperatureSnapshot
    var heaterPower: PowerController?
    var fanPower: PowerController?
    var humidifierPower: PowerController?
    /** The power commands sent so far, oldest first. */
    var commands: seq<PowerCommand>

    ghost function View(): Machine
      reads this
    {
      Machine(state, started, stopped, steps, step, stepStarted, psuStatus, temperatures)
    }

    ghost predicate Valid()
      reads this
    {
      Wellformed(View(), numberOfSteps, heaterPower, fanPower, humidifierPower)
    }

    /** The PID controllers a tick may advance. */
    ghost function Pids(): set<PidController>
      reads this
    {
      PidsOf(heaterPower) + PidsOf(fanPower) + PidsOf(humidifierPower)
    }

    constructor ()
      ensures state == Unset && steps == [] && numberOfSteps == 0 && step == 0 && commands == []
      ensures started == 0 && stopped == 0 && heaterPower == null && fanPower == null && humidifierPower == null
    {
      state := Unset;
      started := 0;
      stopped := 0;
      steps := [];
      numberOfSteps := 0;
      step := 0;
      stepStarted := 0;
      psuStatus := PsuSnapshot(0, PsuReadings(0, 0, 0));
      temperatures := TemperatureSnapshot(0, Temperatures(0.0, 0.0));
      heaterPower := null;
      fanPower := null;
      humidifierPower := null;
      commands := [];
    }

    /** `Completed`: the state is failed or idle. */
    function Completed(): (r: bool)
      reads this
      ensures r <==> state == Failed || state == Idle
    {
      state == Failed || state == Idle
    }

    /** `Failed`. */
    function HasFailed(): (r: bool)
      reads this
      ensures r <==> state == Failed
    {
      state == Failed
    }

    /**
     * `Start`: takes the program, enters the start state (recording the start and clearing
     * `stopped`); `step` is left as it was until waiting is entered.
     */
    method Start(program: seq<ProgramStep>, now: int)
      requires AllRunnable(program)
      modifies this
      ensures Valid()
      ensures View() == old(View()).(state := StartState, steps := program, started := now, stopped := 0)
      ensures numberOfSteps == |program| && commands == old(commands)
    {
      steps := program;
      state := StartState;
      numberOfSteps := |program|;
      EnterState(now);
    }

    /** `shutdown`: the first call records the clock and turns the three outputs off; later calls do nothing. */
    method Shutdown(now: int)
      modifies this
      ensures View() == PowerOff(old(View()), now)
      ensures commands == old(commands) + (if old(stopped) == 0 then AllOff else [])
      ensures heaterPower == old(heaterPower) && fanPower == old(fanPower) && humidifierPower == old(humidifierPower)
      ensures numberOfSteps == old(numberOfSteps)
    {
      if stopped == 0 {
        stopped := now;
        commands := commands + [PowerCommand(OvenPsu, 0)];
        commands := commands + [PowerCommand(FanPsu, 0)];
        commands := commands + [PowerCommand(HumidifierPsu, 0)];
      }
    }

    /** `enterState` of the current state; the running states create their power controllers for the current step. */
    method EnterState(now: int)
      requires numberOfSteps == |steps| && AllRunnable(steps)
      requires Running(state) ==> 0 <= step < |steps|
      modifies this
      ensures View() == Enter(old(View()), now) && numberOfSteps == old(numberOfSteps)
      ensures commands == old(commands) + EnterCommands(old(state), old(stopped))
      ensures Running(state) ==>
        ControllersFor(steps[step], heaterPower, fanPower, humidifierPower) && fresh(heaterPower) && fresh(fanPower) && fresh(humidifierPower)
      ensures !Running(state) ==>
        heaterPower == old(heaterPower) && fanPower == old(fanPower) && humidifierPower == old(humidifierPower)
    {
      if Running(state) {
        CreateControllers();
      } else if IsCompleted(state) {
        Shutdown(now);
      } else {
        EnterEarly(now);
      }
    }

    /** The entry of the states before the steps run: start, waiting, preheat and the step switch. */
    method EnterEarly(now: int)
      requires !Running(state) && !IsCompleted(state)
      modifies this
      ensures View() == Enter(old(View()), now) && numberOfSteps == old(numberOfSteps)
      ensures commands == old(commands) + EnterCommands(old(state), old(stopped))
      ensures heaterPower == old(heaterPower) && fanPower == old(fanPower) && humidifierPower == old(humidifierPower)
    {
      match state
      case StartState =>
        started := now;
        stopped := 0;
      case Waiting =>
        step := -1;
      case PreHeat =>
        commands := commands + [PowerCommand(FanPsu, 50)];
      case NextProgramStep =>
        stepStarted := now;
      case Unset =>
    }

    /** The running states' entry: new power controllers for the current step (the heater aims at its target). */
    method CreateControllers()
      requires 0 <= step < |steps| && RunnableStep(steps[step])
      modifies this
      ensures View() == old(View()) && numberOfSteps == old(numberOfSteps) && commands == old(commands)
      ensures ControllersFor(steps[step], heaterPower, fanPower, humidifierPower) && fresh(heaterPower) && fresh(fanPower) && fresh(humidifierPower)
    {
      var s := steps[step];
      fanPower := new PowerController(0.0, s.fan.value);
      heaterPower := new PowerController(s.targetTemperature as real, s.heater.value);
      humidifierPower := new PowerController(0.0, s.humidifier.value);
    }

    /**
     * The commands the running states' power update sends, from the current state: heater,
     * fan and humidifier, each controller fed with the last snapshot's oven and wood readings.
     */
    ghost function PowerCommands(now: int): seq<PowerCommand>
      requires Valid() && Running(state)
      reads this, Pids()
    {
      var s := steps[step];
      var oven := temperatures.reading.oven;
      var wood := temperatures.reading.material;
      [PowerCommand(OvenPsu, heaterPower.Response(s.targetTemperature, oven, wood, now)),
       PowerCommand(FanPsu, fanPower.Response(FixedPower(s.fan), oven, wood, now)),
       PowerCommand(HumidifierPsu, humidifierPower.Response(FixedPower(s.humidifier), oven, wood, now))]
    }

    /** The running states' power update: the heater, fan and humidifier commands, in that order. */
    method UpdatePower(now: int) returns (sent: seq<PowerCommand>)
      requires Valid() && Running(state)
      modifies Pids()
      ensures sent == old(PowerCommands(now))
    {
      var s := steps[step];
      var oven := temperatures.reading.oven;
      var wood := temperatures.reading.material;
      var heater := heaterPower.Update(s.targetTemperature, oven, wood, now);
      var fan := fanPower.Update(FixedPower(s.fan), oven, wood, now);
      var humidifier := humidifierPower.Update(FixedPower(s.humidifier), oven, wood, now);
      sent := [PowerCommand(OvenPsu, heater), PowerCommand(FanPsu, fan), PowerCommand(HumidifierPsu, humidifier)];
    }

    /** Whether the running step's exit condition holds at clock `now`. */
    function Done(now: int): (r: bool)
      requires Valid() && Running(state)
      reads this
      ensures r == StepDone(View(), now)
    {
      var s := steps[step];
      if state == HeatUp then temperatures.reading.material >= s.targetTemperature as real
      else if state == AcclimateState then now - stepStarted >= RuntimeSeconds(s.runtime.value)
      else
        (s.runtime.Some? && now - stepStarted >= RuntimeSeconds(s.runtime.value)) ||
        (s.targetTemperature != 0 && temperatures.reading.material <= s.targetTemperature as real)
    }

    /**
     * `executeState` of heat up, acclimate and cool down: the step's exit condition, else a
     * power update when the sensors' reading is not older than the last one used.
     */
    method ExecuteRunning(now: int, temps: TemperatureSnapshot) returns (next: FsmState)
      requires Valid() && Running(state)
      modifies this, Pids()
      ensures Valid() && state == old(state) && View().(state := next) == RunningNext(old(View()), now, temps)
      ensures numberOfSteps == old(numberOfSteps)
      ensures heaterPower == old(heaterPower) && fanPower == old(fanPower) && humidifierPower == old(humidifierPower)
      ensures UpdatesPower(old(View()), now, temps) ==> commands == old(commands) + old(PowerCommands(now))
      ensures !UpdatesPower(old(View()), now, temps) ==> commands == old(commands) && unchanged(Pids())
    {
      if Done(now) {
        return NextProgramStep;
      }
      if temps.updated >= temperatures.updated {
        UsePowerReading(now, temps.updated);
      }
      next := state;
    }

    /** Runs the power controllers on the last snapshot and marks the reading taken at `updated` as used. */
    method UsePowerReading(now: int, updated: int)
      requires Valid() && Running(state)
      modifies this, Pids()
      ensures Valid() && View() == old(View()).(temperatures := old(temperatures).(updated := updated))
      ensures numberOfSteps == old(numberOfSteps)
      ensures heaterPower == old(heaterPower) && fanPower == old(fanPower) && humidifierPower == old(humidifierPower)
      ensures commands == old(commands) + old(PowerCommands(now))
    {
      var sent := UpdatePower(now);
      commands := commands + sent;
      WellformedIgnoresReadings(View(), numberOfSteps, heaterPower, fanPower, humidifierPower,
        psuStatus, temperatures.(updated := updated));
      temperatures := temperatures.(updated := updated);
    }

    /** `executeState` of start, waiting, preheat and the step switch. */
    method ExecuteEarly(now: int, psu: PsuSnapshot, temps: TemperatureSnapshot) returns (next: FsmState)
      requires Valid() && !Running(state) && !IsCompleted(state) && state != Unset
      modifies this
      ensures state == old(state) && View().(state := next) == Execute(old(View()), now, psu, temps)
      ensures numberOfSteps == old(numberOfSteps)
      ensures heaterPower == old(heaterPower) && fanPower == old(fanPower) && humidifierPower == old(humidifierPower)
      ensures commands == old(commands) + ExecuteCommands(old(View()), temps)
    {
      ghost var m := View();
      match state
      case StartState =>
        next := Waiting;
      case Waiting =>
        next := if psu.updated >= started && temps.updated >= started then PreHeat else Waiting;
      case PreHeat =>
        if temps.reading.oven < temps.reading.material {
          if psuStatus.reading.heater == 0 {
            commands := commands + [PowerCommand(OvenPsu, 100)];
          }
          next := PreHeat;
        } else {
          next := NextProgramStep;
        }
      case NextProgramStep =>
        step := step + 1;
        if step >= numberOfSteps {
          next := Idle;
          assert Execute(m, now, psu, temps) == m.(step := step, state := Idle);
        } else {
          stepStarted := now;
          next := StateOfType(steps[step].stepType).value;
          assert Execute(m, now, psu, temps) == m.(step := step, stepStarted := now, state := next);
        }
    }

    /** The commands a tick sends from the current state: the power controllers' when they run, else `TickCommands`. */
    ghost function SentCommands(now: int, psu: PsuSnapshot, temps: TemperatureSnapshot): seq<PowerCommand>
      requires Valid() && state != Unset
      reads this, Pids()
    {
      if UpdatesPower(View(), now, temps) then PowerCommands(now) else TickCommands(View(), now, psu, temps)
    }

    /** Runs the current state's handler. */
    method ExecuteHandler(now: int, psu: PsuSnapshot, temps: TemperatureSnapshot) returns (next: FsmState)
      requires Valid() && state != Unset && !IsCompleted(state)
      modifies this, Pids()
      ensures state == old(state) && View().(state := next) == Execute(old(View()), now, psu, temps)
      ensures numberOfSteps == old(numberOfSteps) && steps == old(steps) && AllRunnable(steps)
      ensures Running(next) ==> 0 <= step < |steps|
      ensures next == state && Running(state) ==> step == old(step)
      ensures heaterPower == old(heaterPower) && fanPower == old(fanPower) && humidifierPower == old(humidifierPower)
      ensures commands == old(commands) +
        (if UpdatesPower(old(View()), now, temps) then old(PowerCommands(now)) else ExecuteCommands(old(View()), temps))
      ensures !UpdatesPower(old(View()), now, temps) ==> unchanged(Pids())
    {
      if Running(state) {
        next := ExecuteRunning(now, temps);
      } else {
        next := ExecuteEarly(now, psu, temps);
      }
    }

    /** Moves to `next`; a different state resets the step's start and is entered. */
    method ChangeState(next: FsmState, now: int)
      requires numberOfSteps == |steps| && AllRunnable(steps)
      requires Running(next) ==> 0 <= step < |steps|
      requires next == state && Running(state) ==> ControllersFor(steps[step], heaterPower, fanPower, humidifierPower)
      modifies this
      ensures View() == Settle(old(View()).(state := next), old(state), now)
      ensures numberOfSteps == old(numberOfSteps)
      ensures commands == old(commands) + (if next != old(state) then EnterCommands(next, old(stopped)) else [])
      ensures Running(next) ==> ControllersFor(steps[step], heaterPower, fanPower, humidifierPower)
      ensures next != old(state) && Running(next) ==> fresh(heaterPower) && fresh(fanPower) && fresh(humidifierPower)
      ensures !(next != old(state) && Running(next)) ==>
        heaterPower == old(heaterPower) && fanPower == old(fanPower) && humidifierPower == old(humidifierPower)
    {
      var previous := state;
      state := next;
      if state != previous {
        stepStarted := now;
        EnterState(now);
      }
    }

    /**
     * `executeTick`: a completed program is left alone; otherwise the current state's handler
     * runs, a new state is entered (resetting the step's start), and the sensor snapshots are
     * kept for the next tick. The new state is that of `Tick`; the commands sent are those of
     * the power controllers when a running step uses a new reading, and otherwise those of
     * `TickCommands`.
     */
    method ExecuteTick(now: int, psu: PsuSnapshot, temps: TemperatureSnapshot)
      requires Valid() && state != Unset
      modifies this, Pids()
      ensures Valid() && View() == Tick(old(View()), now, psu, temps) && numberOfSteps == old(numberOfSteps)
      ensures commands == old(commands) + old(SentCommands(now, psu, temps))
      ensures !UpdatesPower(old(View()), now, temps) ==> unchanged(old(Pids()))
      ensures old(Completed()) ==> unchanged(this)
    {
      if !Completed() {
        Advance(now, psu, temps);
      }
    }

    /** A tick of a program that has not completed: the handler, then `Settle`. */
    method Advance(now: int, psu: PsuSnapshot, temps: TemperatureSnapshot)
      requires Valid() && state != Unset && !IsCompleted(state)
      modifies this, Pids()
      ensures Valid() && View() == Tick(old(View()), now, psu, temps) && numberOfSteps == old(numberOfSteps)
      ensures commands == old(commands) + old(SentCommands(now, psu, temps))
      ensures !UpdatesPower(old(View()), now, temps) ==> unchanged(old(Pids()))
    {
      ghost var m := View();
      ghost var power := if UpdatesPower(m, now, temps) then PowerCommands(now) else [];
      var next := ExecuteHandler(now, psu, temps);
      Finish(next, now, psu, temps, m, old(commands), power);
    }

    /**
     * The rest of a tick from `m` once its handler chose `next`: the state change and its
     * entry, then the snapshots.
     */
    method Finish(next: FsmState, now: int, psu: PsuSnapshot, temps: TemperatureSnapshot,
                  ghost m: Machine, ghost before: seq<PowerCommand>, ghost power: seq<PowerCommand>)
      requires Consistent(m) && m.state != Unset && !IsCompleted(m.state) && state == m.state
      requires View().(state := next) == Execute(m, now, psu, temps)
      requires numberOfSteps == |steps| && AllRunnable(steps)
      requires Running(next) ==> 0 <= step < |steps|
      requires next == state && Running(state) ==> ControllersFor(steps[step], heaterPower, fanPower, humidifierPower)
      requires commands == before + (if UpdatesPower(m, now, temps) then power else ExecuteCommands(m, temps))
      modifies this
      ensures Valid() && View() == Tick(m, now, psu, temps) && numberOfSteps == old(numberOfSteps)
      ensures commands == before + (if UpdatesPower(m, now, temps) then power else TickCommands(m, now, psu, temps))
    {
      ghost var e := Execute(m, now, psu, temps);
      TickCommandsByParts(m, now, psu, temps, e, before, power);
      ChangeState(next, now);
      TickByParts(m, now, psu, temps, e, View());
      TakeSnapshots(psu, temps);
    }

    /** Keeps the sensor snapshots for the next tick. */
    method TakeSnapshots(psu: PsuSnapshot, temps: TemperatureSnapshot)
      requires Valid()
      modifies this
      ensures Valid() && View() == old(View()).(psuStatus := psu, temperatures := temps)
      ensures numberOfSteps == old(numberOfSteps) && commands == old(commands)
    {
      WellformedIgnoresReadings(View(), numberOfSteps, heaterPower, fanPower, humidifierPower, psu, temps);
      psuStatus := psu;
      temperatures := temps;
    }
  }
}
