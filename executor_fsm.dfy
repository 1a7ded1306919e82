/**
 * The executor's program state machine (executor/engine/fsm_controller.go). The executor
 * waits for both sensors, preheats the oven until it is warmer than the material, then
 * runs the steps, driving the heater, the fan and the humidifier from each step's phases.
 * A step's phase gives either a constant duty cycle or a table of delta cycles, looked up
 * by the material-minus-oven temperature difference and the direction the material
 * temperature is moving in. The clock and the sensors' snapshots are explicit; the power
 * commands are kept in a log.
 */
module ExecutorFsm {
  import opened Wrappers
  import opened ExecutorProgram
  import opened ApiTypes

  /** The states; `Unset` is the zero value before `Run`. */
  datatype State = Unset | Idle | Waiting | CheckPreHeat | PreHeat | GoingUp | GoingDown | Failed

  /** Which way the material temperature moves; `NoDirection` is the zero value before the first move. */
  datatype Direction = NoDirection | Up | Down

  datatype PowerState = PowerOn | PowerOff | OtherPowerState(name: string)

  datatype PsuReading = PsuReading(status: PowerState, percent: int)

  datatype PsuReadings = PsuReadings(heater: PsuReading, fan: PsuReading, humidifier: PsuReading)

  datatype Temperatures = Temperatures(material: real, oven: real)

  datatype Psu = OvenPsu | FanPsu | HumidifierPsu

  /** A `setPower` call. */
  datatype PowerCommand = PowerCommand(psu: Psu, percent: int)

  const AllOff := [PowerCommand(OvenPsu, 0), PowerCommand(FanPsu, 0), PowerCommand(HumidifierPsu, 0)]

  /** The controller's fields, with the program and the last sensor snapshots (`CurrentProgram`). */
  datatype Machine = Machine(
    state: State,
    step: int,
    stepStarted: int,
    started: int,
    stopped: int,
    previousMaterial: real,
    previousDirection: Direction,
    steps: seq<ProgramStep>,
    defaultStepTime: int,
    psuUpdated: int,
    psu: PsuReadings,
    temperaturesUpdated: int,
    temperatures: Temperatures)

  // ----- the delta-cycle lookup

  /** A table's entry for the direction: the duty cycle entered from below when rising, from above otherwise. */
  function Setting(c: DeltaCycle, direction: Direction): int {
    if direction == Up then c.enteredBelow else c.enteredAbove
  }

  /** The entry before the first one, from `i` on, whose delta exceeds `delta`; the last entry when there is none. */
  function MatchFrom(cycles: seq<DeltaCycle>, delta: real, i: nat): (j: nat)
    requires 1 <= i <= |cycles|
    ensures i - 1 <= j < |cycles|
    decreases |cycles| - i
  {
    if i == |cycles| then i - 1
    else if delta < cycles[i].temperatureDelta then i - 1
    else MatchFrom(cycles, delta, i + 1)
  }

  /** The entry `findMatchingPowerSettings` uses: the first when `delta` is below it, else `MatchFrom(.., 1)`. */
  function MatchIndex(cycles: seq<DeltaCycle>, delta: real): (j: nat)
    requires |cycles| > 0
    ensures j < |cycles|
  {
    if delta < cycles[0].temperatureDelta then 0 else MatchFrom(cycles, delta, 1)
  }

  function MatchingPower(cycles: seq<DeltaCycle>, delta: real, direction: Direction): int
    requires |cycles| > 0
  {
    Setting(cycles[MatchIndex(cycles, delta)], direction)
  }

  lemma {:induction false} MatchFromBounds(cycles: seq<DeltaCycle>, delta: real, i: nat)
    requires 1 <= i <= |cycles| && cycles[i - 1].temperatureDelta <= delta
    ensures var j := MatchFrom(cycles, delta, i);
      cycles[j].temperatureDelta <= delta && (j + 1 < |cycles| ==> delta < cycles[j + 1].temperatureDelta)
    decreases |cycles| - i
  {
    if i < |cycles| && cycles[i].temperatureDelta <= delta {
      MatchFromBounds(cycles, delta, i + 1);
    }
  }

  lemma {:induction false} MatchFromAbove(cycles: seq<DeltaCycle>, delta: real, i: nat)
    requires 1 <= i <= |cycles| && SortedByDelta(cycles)
    ensures forall k :: MatchFrom(cycles, delta, i) < k < |cycles| ==> delta < cycles[k].temperatureDelta
    decreases |cycles| - i
  {
    if i < |cycles| && cycles[i].temperatureDelta <= delta {
      MatchFromAbove(cycles, delta, i + 1);
    }
  }

  /**
   * On a table sorted by delta the lookup uses the last entry whose delta is at most `delta`,
   * or the first entry when `delta` is below them all.
   */
  lemma MatchIndexSorted(cycles: seq<DeltaCycle>, delta: real)
    requires |cycles| > 0 && SortedByDelta(cycles)
    ensures var j := MatchIndex(cycles, delta);
      (delta < cycles[0].temperatureDelta ==> j == 0) &&
      (cycles[0].temperatureDelta <= delta ==> cycles[j].temperatureDelta <= delta) &&
      (forall k :: j < k < |cycles| ==> delta < cycles[k].temperatureDelta)
  {
    if cycles[0].temperatureDelta <= delta {
      MatchFromBounds(cycles, delta, 1);
      MatchFromAbove(cycles, delta, 1);
    }
  }

  /** Whatever the order, the entry used has a delta at most `delta` (unless it is the first) and the next one's exceeds it. */
  lemma MatchIndexBounds(cycles: seq<DeltaCycle>, delta: real)
    requires |cycles| > 0
    ensures var j := MatchIndex(cycles, delta);
      (j > 0 ==> cycles[j].temperatureDelta <= delta) &&
      (cycles[0].temperatureDelta <= delta && j + 1 < |cycles| ==> delta < cycles[j + 1].temperatureDelta)
  {
    if cycles[0].temperatureDelta <= delta {
      MatchFromBounds(cycles, delta, 1);
    }
  }

  /** `findMatchingPowerSettings`: the duty cycle of the table's matching entry for the direction. */
  method FindMatchingPowerSettings(cycles: seq<DeltaCycle>, delta: real, direction: Direction) returns (r: int)
    requires |cycles| > 0
    ensures r == MatchingPower(cycles, delta, direction)
    ensures exists k :: 0 <= k < |cycles| && r == Setting(cycles[k], direction)
  {
    if delta < cycles[0].temperatureDelta {
      return if direction == Up then cycles[0].enteredBelow else cycles[0].enteredAbove;
    }
    var n := |cycles|;
    var i := 1;
    while i < n
      invariant 1 <= i <= n
      invariant MatchFrom(cycles, delta, i) == MatchFrom(cycles, delta, 1)
    {
      if delta < cycles[i].temperatureDelta {
        return if direction == Up then cycles[i - 1].enteredBelow else cycles[i - 1].enteredAbove;
      }
      i := i + 1;
    }
    return if direction == Up then cycles[n - 1].enteredBelow else cycles[n - 1].enteredAbove;
  }

  // ----- the state machine on values

  predicate Running(s: State) {
    s == GoingUp || s == GoingDown
  }

  predicate IsCompleted(s: State) {
    s == Failed || s == Idle
  }

  /** Every delta-cycle table present is non-empty: the lookup reads its first entry. */
  predicate TablesNonEmpty(steps: seq<ProgramStep>) {
    forall i :: 0 <= i < |steps| ==>
      (steps[i].heater.deltaCycles.Some? ==> |steps[i].heater.deltaCycles.value| > 0) &&
      (steps[i].fan.deltaCycles.Some? ==> |steps[i].fan.deltaCycles.value| > 0) &&
      (steps[i].humidifier.deltaCycles.Some? ==> |steps[i].humidifier.deltaCycles.value| > 0)
  }

  /** The step index stays within the program (at 0 for an empty one), and a running state has a step. */
  predicate Consistent(m: Machine) {
    TablesNonEmpty(m.steps) && 0 <= m.step && (m.step < |m.steps| || m.step == 0) &&
    (Running(m.state) ==> m.step < |m.steps|)
  }

  /** The material-minus-oven temperature difference of the last snapshot. */
  function Delta(m: Machine): real {
    m.temperatures.material - m.temperatures.oven
  }

  /**
   * `determineDelta`'s bookkeeping: a material temperature that moved by 1 degree or more
   * since the remembered one is remembered, with the direction it moved in; a smaller move
   * changes nothing. The second component is the direction returned.
   */
  function Sensed(m: Machine): (r: (Machine, Direction))
    ensures r.1 == r.0.previousDirection
  {
    var change := m.temperatures.material - m.previousMaterial;
    if (if change < 0.0 then -change else change) < 1.0 then (m, m.previousDirection)
    else
      var direction := if change < 0.0 then Down else Up;
      (m.(previousMaterial := m.temperatures.material, previousDirection := direction), direction)
  }

  /** Only a move of at least one degree changes the remembered temperature and direction, and then to the new reading and its sign. */
  lemma SensedMoves(m: Machine)
    ensures var change := m.temperatures.material - m.previousMaterial;
      var r := Sensed(m).0;
      r.(previousMaterial := m.previousMaterial, previousDirection := m.previousDirection) == m &&
      (-1.0 < change < 1.0 ==> r == m) &&
      (change <= -1.0 ==> r.previousDirection == Down && r.previousMaterial == m.temperatures.material) &&
      (change >= 1.0 ==> r.previousDirection == Up && r.previousMaterial == m.temperatures.material)
  {
  }

  /**
   * `startPhase`: idle and failed are set as they are; a step past the end completes the
   * program; otherwise the state, the step and its start are set.
   */
  function StartedPhase(m: Machine, s: State, n: int, now: int): (r: Machine)
    ensures r.steps == m.steps && r.stopped == m.stopped && r.started == m.started
  {
    if s == Idle || s == Failed then m.(state := s)
    else if n >= |m.steps| then m.(state := Idle)
    else m.(state := s, step := n, stepStarted := now)
  }

  lemma StartedPhaseConsistent(m: Machine, s: State, n: int, now: int)
    requires Consistent(m) && n >= 0
    ensures Consistent(StartedPhase(m, s, n, now))
    ensures StartedPhase(m, s, n, now).state == (if s == Failed then Failed else if n >= |m.steps| then Idle else s)
    ensures StartedPhase(m, s, n, now).step == (if IsCompleted(s) || n >= |m.steps| then m.step else n)
  {
  }

  /** The step's time limit: its own, or the program's default when it is 0. */
  function MaximumRuntime(m: Machine): int
    requires 0 <= m.step < |m.steps|
  {
    if m.steps[m.step].maximumRuntime == 0 then m.defaultStepTime else m.steps[m.step].maximumRuntime
  }

  /** The source's `stepTimeExceeded`: the step's start plus its limit is not before `now`. */
  predicate TimeFlag(m: Machine, now: int)
    requires 0 <= m.step < |m.steps|
  {
    m.stepStarted + MaximumRuntime(m) >= now
  }

  /**
   * `stepCompleted`: whether the step is over and the state to go on in. Heating ends at
   * the range's maximum, cooling at its minimum, and both fail when the time flag is set;
   * acclimate and waiting steps end when it is set; acclimate fails when the material is
   * both below the minimum and above the maximum; an unknown type fails.
   */
  function StepOutcome(m: Machine, now: int): (bool, State)
    requires 0 <= m.step < |m.steps|
  {
    var s := m.steps[m.step];
    var material := m.temperatures.material;
    var flag := TimeFlag(m, now);
    match s.stepType
    case Heating =>
      if material >= s.validRange.maximumTemperature then (true, m.state)
      else if flag then (true, Failed) else (false, m.state)
    case Cooling =>
      if material <= s.validRange.minimumTemperature then (true, m.state)
      else if flag then (true, Failed) else (false, m.state)
    case Acclimate =>
      if material < s.validRange.minimumTemperature && material > s.validRange.maximumTemperature then (false, Failed)
      else if flag then (true, m.state) else (false, m.state)
    case WaitingStep =>
      if flag then (true, m.state) else (false, m.state)
    case OtherStep(_) => (true, Failed)
  }

  /** The state returned is the current one or failed, and failed without completion only for acclimate. */
  lemma StepOutcomeCases(m: Machine, now: int)
    requires 0 <= m.step < |m.steps| && m.state != Failed
    ensures var (done, next) := StepOutcome(m, now);
      (next == m.state || next == Failed) &&
      (!done && next == Failed ==> m.steps[m.step].stepType == Acclimate) &&
      (m.steps[m.step].stepType.OtherStep? ==> done && next == Failed) &&
      (m.steps[m.step].stepType == Heating && m.temperatures.material >= m.steps[m.step].validRange.maximumTemperature ==>
        done && next == m.state) &&
      (m.steps[m.step].stepType == Cooling && m.temperatures.material <= m.steps[m.step].validRange.minimumTemperature ==>
        done && next == m.state)
  {
  }

  /** A phase's duty cycle: its constant cycle, or the table's entry when it has a table. */
  function PhaseCycle(phase: PsuPhase, delta: real, direction: Direction): int
    requires phase.deltaCycles.Some? ==> |phase.deltaCycles.value| > 0
  {
    if phase.deltaCycles.None? then phase.constantCycle else MatchingPower(phase.deltaCycles.value, delta, direction)
  }

  /** The power commands of a running step: heater, fan and humidifier, each from its phase. */
  function PhaseCommands(s: ProgramStep, delta: real, direction: Direction): seq<PowerCommand>
    requires TablesNonEmpty([s])
  {
    assert [s][0] == s;
    [PowerCommand(OvenPsu, PhaseCycle(s.heater, delta, direction)),
     PowerCommand(FanPsu, PhaseCycle(s.fan, delta, direction)),
     PowerCommand(HumidifierPsu, PhaseCycle(s.humidifier, delta, direction))]
  }

  /** The handler of the current state: the new machine and the power commands it sends. */
  function Execute(m: Machine, now: int): (Machine, seq<PowerCommand>)
    requires Consistent(m)
  {
    match m.state
    case Failed | Idle =>
      if m.stopped != 0 then (m, [])
      else if m.psu.heater.status == PowerOff && m.psu.fan.status == PowerOff && m.psu.humidifier.status == PowerOff
      then (m.(stopped := now), [])
      else (m, AllOff)
    case Waiting =>
      if m.temperaturesUpdated != 0 && m.psuUpdated != 0 then (m.(state := CheckPreHeat), []) else (m, [])
    case CheckPreHeat =>
      var sensed := Sensed(m).0;
      if Delta(m) < 0.0 then (StartedPhase(sensed, GoingUp, 0, now), [])
      else (StartedPhase(sensed, PreHeat, 0, now), [PowerCommand(OvenPsu, 100), PowerCommand(FanPsu, 100)])
    case PreHeat =>
      var sensed := Sensed(m).0;
      if Delta(m) < 0.0 then (StartedPhase(sensed, GoingUp, 0, now), []) else (sensed, [])
    case GoingUp | GoingDown =>
      RunningNext(m, now)
    case Unset => (m, [])
  }

  /** `stateGoingUpOrDown`. */
  function RunningNext(m: Machine, now: int): (Machine, seq<PowerCommand>)
    requires Consistent(m) && Running(m.state)
  {
    var (done, next) := StepOutcome(m, now);
    if done then (StartedPhase(m, next, m.step + 1, now), [])
    else if next != m.state then (m.(state := next), [])
    else
      var (sensed, direction) := Sensed(m);
      assert TablesNonEmpty([m.steps[m.step]]) by {
        assert [m.steps[m.step]][0] == m.steps[m.step];
      }
      (sensed, PhaseCommands(m.steps[m.step], Delta(m), direction))
  }

  /** Every handler keeps the step index within the program. */
  lemma ExecuteConsistent(m: Machine, now: int)
    requires Consistent(m)
    ensures Consistent(Execute(m, now).0) && Execute(m, now).0.steps == m.steps
  {
    if m.state == CheckPreHeat || m.state == PreHeat {
      PreHeatConsistent(m, now);
    } else if Running(m.state) {
      RunningNextConsistent(m, now);
      assert Execute(m, now) == RunningNext(m, now);
    }
  }

  lemma PreHeatConsistent(m: Machine, now: int)
    requires Consistent(m) && (m.state == CheckPreHeat || m.state == PreHeat)
    ensures Consistent(Execute(m, now).0) && Execute(m, now).0.steps == m.steps
  {
    var sensed := Sensed(m).0;
    StartedPhaseConsistent(sensed, GoingUp, 0, now);
    StartedPhaseConsistent(sensed, PreHeat, 0, now);
    if m.state == CheckPreHeat {
      assert Execute(m, now).0 == if Delta(m) < 0.0 then StartedPhase(sensed, GoingUp, 0, now) else StartedPhase(sensed, PreHeat, 0, now);
    } else {
      assert Execute(m, now).0 == if Delta(m) < 0.0 then StartedPhase(sensed, GoingUp, 0, now) else sensed;
    }
  }

  lemma RunningNextConsistent(m: Machine, now: int)
    requires Consistent(m) && Running(m.state)
    ensures Consistent(RunningNext(m, now).0) && RunningNext(m, now).0.steps == m.steps
  {
    var (done, next) := StepOutcome(m, now);
    if done {
      StartedPhaseConsistent(m, next, m.step + 1, now);
    } else if next == m.state {
      assert RunningNext(m, now).0 == Sensed(m).0;
    }
  }

  /** Waiting moves on exactly when both sensors have reported. */
  lemma WaitingNeedsReadings(m: Machine, now: int)
    requires Consistent(m) && m.state == Waiting
    ensures var (r, sent) := Execute(m, now);
      sent == [] &&
      (r.state == CheckPreHeat <==> m.temperaturesUpdated != 0 && m.psuUpdated != 0) &&
      (r.state != CheckPreHeat ==> r == m)
  {
  }

  /**
   * The preheat check starts the first step going up when the oven is already warmer than
   * the material; otherwise it turns heater and fan to 100 and preheats (at step 0).
   */
  lemma CheckPreHeatChoice(m: Machine, now: int)
    requires Consistent(m) && m.state == CheckPreHeat && |m.steps| > 0
    ensures var (r, sent) := Execute(m, now);
      r.step == 0 && r.stepStarted == now &&
      (Delta(m) < 0.0 ==> r.state == GoingUp && sent == []) &&
      (Delta(m) >= 0.0 ==> r.state == PreHeat && sent == [PowerCommand(OvenPsu, 100), PowerCommand(FanPsu, 100)])
  {
  }

  /**
   * Once stopped, idle and failed do nothing; before that they record the clock when all
   * three outputs report off, and otherwise send the three off commands again.
   */
  lemma IdleOrFailedStops(m: Machine, now: int)
    requires Consistent(m) && IsCompleted(m.state)
    ensures var (r, sent) := Execute(m, now);
      var allOff := m.psu.heater.status == PowerOff && m.psu.fan.status == PowerOff && m.psu.humidifier.status == PowerOff;
      (m.stopped != 0 ==> r == m && sent == []) &&
      (m.stopped == 0 && allOff ==> r == m.(stopped := now) && sent == []) &&
      (m.stopped == 0 && !allOff ==> r == m && sent == AllOff)
  {
  }

  /** A running step either completes (moving on through `StartedPhase`) or sends exactly one command per output. */
  lemma RunningStepCommands(m: Machine, now: int)
    requires Consistent(m) && Running(m.state)
    ensures var (r, sent) := Execute(m, now);
      (StepOutcome(m, now).0 ==> sent == [] && r == StartedPhase(m, StepOutcome(m, now).1, m.step + 1, now)) &&
      (!StepOutcome(m, now).0 && StepOutcome(m, now).1 == m.state ==>
        |sent| == 3 && sent[0].psu == OvenPsu && sent[1].psu == FanPsu && sent[2].psu == HumidifierPsu &&
        sent[0].percent == PhaseCycle(m.steps[m.step].heater, Delta(m), Sensed(m).1))
  {
  }

  /**
   * The machine never enters going down: only going up is ever started, and a completed
   * step starts the next one in the state it was in.
   */
  lemma NeverEntersGoingDown(m: Machine, now: int)
    requires Consistent(m) && m.state != GoingDown
    ensures Execute(m, now).0.state != GoingDown
  {
    if Running(m.state) {
      StepOutcomeCases(m, now);
    }
  }

  /** `shutdown` as written: it acts only once `stopped` has been recorded. */
  function PowerDown(m: Machine, now: int): (Machine, seq<PowerCommand>) {
    if m.stopped != 0 then (m.(stopped := now), AllOff) else (m, [])
  }

  // ----- the step-completion and shutdown rules as written, and as their comments describe them

  /** The step's deadline: its start plus its time limit. */
  function Deadline(m: Machine): int
    requires 0 <= m.step < |m.steps|
  {
    m.stepStarted + MaximumRuntime(m)
  }

  /**
   * As written, the time flag is set exactly while the deadline has NOT passed: a heating
   * step below its target fails on any tick up to its deadline, and one still below it
   * after the deadline carries on.
   */
  lemma HeatingFailsBeforeDeadline(m: Machine, now: int)
    requires 0 <= m.step < |m.steps| && m.steps[m.step].stepType == Heating
    requires m.temperatures.material < m.steps[m.step].validRange.maximumTemperature
    ensures now <= Deadline(m) ==> StepOutcome(m, now) == (true, Failed)
    ensures now > Deadline(m) ==> StepOutcome(m, now) == (false, m.state)
  {
  }

  /** As written, an acclimate step whose range is not inverted never fails, however far the material is outside it. */
  lemma AcclimateNeverFails(m: Machine, now: int)
    requires 0 <= m.step < |m.steps| && m.steps[m.step].stepType == Acclimate
    requires m.steps[m.step].validRange.minimumTemperature <= m.steps[m.step].validRange.maximumTemperature
    ensures StepOutcome(m, now).1 == m.state
  {
  }

  /**
   * `stepCompleted` as its comment describes it: the time is exceeded once `now` is past the
   * deadline, and acclimating fails when the material is below the minimum OR above the maximum.
   */
  function IntendedStepOutcome(m: Machine, now: int): (bool, State)
    requires 0 <= m.step < |m.steps|
  {
    var s := m.steps[m.step];
    var material := m.temperatures.material;
    var exceeded := now > Deadline(m);
    match s.stepType
    case Heating =>
      if material >= s.validRange.maximumTemperature then (true, m.state)
      else if exceeded then (true, Failed) else (false, m.state)
    case Cooling =>
      if material <= s.validRange.minimumTemperature then (true, m.state)
      else if exceeded then (true, Failed) else (false, m.state)
    case Acclimate =>
      if material < s.validRange.minimumTemperature || material > s.validRange.maximumTemperature then (false, Failed)
      else if exceeded then (true, m.state) else (false, m.state)
    case WaitingStep =>
      if exceeded then (true, m.state) else (false, m.state)
    case OtherStep(_) => (true, Failed)
  }

  /** The target temperature of a heating or cooling step, reached or not. */
  predicate TargetReached(s: ProgramStep, material: real) {
    (s.stepType == Heating && material >= s.validRange.maximumTemperature) ||
    (s.stepType == Cooling && material <= s.validRange.minimumTemperature)
  }

  /**
   * The intended rule: a heating or cooling step ends when it reaches its target, fails
   * exactly when the deadline passes first, and otherwise carries on; an acclimate step fails
   * exactly when the material leaves the range, and ends at the deadline; a waiting step
   * ends exactly at the deadline.
   */
  lemma IntendedStepOutcomeMeaning(m: Machine, now: int)
    requires 0 <= m.step < |m.steps| && m.state != Failed
    ensures var s := m.steps[m.step];
      var material := m.temperatures.material;
      var (done, next) := IntendedStepOutcome(m, now);
      ((s.stepType == Heating || s.stepType == Cooling) ==>
        (TargetReached(s, material) ==> done && next == m.state) &&
        (!TargetReached(s, material) ==> (done <==> now > Deadline(m)) && (next == Failed <==> now > Deadline(m)))) &&
      (s.stepType == Acclimate ==>
        (next == Failed <==> material < s.validRange.minimumTemperature || material > s.validRange.maximumTemperature) &&
        (next != Failed ==> (done <==> now > Deadline(m)))) &&
      (s.stepType == WaitingStep ==> next == m.state && (done <==> now > Deadline(m)))
  {
  }

  /** Before the deadline, the intended rule and the written one disagree on every heating step below its target. */
  lemma HeatingOutcomesDiffer(m: Machine, now: int)
    requires 0 <= m.step < |m.steps| && m.steps[m.step].stepType == Heating && m.state != Failed
    requires m.temperatures.material < m.steps[m.step].validRange.maximumTemperature
    ensures StepOutcome(m, now) != IntendedStepOutcome(m, now)
  {
    HeatingFailsBeforeDeadline(m, now);
  }

  /** As written, a run aborted before the machine recorded `stopped` leaves every output as it was. */
  lemma AbortedRunKeepsPower(m: Machine, now: int)
    requires m.stopped == 0
    ensures PowerDown(m, now) == (m, [])
  {
  }

  /** `shutdown` as its comment describes it: a run that has not stopped normally records the clock and turns every output off. */
  function IntendedPowerDown(m: Machine, now: int): (Machine, seq<PowerCommand>) {
    if m.stopped == 0 then (m.(stopped := now), AllOff) else (m, [])
  }

  /**
   * The intended shutdown turns all three outputs off exactly when the run has not stopped,
   * changes nothing else than `stopped`, and a second one (at a non-zero clock) sends nothing.
   */
  lemma IntendedPowerDownOnce(m: Machine, now: int, later: int)
    requires now != 0
    ensures var (r, sent) := IntendedPowerDown(m, now);
      (sent == AllOff <==> m.stopped == 0) && (sent != AllOff ==> sent == []) &&
      r.(stopped := m.stopped) == m && r.stopped != 0 &&
      IntendedPowerDown(r, later) == (r, [])
  {
  }

  /** `Completed`, `Failed` and the status the controller publishes. */
  function Status(m: Machine, status: ExecutionStatus): (r: ExecutionStatus)
    requires 0 <= m.step < |m.steps|
    ensures r.currentStep == m.steps[m.step].name && r.startedAt == m.started && r.currentStepStartedAt == m.stepStarted
    ensures r.temperatures == TemperatureStatus(m.temperatures.material, m.temperatures.oven)
    ensures r.powerStatus == PsuStatus(m.psu.heater.percent, m.psu.fan.percent, m.psu.humidifier.percent)
  {
    ExecutionStatus(m.started, m.steps[m.step].name, m.stepStarted,
      TemperatureStatus(m.temperatures.material, m.temperatures.oven),
      PsuStatus(m.psu.heater.percent, m.psu.fan.percent, m.psu.humidifier.percent))
  }

  // ----- the controller

  /** `programFSMController` together with the `CurrentProgram` it reads. */
  class ExecutorFsmController {
    var state: State
    var step: int
    var stepStarted: int
    var started: int
    var stopped: int
    var previousMaterialTemperature: real
    var previousDirection: Direction
    var steps: seq<ProgramStep>
    var defaultStepTime: int
    var psuUpdated: int
    var psuReading: PsuReadings
    var temperaturesUpdated: int
    var temperaturesReading: Temperatures
    /** The `setPower` calls made so far, oldest first. */
    var commands: seq<PowerCommand>

    ghost function View(): Machine
      reads this
    {
      Machine(state, step, stepStarted, started, stopped, previousMaterialTemperature, previousDirection,
        steps, defaultStepTime, psuUpdated, psuReading, temperaturesUpdated, temperaturesReading)
    }

    ghost predicate Valid()
      reads this
    {
      Consistent(View())
    }

    /** `newProgramFSMController`: every field at its zero value. */
    constructor ()
      ensures View() == Machine(Unset, 0, 0, 0, 0, 0.0, NoDirection, [], 0, 0,
        PsuReadings(PsuReading(OtherPowerState(""), 0), PsuReading(OtherPowerState(""), 0), PsuReading(OtherPowerState(""), 0)),
        0, Temperatures(0.0, 0.0))
      ensures commands == []
    {
      state := Unset;
      step := 0;
      stepStarted := 0;
      started := 0;
      stopped := 0;
      previousMaterialTemperature := 0.0;
      previousDirection := NoDirection;
      steps := [];
      defaultStepTime := 0;
      psuUpdated := 0;
      psuReading := PsuReadings(PsuReading(OtherPowerState(""), 0), PsuReading(OtherPowerState(""), 0), PsuReading(OtherPowerState(""), 0));
      temperaturesUpdated := 0;
      temperaturesReading := Temperatures(0.0, 0.0);
      commands := [];
    }

    /** The start of `Run`: takes the program (`newCurrentProgram`: no readings yet) and waits, recording the start. */
    method Begin(program: seq<ProgramStep>, programDefaultStepTime: int, now: int)
      requires TablesNonEmpty(program)
      modifies this
      ensures Valid()
      ensures View() == old(View()).(state := Waiting, started := now, steps := program, defaultStepTime := programDefaultStepTime,
        psuUpdated := 0, temperaturesUpdated := 0, step := 0)
      ensures commands == old(commands)
    {
      ghost var m := View().(state := Waiting, started := now, steps := program, defaultStepTime := programDefaultStepTime,
        psuUpdated := 0, temperaturesUpdated := 0, step := 0);
      assert Consistent(m);
      steps := program;
      defaultStepTime := programDefaultStepTime;
      psuUpdated := 0;
      temperaturesUpdated := 0;
      step := 0;
      state := Waiting;
      started := now;
      assert View() == m;
    }

    /** The runner's update of the sensor snapshots. */
    method Observe(psuAt: int, psu: PsuReadings, temperaturesAt: int, temperatures: Temperatures)
      requires Valid()
      modifies this
      ensures Valid()
      ensures View() == old(View()).(psuUpdated := psuAt, psu := psu, temperaturesUpdated := temperaturesAt, temperatures := temperatures)
      ensures commands == old(commands)
    {
      psuUpdated := psuAt;
      psuReading := psu;
      temperaturesUpdated := temperaturesAt;
      temperaturesReading := temperatures;
    }

    /** `determineDelta`: returns the material-minus-oven difference and the direction, remembering a move of a degree or more. */
    method DetermineDelta() returns (delta: real, direction: Direction)
      modifies this
      ensures delta == Delta(old(View())) && (View(), direction) == Sensed(old(View()))
      ensures commands == old(commands)
    {
      delta := temperaturesReading.material - temperaturesReading.oven;
      var materialDelta := temperaturesReading.material - previousMaterialTemperature;
      var size := if materialDelta < 0.0 then -materialDelta else materialDelta;
      if size < 1.0 {
        direction := previousDirection;
      } else {
        previousMaterialTemperature := temperaturesReading.material;
        if materialDelta < 0.0 {
          previousDirection := Down;
        } else {
          previousDirection := Up;
        }
        direction := previousDirection;
      }
    }

    method StartPhase(s: State, n: int, now: int)
      modifies this
      ensures View() == StartedPhase(old(View()), s, n, now) && commands == old(commands)
    {
      if s == Idle || s == Failed {
        state := s;
      } else if n >= |steps| {
        state := Idle;
      } else {
        state := s;
        step := n;
        stepStarted := now;
      }
    }

    method SetPower(psu: Psu, percent: int)
      modifies this
      ensures View() == old(View()) && commands == old(commands) + [PowerCommand(psu, percent)]
    {
      commands := commands + [PowerCommand(psu, percent)];
    }

    /** `stepCompleted`, read-only. */
    method StepCompleted(now: int) returns (done: bool, next: State)
      requires 0 <= step < |steps|
      ensures (done, next) == StepOutcome(View(), now)
    {
      var maximumRuntime := steps[step].maximumRuntime;
      if maximumRuntime == 0 {
        maximumRuntime := defaultStepTime;
      }
      var flag := stepStarted + maximumRuntime >= now;
      var s := steps[step];
      var material := temperaturesReading.material;
      match s.stepType {
      case Heating =>
        if material >= s.validRange.maximumTemperature {
          return true, state;
        }
        if flag {
          return true, Failed;
        }
      case Cooling =>
        if material <= s.validRange.minimumTemperature {
          return true, state;
        }
        if flag {
          return true, Failed;
        }
      case Acclimate =>
        if material < s.validRange.minimumTemperature && material > s.validRange.maximumTemperature {
          return false, Failed;
        }
        if flag {
          return true, state;
        }
      case WaitingStep =>
        if flag {
          return true, state;
        }
      case OtherStep(_) =>
        return true, Failed;
      }
      return false, state;
    }

    method PhasePower(phase: PsuPhase, delta: real, direction: Direction) returns (r: int)
      requires phase.deltaCycles.Some? ==> |phase.deltaCycles.value| > 0
      ensures r == PhaseCycle(phase, delta, direction)
    {
      r := phase.constantCycle;
      if phase.deltaCycles.Some? {
        r := FindMatchingPowerSettings(phase.deltaCycles.value, delta, direction);
      }
    }

    /** `stateGoingUpOrDown`. */
    method RunningStep(now: int)
      requires Valid() && Running(state)
      modifies this
      ensures View() == RunningNext(old(View()), now).0 && commands == old(commands) + RunningNext(old(View()), now).1
    {
      var done, next := StepCompleted(now);
      if done {
        StartPhase(next, step + 1, now);
        return;
      }
      if next != state {
        state := next;
        return;
      }
      var delta, direction := DetermineDelta();
      var s := steps[step];
      assert TablesNonEmpty([s]) by {
        assert [s][0] == s;
      }
      var heater := PhasePower(s.heater, delta, direction);
      var fan := PhasePower(s.fan, delta, direction);
      var humidifier := PhasePower(s.humidifier, delta, direction);
      SetPower(OvenPsu, heater);
      SetPower(FanPsu, fan);
      SetPower(HumidifierPsu, humidifier);
    }

    /** `executeStep`: runs the current state's handler. */
    method ExecuteStep(now: int)
      requires Valid()
      modifies this
      ensures Valid()
      ensures View() == Execute(old(View()), now).0 && commands == old(commands) + Execute(old(View()), now).1
    {
      ExecuteConsistent(View(), now);
      Dispatch(now);
    }

    /** The handler of the current state, as `Execute` describes it. */
    method Dispatch(now: int)
      requires Valid()
      modifies this
      ensures View() == Execute(old(View()), now).0 && commands == old(commands) + Execute(old(View()), now).1
    {
      match state
      case Failed | Idle =>
        if stopped == 0 {
          if psuReading.heater.status == PowerOff && psuReading.fan.status == PowerOff && psuReading.humidifier.status == PowerOff {
            stopped := now;
          } else {
            SetPower(OvenPsu, 0);
            SetPower(FanPsu, 0);
            SetPower(HumidifierPsu, 0);
          }
        }
      case Waiting =>
        if temperaturesUpdated != 0 && psuUpdated != 0 {
          state := CheckPreHeat;
        }
      case CheckPreHeat =>
        var delta, _ := DetermineDelta();
        if delta < 0.0 {
          StartPhase(GoingUp, 0, now);
        } else {
          SetPower(OvenPsu, 100);
          SetPower(FanPsu, 100);
          StartPhase(PreHeat, 0, now);
        }
      case PreHeat =>
        var delta, _ := DetermineDelta();
        if delta < 0.0 {
          StartPhase(GoingUp, 0, now);
        }
      case GoingUp | GoingDown =>
        RunningStep(now);
      case Unset =>
    }

    /** `shutdown` as written: once `stopped` is recorded, records the clock again and turns the three outputs off. */
    method Shutdown(now: int)
      modifies this
      ensures View() == PowerDown(old(View()), now).0 && commands == old(commands) + PowerDown(old(View()), now).1
    {
      if stopped != 0 {
        stopped := now;
        SetPower(OvenPsu, 0);
        SetPower(FanPsu, 0);
        SetPower(HumidifierPsu, 0);
      }
    }

    function Completed(): (r: bool)
      reads this
      ensures r <==> IsCompleted(state)
    {
      state == Failed || state == Idle
    }

    function HasFailed(): (r: bool)
      reads this
      ensures r <==> state == Failed
    {
      state == Failed
    }

    /** `UpdateStatus`: fills `status` from the current step and the last snapshots. */
    method UpdateStatus(status: ExecutionStatus) returns (r: ExecutionStatus)
      requires 0 <= step < |steps|
      ensures r == Status(View(), status)
    {
      r := status.(startedAt := started, currentStepStartedAt := stepStarted, currentStep := steps[step].name);
      r := r.(temperatures := TemperatureStatus(temperaturesReading.material, temperaturesReading.oven));
      r := r.(powerStatus := PsuStatus(psuReading.heater.percent, psuReading.fan.percent, psuReading.humidifier.percent));
    }
  }
}
