/**
 * The control unit's power controllers (controlunit/engine/power_controller.go). A power
 * controller turns a setting into a power percentage: a fixed power, an on/off rule that
 * keeps the oven within deltas of the wood temperature, or a PID loop whose output is
 * clamped to 0..100. The PID formula itself is float arithmetic and is taken as given.
 */
module ControlUnitPower {
  import opened Wrappers
  import opened ProgramTypes

  function Min(a: real, b: real): real {
    if a < b then a else b
  }

  function Max(a: real, b: real): real {
    if a < b then b else a
  }

  /** Go's float-to-int conversion: the integer part, rounding toward zero. */
  function Truncate(x: real): (r: int)
    ensures 0.0 <= x ==> r as real <= x < r as real + 1.0
    ensures x < 0.0 ==> r as real - 1.0 < x <= r as real
  {
    if x >= 0.0 then x.Floor else -((-x).Floor)
  }

  /** The oven temperature the delta rule aims at: the target, capped at wood + max delta, then raised to wood + min delta. */
  function DeltaTarget(target: real, wood: real, minDelta: real, maxDelta: real): real {
    Max(Min(target, wood + maxDelta), wood + minDelta)
  }

  /** The delta rule: full power while the oven is below the aimed temperature, off otherwise. */
  function DeltaPower(target: real, oven: real, wood: real, minDelta: real, maxDelta: real): (r: Uint8)
    ensures r == 0 || r == 100
    ensures r == 100 <==> oven < DeltaTarget(target, wood, minDelta, maxDelta)
  {
    var aim := Min(target, wood + maxDelta);
    var aim' := Max(aim, wood + minDelta);
    if oven < aim' then 100 else 0
  }

  /** The PID rule: the current power plus the PID output, truncated and clamped to 0..100. */
  function PidPower(power: Uint8, pidOutput: real): (r: Uint8)
    ensures r <= 100
    ensures 0 <= Truncate(power as real + pidOutput) <= 100 ==> r == Truncate(power as real + pidOutput)
    ensures Truncate(power as real + pidOutput) < 0 ==> r == 0
    ensures Truncate(power as real + pidOutput) > 100 ==> r == 100
  {
    var raw := Truncate(power as real + pidOutput);
    var low := if raw > 0 then raw else 0;
    if low < 100 then low else 100
  }

  /** The settings fields each type needs: the source dereferences them without a check. */
  predicate Usable(settings: PowerPidSettings) {
    (settings.settingType == Simple ==> settings.power.Some?) &&
    (settings.settingType == Delta ==> settings.minDelta.Some? && settings.maxDelta.Some?) &&
    (settings.settingType == Pid ==> settings.pid.Some?)
  }

  /** What `PowerController.Update` returns, given the PID output when the setting is PID. */
  function Output(settings: PowerPidSettings, targetTemperature: real, power: Uint8, oven: real, wood: real, pidOutput: real): (r: Uint8)
    requires Usable(settings)
  {
    match settings.settingType
    case Simple => settings.power.value
    case Delta => DeltaPower(targetTemperature, oven, wood, settings.minDelta.value, settings.maxDelta.value)
    case Pid => PidPower(power, pidOutput)
    case OtherPowerType(_) => 0
  }

  /**
   * Every rule but the fixed power stays within 0..100; the delta rule is on or off, and an
   * unknown type turns the output off.
   */
  lemma OutputRange(settings: PowerPidSettings, targetTemperature: real, power: Uint8, oven: real, wood: real, pidOutput: real)
    requires Usable(settings)
    ensures var r := Output(settings, targetTemperature, power, oven, wood, pidOutput);
      (settings.settingType != Simple ==> r <= 100) &&
      (settings.settingType == Delta ==> r == 0 || r == 100) &&
      (settings.settingType.OtherPowerType? ==> r == 0) &&
      (settings.settingType == Simple ==> r == settings.power.value)
  {
  }

  /** A validated setting has the fields its type needs, and a valid fixed power is at most 100. */
  lemma ValidatedUsable(p: PowerPidSettings, component: string)
    requires Accepted(p)
    ensures Usable(ValidatePower(p, component).value)
    ensures ValidatePower(p, component).value.settingType == Simple ==> ValidatePower(p, component).value.power.value <= 100
  {
    ValidatePowerType(p, component);
  }

  /** `PidControllerState`: the last error, its integral and derivative, and the time of the first update. */
  datatype PidState = PidState(currentError: real, integral: real, derivative: real, previousUpdate: int)

  const InitialPid := PidState(0.0, 0.0, 0.0, 0)

  /** A quotient by a zero interval, where float32 division gives an infinity or NaN, is taken as 0. */
  function Quotient(x: real, d: int): real {
    if d == 0 then 0.0 else x / d as real
  }

  /**
   * One PID update towards `reference` from `actual` at clock `now`: the state after it and
   * the output. The sample interval is measured from `previousUpdate`, which only the first
   * update sets.
   */
  function PidUpdate(config: PidSettings, s: PidState, now: int, reference: real, actual: real): (PidState, real) {
    if s.previousUpdate == 0 then (s.(previousUpdate := now), 0.0)
    else
      var interval := now - s.previousUpdate;
      var e := reference - actual;
      var next := PidState(e, s.integral + e * interval as real, Quotient(e - s.currentError, interval), s.previousUpdate);
      (next, config.kp * next.currentError + config.ki * next.integral + config.kd * next.derivative)
  }

  /** A PID update with its own clock and inputs. */
  datatype PidCall = PidCall(now: int, reference: real, actual: real)

  function PidReplay(config: PidSettings, s: PidState, calls: seq<PidCall>): PidState
    decreases |calls|
  {
    if calls == [] then s
    else PidReplay(config, PidUpdate(config, s, calls[0].now, calls[0].reference, calls[0].actual).0, calls[1..])
  }

  /** The first update returns 0 and records its clock; any later one keeps it and returns the PID sum. */
  lemma PidFirstUpdate(config: PidSettings, s: PidState, now: int, reference: real, actual: real)
    ensures var (next, out) := PidUpdate(config, s, now, reference, actual);
      (s.previousUpdate == 0 ==> out == 0.0 && next == s.(previousUpdate := now)) &&
      (s.previousUpdate != 0 ==>
        next.previousUpdate == s.previousUpdate && next.currentError == reference - actual &&
        out == config.kp * (reference - actual) + config.ki * next.integral + config.kd * next.derivative)
  {
  }

  /**
   * Over any sequence of updates the recorded time is that of the first update (at a non-zero
   * clock), and the integral grows by each error times the time since that first update.
   */
  lemma {:induction false} PidReplayKeepsFirstUpdate(config: PidSettings, s: PidState, calls: seq<PidCall>)
    requires s.previousUpdate != 0
    ensures PidReplay(config, s, calls).previousUpdate == s.previousUpdate
    decreases |calls|
  {
    if calls != [] {
      PidReplayKeepsFirstUpdate(config, PidUpdate(config, s, calls[0].now, calls[0].reference, calls[0].actual).0, calls[1..]);
    }
  }

  /** The sum of error times (clock - first update) over the calls: how the integral grows. */
  function IntegralGrowth(first: int, calls: seq<PidCall>): real
    decreases |calls|
  {
    if calls == [] then 0.0
    else (calls[0].reference - calls[0].actual) * (calls[0].now - first) as real + IntegralGrowth(first, calls[1..])
  }

  lemma {:induction false} PidReplayIntegral(config: PidSettings, s: PidState, calls: seq<PidCall>)
    requires s.previousUpdate != 0
    ensures PidReplay(config, s, calls).integral == s.integral + IntegralGrowth(s.previousUpdate, calls)
    decreases |calls|
  {
    if calls != [] {
      var next := PidUpdate(config, s, calls[0].now, calls[0].reference, calls[0].actual).0;
      PidReplayIntegral(config, next, calls[1..]);
    }
  }

  /** `PidController`: its settings and its state. */
  class PidController {
    const config: PidSettings
    var state: PidState

    constructor (config: PidSettings)
      ensures this.config == config && state == InitialPid
    {
      this.config := config;
      state := InitialPid;
    }

    method Update(now: int, reference: real, actual: real) returns (r: real)
      modifies this
      ensures state == PidUpdate(config, old(state), now, reference, actual).0
      ensures r == PidUpdate(config, old(state), now, reference, actual).1
    {
      if state.previousUpdate == 0 {
        state := state.(previousUpdate := now);
        r := 0.0;
      } else {
        var previousError := state.currentError;
        var interval := now - state.previousUpdate;
        var e := reference - actual;
        var derivative := Quotient(e - previousError, interval);
        var integral := state.integral + e * interval as real;
        state := PidState(e, integral, derivative, state.previousUpdate);
        r := config.kp * e + config.ki * integral + config.kd * derivative;
      }
    }
  }

  class PowerController {
    const targetTemperature: real
    const settings: PowerPidSettings
    const pidController: PidController?

    /** A PID controller, in its initial state, is created exactly for a PID setting. */
    constructor (targetTemperature: real, settings: PowerPidSettings)
      requires settings.settingType == Pid ==> settings.pid.Some?
      ensures this.targetTemperature == targetTemperature && this.settings == settings
      ensures (pidController != null) <==> settings.settingType == Pid
      ensures pidController != null ==>
        fresh(pidController) && pidController.state == InitialPid && pidController.config == settings.pid.value
    {
      this.targetTemperature := targetTemperature;
      this.settings := settings;
      if settings.settingType == Pid {
        pidController := new PidController(settings.pid.value);
      } else {
        pidController := null;
      }
    }

    /** The controller can run: its setting has the fields its type needs, and a PID setting has its PID. */
    predicate Ready() {
      Usable(settings) && (settings.settingType == Pid <==> pidController != null)
    }

    /** The power `Update` returns from the current state: the PID's output is that of its next update towards the target. */
    function Response(power: Uint8, oven: real, wood: real, now: int): Uint8
      requires Ready()
      reads pidController
    {
      var pidOutput := if pidController == null then 0.0
        else PidUpdate(pidController.config, pidController.state, now, targetTemperature, oven).1;
      Output(settings, targetTemperature, power, oven, wood, pidOutput)
    }

    /** Returns the power for the setting's rule, advancing the PID towards the target for a PID setting. */
    method Update(power: Uint8, oven: real, wood: real, now: int) returns (r: Uint8)
      requires Ready()
      modifies pidController
      ensures r == old(Response(power, oven, wood, now))
      ensures pidController != null ==>
        pidController.state == PidUpdate(pidController.config, old(pidController.state), now, targetTemperature, oven).0
    {
      match settings.settingType
      case Simple =>
        r := settings.power.value;
      case Delta =>
        r := DeltaPower(targetTemperature, oven, wood, settings.minDelta.value, settings.maxDelta.value);
      case Pid =>
        var delta := pidController.Update(now, targetTemperature, oven);
        r := PidPower(power, delta);
      case OtherPowerType(_) =>
        r := 0;
    }
  }
}
