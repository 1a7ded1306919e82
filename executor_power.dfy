/**
 * The executor's power controllers (executor/engine/power_controller.go). A controller
 * either returns a constant power, or runs a PID loop towards a target temperature that
 * follows the wood temperature within the step's deltas, clamped to 0..100. The PID update
 * is the one of the control unit (`ControlUnitPower.PidUpdate`), with a `Reset`.
 */
module ExecutorPower {
  import opened Wrappers
  import opened ProgramTypes
  import opened ControlUnitPower

  /**
   * The power settings as the executor reads them: plain deltas and power, where zero
   * means "not given", and an optional PID.
   */
  datatype Settings = Settings(minDelta: real, maxDelta: real, power: Uint8, pid: Option<PidSettings>)

  /** The deltas a controller uses: the step's when it gives a maximum (its minimum defaulting to 0), else the heating defaults. */
  function DeltaBounds(settings: Settings, maxDeltaHeating: real, minDeltaHeating: real): (r: (real, real))
    ensures settings.maxDelta != 0.0 ==> r == (settings.maxDelta, settings.minDelta)
    ensures settings.maxDelta == 0.0 ==> r == (maxDeltaHeating, minDeltaHeating)
  {
    if settings.maxDelta != 0.0 then (settings.maxDelta, if settings.minDelta != 0.0 then settings.minDelta else 0.0)
    else (maxDeltaHeating, minDeltaHeating)
  }

  /** The PID configuration: the step's, else the default, if either exists. */
  function PidConfig(settings: Settings, defaultPid: Option<PidSettings>): (r: Option<PidSettings>)
    ensures r.Some? <==> settings.pid.Some? || defaultPid.Some?
    ensures settings.pid.Some? ==> r == settings.pid
  {
    if settings.pid.None? then defaultPid else settings.pid
  }

  /**
   * The temperature the PID aims the oven at: the target, kept within the wood temperature
   * plus the deltas when a minimum is given, else only capped at wood + max delta.
   */
  function Aim(targetTemperature: real, wood: real, maxDelta: real, minDelta: real): (r: real)
    ensures r <= targetTemperature
    ensures minDelta == 0.0 ==> r == Min(targetTemperature, wood + maxDelta)
  {
    if minDelta != 0.0 then Min(targetTemperature, Max(wood + minDelta, Min(wood + maxDelta, targetTemperature)))
    else Min(targetTemperature, wood + maxDelta)
  }

  /** Within the target, the aim is at least wood + min delta and at most wood + max delta when those bounds allow it. */
  lemma AimWithinDeltas(targetTemperature: real, wood: real, maxDelta: real, minDelta: real)
    requires minDelta != 0.0
    ensures var r := Aim(targetTemperature, wood, maxDelta, minDelta);
      (wood + minDelta <= targetTemperature ==> wood + minDelta <= r) &&
      (wood + minDelta <= wood + maxDelta ==> r <= wood + maxDelta)
  {
  }

  /** A reset PID starts over: its next update records the clock and returns 0. */
  lemma ResetThenUpdate(config: PidSettings, now: int, reference: real, actual: real)
    ensures PidUpdate(config, InitialPid, now, reference, actual) == (InitialPid.(previousUpdate := now), 0.0)
  {
  }

  class PidController {
    const config: PidSettings
    var state: PidState

    constructor (config: PidSettings)
      ensures this.config == config && state == InitialPid
    {
      this.config := config;
      state := InitialPid;
    }

    method Update(now: int, reference: real, actual: real) returns (r: real)
      modifies this
      ensures state == PidUpdate(config, old(state), now, reference, actual).0
      ensures r == PidUpdate(config, old(state), now, reference, actual).1
    {
      if state.previousUpdate == 0 {
        state := state.(previousUpdate := now);
        r := 0.0;
      } else {
        var previousError := state.currentError;
        var interval := now - state.previousUpdate;
        var e := reference - actual;
        var derivative := Quotient(e - previousError, interval);
        var integral := state.integral + e * interval as real;
        state := PidState(e, integral, derivative, state.previousUpdate);
        r := config.kp * e + config.ki * integral + config.kd * derivative;
      }
    }

    /** Zeroes the state. */
    method Reset()
      modifies this
      ensures state == InitialPid
    {
      state := InitialPid;
    }
  }

  /** What `Update` returns for a controller without a PID, or with one whose next output is `pidOutput`. */
  function Power(hasPid: bool, constantPower: Uint8, power: Uint8, pidOutput: real): (r: Uint8)
    ensures !hasPid ==> r == constantPower
    ensures hasPid ==> r <= 100
  {
    if !hasPid then constantPower else PidPower(power, pidOutput)
  }

  class PowerController {
    const pidController: PidController?
    const constantPower: Uint8
    const targetTemperature: real
    const maxDelta: real
    const minDelta: real

    /** `NewPowerController`: a PID exactly when the step or the defaults give one; the deltas of `DeltaBounds`. */
    constructor (targetTemperature: real, settings: Settings, defaultPid: Option<PidSettings>,
                 maxDeltaHeating: real, minDeltaHeating: real)
      ensures pidController != null <==> PidConfig(settings, defaultPid).Some?
      ensures pidController != null ==>
        fresh(pidController) && pidController.config == PidConfig(settings, defaultPid).value &&
        pidController.state == InitialPid
      ensures (maxDelta, minDelta) == DeltaBounds(settings, maxDeltaHeating, minDeltaHeating)
      ensures constantPower == settings.power && this.targetTemperature == targetTemperature
    {
      var config := if settings.pid.None? then defaultPid else settings.pid;
      if config.Some? {
        pidController := new PidController(config.value);
      } else {
        pidController := null;
      }
      if settings.maxDelta != 0.0 {
        maxDelta := settings.maxDelta;
        if settings.minDelta != 0.0 {
          minDelta := settings.minDelta;
        } else {
          minDelta := 0.0;
        }
      } else {
        maxDelta := maxDeltaHeating;
        minDelta := minDeltaHeating;
      }
      constantPower := settings.power;
      this.targetTemperature := targetTemperature;
    }

    /** `newConstantPowerController`: no PID, only the constant power. */
    constructor Constant(power: Uint8)
      ensures pidController == null && constantPower == power
      ensures targetTemperature == 0.0 && maxDelta == 0.0 && minDelta == 0.0
    {
      pidController := null;
      constantPower := power;
      targetTemperature := 0.0;
      maxDelta := 0.0;
      minDelta := 0.0;
    }

    /** The power `Update` returns from the current state. */
    function Response(power: Uint8, oven: real, wood: real, now: int): Uint8
      reads pidController
    {
      var pidOutput := if pidController == null then 0.0
        else PidUpdate(pidController.config, pidController.state, now, Aim(targetTemperature, wood, maxDelta, minDelta), oven).1;
      Power(pidController != null, constantPower, power, pidOutput)
    }

    /** Returns the constant power, or advances the PID towards `Aim` and clamps the current power plus its output to 0..100. */
    method Update(power: Uint8, oven: real, wood: real, now: int) returns (r: Uint8)
      modifies pidController
      ensures r == old(Response(power, oven, wood, now))
      ensures pidController != null ==>
        pidController.state == PidUpdate(pidController.config, old(pidController.state), now,
                                         Aim(targetTemperature, wood, maxDelta, minDelta), oven).0
    {
      if pidController == null {
        return constantPower;
      }
      var aim: real;
      if minDelta != 0.0 {
        aim := Min(targetTemperature, Max(wood + minDelta, Min(wood + maxDelta, targetTemperature)));
      } else {
        aim := Min(targetTemperature, wood + maxDelta);
      }
      var delta := pidController.Update(now, aim, oven);
      r := PidPower(power, delta);
    }
  }
}
