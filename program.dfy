/**
 * Kiln programs and their validation (types/program.go). A program is a list of steps
 * (heating, acclimate, cooling); each step has power settings for the heater, the fan
 * and the humidifier, and each setting must choose exactly one control method: a fixed
 * power, a pair of temperature deltas, or PID. `ApplyDefaults` fills in what a program
 * leaves out, and `Validate` accepts or rejects the result.
 */
module ProgramTypes {
  import opened Wrappers

  /** Go's uint8. */
  type Uint8 = x: int | 0 <= x < 256

  datatype StepType = Heating | Cooling | Acclimate | OtherStep(name: string)

  /** The control method a setting uses; any other text may come in from JSON. */
  datatype PowerSettingType = Simple | Delta | Pid | OtherPowerType(name: string)

  datatype PidSettings = PidSettings(kp: real, ki: real, kd: real)

  datatype PowerPidSettings = PowerPidSettings(
    settingType: PowerSettingType,
    minDelta: Option<real>,
    maxDelta: Option<real>,
    power: Option<Uint8>,
    pid: Option<PidSettings>)

  /** A freshly allocated `PowerPidSettings{}`. */
  const NoSettings: PowerPidSettings := PowerPidSettings(OtherPowerType(""), None, None, None, None)

  /** A step; the runtime is a duration in nanoseconds, absent when not given. */
  datatype ProgramStep = ProgramStep(
    name: string,
    stepType: StepType,
    targetTemperature: Uint8,
    runtime: Option<int>,
    heater: Option<PowerPidSettings>,
    fan: Option<PowerPidSettings>,
    humidifier: Option<PowerPidSettings>)

  /** The executor's defaults: PID settings per step type and the heating deltas. */
  datatype Defaults = Defaults(pidSettings: map<StepType, PidSettings>, maxDeltaHeating: real, minDeltaHeating: real)

  /** A value and the error the Go call returned beside it (the call may have updated its receiver either way). */
  datatype Checked<T> = Checked(value: T, error: Option<string>)

  /** The validators' error messages (the per-setting ones follow the component name). */
  const NotOneMethod := " must define exactly one control method: power, min/max deltas, or PID"
  const DeltaMissing := " min and max delta must both be defined"
  const PowerOutOfRange := " power must be between 0 and 100"
  const UnknownStepType := "unknown step type"
  const HeatingRuntime := "heating step cannot have runtime"
  const AcclimateNoRuntime := "acclimate step must have runtime"
  const CoolingRuntime := "cooling step cannot have runtime"
  const FanNotSimple := "fan must use simple power control"
  const HumidifierNotSimple := "humidifier must use simple power control"
  const CoolingHeaterNotSimple := "cooling step heater must use simple power control"
  const TooFewSteps := "program must have at least two step"
  const FirstNotHeating := "first step must be a heating step"
  const LastNotCooling := "last step must be a cooling step"
  const TargetTooHigh := "target temperature must not exceed 200 degrees"
  const HeatingNotHigher := "heating step temperature must be higher than previous step"
  const AcclimateLower := "acclimate step temperature must be greater than or equal to previous step"
  const CoolingNotLower := "cooling step temperature must be lower than previous step"

  predicate IsValidPercentage(value: Uint8) {
    value <= 100
  }

  predicate HasDeltas(p: PowerPidSettings) {
    p.minDelta.Some? || p.maxDelta.Some?
  }

  predicate NoMethod(p: PowerPidSettings) {
    p.power.None? && !HasDeltas(p) && p.pid.None?
  }

  predicate OnlyPower(p: PowerPidSettings) {
    p.power.Some? && !HasDeltas(p) && p.pid.None?
  }

  predicate OnlyDeltas(p: PowerPidSettings) {
    p.power.None? && HasDeltas(p) && p.pid.None?
  }

  predicate OnlyPid(p: PowerPidSettings) {
    p.power.None? && !HasDeltas(p) && p.pid.Some?
  }

  /** What a valid setting is: one control method, both deltas or none, and a power within 0..100. */
  predicate Accepted(p: PowerPidSettings) {
    (OnlyPower(p) && IsValidPercentage(p.power.value)) ||
    (OnlyDeltas(p) && p.minDelta.Some? && p.maxDelta.Some?) ||
    OnlyPid(p)
  }

  /** A valid setting that uses a fixed power. */
  predicate AcceptedSimple(p: PowerPidSettings) {
    OnlyPower(p) && IsValidPercentage(p.power.value)
  }

  /**
   * `PowerPidSettings.Validate`: records the last method found (in the order power, deltas,
   * PID) as the setting's type, then reports the first rule broken.
   */
  function ValidatePower(p: PowerPidSettings, component: string): (r: Checked<PowerPidSettings>)
    ensures r.value == p.(settingType := r.value.settingType)
  {
    var hasDeltas := HasDeltas(p);
    var methods := (if p.power.Some? then 1 else 0) + (if hasDeltas then 1 else 0) + (if p.pid.Some? then 1 else 0);
    var settingType :=
      if p.pid.Some? then Pid else if hasDeltas then Delta else if p.power.Some? then Simple else p.settingType;
    var q := p.(settingType := settingType);
    if methods != 1 then Checked(q, Some(component + NotOneMethod))
    else if hasDeltas && (p.minDelta.None? || p.maxDelta.None?) then Checked(q, Some(component + DeltaMissing))
    else if p.power.Some? && !IsValidPercentage(p.power.value) then Checked(q, Some(component + PowerOutOfRange))
    else Checked(q, None)
  }

  /** A setting passes validation exactly when it is valid. */
  lemma ValidatePowerAccepts(p: PowerPidSettings, component: string)
    ensures ValidatePower(p, component).error.None? <==> Accepted(p)
  {
  }

  /**
   * The recorded type is the last method present, in the order power, deltas, PID, whether
   * or not the setting is valid; with no method the type is left as it was.
   */
  lemma ValidatePowerType(p: PowerPidSettings, component: string)
    ensures var t := ValidatePower(p, component).value.settingType;
      (p.pid.Some? ==> t == Pid) && (p.pid.None? && HasDeltas(p) ==> t == Delta) &&
      (OnlyPower(p) ==> t == Simple) && (NoMethod(p) ==> t == p.settingType)
  {
  }

  /** No method, or more than one, is reported as such. */
  lemma ValidatePowerMethodCount(p: PowerPidSettings, component: string)
    requires NoMethod(p) || (p.pid.Some? && (p.power.Some? || HasDeltas(p))) || (p.power.Some? && HasDeltas(p))
    ensures ValidatePower(p, component).error ==
      Some(component + NotOneMethod)
  {
  }

  /** The three settings a step's validation dereferences. */
  predicate SettingsPresent(s: ProgramStep) {
    s.heater.Some? && s.fan.Some? && s.humidifier.Some?
  }

  /** The rules of a step's type: runtime only for acclimate, a valid heater, a simple one when cooling. */
  predicate TypeRulesHold(s: ProgramStep)
    requires s.heater.Some?
  {
    match s.stepType
    case Heating => s.runtime.None? && Accepted(s.heater.value)
    case Acclimate => s.runtime.Some? && Accepted(s.heater.value)
    case Cooling => s.runtime.None? && AcceptedSimple(s.heater.value)
    case OtherStep(_) => false
  }

  /** What a valid step is: simple fan and humidifier, and the rules of its type. */
  predicate StepAccepted(s: ProgramStep)
    requires SettingsPresent(s)
  {
    AcceptedSimple(s.fan.value) && AcceptedSimple(s.humidifier.value) && TypeRulesHold(s)
  }

  /** Two optional settings that differ at most in their recorded type. */
  predicate SameButType(a: Option<PowerPidSettings>, b: Option<PowerPidSettings>) {
    a.Some? == b.Some? && (a.Some? ==> b.value == a.value.(settingType := b.value.settingType))
  }

  /** Two steps with the same name, type, target and runtime. */
  predicate SameShape(a: ProgramStep, b: ProgramStep) {
    a.name == b.name && a.stepType == b.stepType && a.targetTemperature == b.targetTemperature &&
    a.runtime == b.runtime
  }

  /** Two steps that differ at most in the recorded types of their settings. */
  predicate SameButTypes(a: ProgramStep, b: ProgramStep) {
    SameShape(a, b) && SameButType(a.heater, b.heater) && SameButType(a.fan, b.fan) &&
    SameButType(a.humidifier, b.humidifier)
  }

  /**
   * A setting that must use a fixed power: it is validated first, so its type is recorded,
   * but a type other than simple is reported before the setting's own error.
   */
  function ValidateSimple(p: PowerPidSettings, component: string, typeError: string): (r: Checked<PowerPidSettings>)
    ensures r.value == ValidatePower(p, component).value
    ensures r.error.None? <==> AcceptedSimple(p)
    ensures r.value.settingType != Simple ==> r.error == Some(typeError)
  {
    var checked := ValidatePower(p, component);
    ValidatePowerAccepts(p, component);
    ValidatePowerType(p, component);
    if checked.value.settingType != Simple then Checked(checked.value, Some(typeError)) else checked
  }

  /** `validateHeatingStep`, `validateAcclimateStep` and `validateCoolingStep`, and the unknown type. */
  function ValidateByType(s: ProgramStep): (r: Checked<ProgramStep>)
    requires SettingsPresent(s)
    ensures SettingsPresent(r.value) && SameButTypes(s, r.value)
    ensures r.error.None? <==> TypeRulesHold(s)
    ensures s.stepType.OtherStep? ==> r.error == Some(UnknownStepType)
  {
    match s.stepType
    case Heating =>
      if s.runtime.Some? then Checked(s, Some(HeatingRuntime))
      else
        var heater := ValidatePower(s.heater.value, "heater");
        ValidatePowerAccepts(s.heater.value, "heater");
        Checked(s.(heater := Some(heater.value)), heater.error)
    case Acclimate =>
      if s.runtime.None? then Checked(s, Some(AcclimateNoRuntime))
      else
        var heater := ValidatePower(s.heater.value, "heater");
        ValidatePowerAccepts(s.heater.value, "heater");
        Checked(s.(heater := Some(heater.value)), heater.error)
    case Cooling =>
      if s.runtime.Some? then Checked(s, Some(CoolingRuntime))
      else
        var heater := ValidateSimple(s.heater.value, "heater", CoolingHeaterNotSimple);
        Checked(s.(heater := Some(heater.value)), heater.error)
    case OtherStep(_) => Checked(s, Some(UnknownStepType))
  }

  /**
   * `ProgramStep.Validate`: the fan, then the humidifier, must be valid simple settings; then
   * the rules of the step type apply, and an unknown type is rejected. Each setting reached
   * has its type recorded, even when the step is rejected.
   */
  function ValidateStep(s: ProgramStep): (r: Checked<ProgramStep>)
    requires SettingsPresent(s)
    ensures SettingsPresent(r.value) && SameButTypes(s, r.value)
  {
    var fan := ValidateSimple(s.fan.value, "fan", FanNotSimple);
    var s1 := s.(fan := Some(fan.value));
    if fan.error.Some? then Checked(s1, fan.error)
    else
      var humidifier := ValidateSimple(s.humidifier.value, "humidifier", HumidifierNotSimple);
      var s2 := s1.(humidifier := Some(humidifier.value));
      if humidifier.error.Some? then Checked(s2, humidifier.error)
      else ValidateByType(s2)
  }

  /** A step passes validation exactly when it is valid; a fan that is not simple is reported first. */
  lemma ValidateStepAccepts(s: ProgramStep)
    requires SettingsPresent(s)
    ensures ValidateStep(s).error.None? <==> StepAccepted(s)
    ensures ValidateStep(s).value.fan.value.settingType != Simple ==> ValidateStep(s).error == Some(FanNotSimple)
  {
  }

  /** The temperature rule between a step and the next: up for heating, not down for acclimate, down for cooling. */
  predicate ProgressesTo(current: ProgramStep, next: ProgramStep) {
    match next.stepType
    case Heating => next.targetTemperature > current.targetTemperature
    case Acclimate => next.targetTemperature >= current.targetTemperature
    case Cooling => next.targetTemperature < current.targetTemperature
    case OtherStep(_) => true
  }

  /** The rules of one step pair: the current target is at most 200 and the next step progresses from it. */
  predicate PairValid(steps: seq<ProgramStep>, i: int)
    requires 0 <= i < |steps| - 1
  {
    steps[i].targetTemperature <= 200 && ProgressesTo(steps[i], steps[i + 1])
  }

  /** What a well-ordered program is: three steps or more, heating first, cooling last, and every pair valid. */
  predicate Progresses(steps: seq<ProgramStep>) {
    |steps| >= 3 && steps[0].stepType == Heating && steps[|steps| - 1].stepType == Cooling &&
    forall i :: 0 <= i < |steps| - 1 ==> PairValid(steps, i)
  }

  /** The loop of `validateStepOrderAndTemperatureProgression` from pair `i` on. */
  function PairsError(steps: seq<ProgramStep>, i: nat): (r: Option<string>)
    requires i <= |steps|
    ensures r.None? <==> forall j :: i <= j < |steps| - 1 ==> PairValid(steps, j)
    decreases |steps| - i
  {
    if i >= |steps| - 1 then None
    else if steps[i].targetTemperature > 200 then
      assert !PairValid(steps, i);
      Some(TargetTooHigh)
    else if !ProgressesTo(steps[i], steps[i + 1]) then
      assert !PairValid(steps, i);
      match steps[i + 1].stepType
      case Heating => Some(HeatingNotHigher)
      case Acclimate => Some(AcclimateLower)
      case _ => Some(CoolingNotLower)
    else PairsError(steps, i + 1)
  }

  /** `validateStepOrderAndTemperatureProgression`. */
  function ProgressionError(steps: seq<ProgramStep>): (r: Option<string>)
    ensures r.None? <==> Progresses(steps)
    ensures |steps| <= 2 ==> r == Some(TooFewSteps)
  {
    if |steps| <= 2 then Some(TooFewSteps)
    else if steps[0].stepType != Heating then Some(FirstNotHeating)
    else if steps[|steps| - 1].stepType != Cooling then Some(LastNotCooling)
    else PairsError(steps, 0)
  }

  /** In a program that progresses, every target but the last is at most 200, and the final cooling step ends below the step before it. */
  lemma {:induction false} ProgressedTargetsBounded(steps: seq<ProgramStep>, i: nat)
    requires Progresses(steps) && i < |steps| - 1
    ensures steps[i].targetTemperature <= 200
    ensures steps[|steps| - 1].targetTemperature < steps[|steps| - 2].targetTemperature
  {
    assert PairValid(steps, i);
    assert PairValid(steps, |steps| - 2);
  }

  /** A step whose heater has no control method and that takes the PID default for acclimate. */
  predicate NeedsPidDefault(s: ProgramStep) {
    s.stepType == Acclimate && (s.heater.None? || NoMethod(s.heater.value))
  }

  /** The defaults `ApplyDefaults` gives a heater with no control method, by step type. */
  function DefaultHeater(s: ProgramStep, defaults: Defaults): (h: PowerPidSettings)
    requires NeedsPidDefault(s) ==> Acclimate in defaults.pidSettings
  {
    var heater := if s.heater.Some? then s.heater.value else NoSettings;
    if !NoMethod(heater) then heater
    else match s.stepType
      case Acclimate => heater.(pid := Some(defaults.pidSettings[Acclimate]))
      case Heating => heater.(minDelta := Some(defaults.minDeltaHeating), maxDelta := Some(defaults.maxDeltaHeating))
      case Cooling => heater.(power := Some(0))
      case OtherStep(_) => heater
  }

  /** A fan or humidifier with its power defaulted to 0. */
  function DefaultPower(p: Option<PowerPidSettings>): (r: PowerPidSettings)
    ensures r.power.Some? && (p.Some? && p.value.power.Some? ==> r == p.value)
    ensures p.Some? ==> r == p.value.(power := r.power)
    ensures p.None? ==> r == NoSettings.(power := Some(0))
  {
    var q := if p.Some? then p.value else NoSettings;
    if q.power.None? then q.(power := Some(0)) else q
  }

  /** One step after `ApplyDefaults`. */
  function DefaultStep(s: ProgramStep, defaults: Defaults): (r: ProgramStep)
    requires NeedsPidDefault(s) ==> Acclimate in defaults.pidSettings
    ensures SettingsPresent(r) && r.fan.value.power.Some? && r.humidifier.value.power.Some?
    ensures r.name == s.name && r.stepType == s.stepType && r.targetTemperature == s.targetTemperature && r.runtime == s.runtime
    ensures s.heater.Some? && !NoMethod(s.heater.value) ==> r.heater == s.heater
    ensures s.fan.Some? && s.fan.value.power.Some? ==> r.fan == s.fan
    ensures s.humidifier.Some? && s.humidifier.value.power.Some? ==> r.humidifier == s.humidifier
    ensures !s.stepType.OtherStep? ==> !NoMethod(r.heater.value)
    ensures NeedsPidDefault(s) ==> r.heater.value.pid == Some(defaults.pidSettings[Acclimate])
    ensures s.stepType == Heating && (s.heater.None? || NoMethod(s.heater.value)) ==>
      r.heater.value.minDelta == Some(defaults.minDeltaHeating) && r.heater.value.maxDelta == Some(defaults.maxDeltaHeating)
    ensures s.stepType == Cooling && (s.heater.None? || NoMethod(s.heater.value)) ==> r.heater.value.power == Some(0)
  {
    s.(heater := Some(DefaultHeater(s, defaults)),
       fan := Some(DefaultPower(s.fan)),
       humidifier := Some(DefaultPower(s.humidifier)))
  }

  /** Applying the defaults twice gives the step the first application gave. */
  lemma DefaultStepIdempotent(s: ProgramStep, defaults: Defaults)
    requires NeedsPidDefault(s) ==> Acclimate in defaults.pidSettings
    ensures var r := DefaultStep(s, defaults);
      !NeedsPidDefault(r) && DefaultStep(r, defaults) == r
  {
    var r := DefaultStep(s, defaults);
    if s.stepType.OtherStep? {
      assert DefaultHeater(r, defaults) == r.heater.value;
    }
  }

  /** Every step has the settings validation dereferences. */
  predicate AllPresent(steps: seq<ProgramStep>) {
    forall i :: 0 <= i < |steps| ==> SettingsPresent(steps[i])
  }

  /** Every step passes validation. */
  predicate AllAccepted(steps: seq<ProgramStep>)
    requires AllPresent(steps)
  {
    forall i :: 0 <= i < |steps| ==> StepAccepted(steps[i])
  }

  /** The error of the first step from `i` on that fails validation, if any. */
  function FirstStepError(steps: seq<ProgramStep>, i: nat): (r: Option<string>)
    requires AllPresent(steps) && i <= |steps|
    ensures r.None? <==> forall j :: i <= j < |steps| ==> StepAccepted(steps[j])
    decreases |steps| - i
  {
    if i == |steps| then None
    else
      ValidateStepAccepts(steps[i]);
      if ValidateStep(steps[i]).error.Some? then ValidateStep(steps[i]).error
    else FirstStepError(steps, i + 1)
  }

  /** Two step lists that differ at most in the recorded types of their settings. */
  predicate AllSameButTypes(a: seq<ProgramStep>, b: seq<ProgramStep>) {
    |a| == |b| && forall i :: 0 <= i < |a| ==> SameButTypes(a[i], b[i])
  }

  /** Two step lists of the same length whose steps pair up with the same shape. */
  predicate AllSameShape(a: seq<ProgramStep>, b: seq<ProgramStep>) {
    |a| == |b| && forall i :: 0 <= i < |a| ==> SameShape(a[i], b[i])
  }

  /** The progression rules read only step types and targets, so recording setting types does not change them. */
  lemma {:induction false} PairsErrorIgnoresTypes(a: seq<ProgramStep>, b: seq<ProgramStep>, i: nat)
    requires AllSameShape(a, b) && i <= |a|
    ensures PairsError(a, i) == PairsError(b, i)
    decreases |a| - i
  {
    if i < |a| - 1 {
      assert SameShape(a[i], b[i]) && SameShape(a[i + 1], b[i + 1]);
      PairsErrorIgnoresTypes(a, b, i + 1);
    }
  }

  lemma ProgressionIgnoresTypes(a: seq<ProgramStep>, b: seq<ProgramStep>)
    requires AllSameShape(a, b)
    ensures ProgressionError(a) == ProgressionError(b)
  {
    if |a| > 2 {
      assert SameShape(a[0], b[0]) && SameShape(a[|a| - 1], b[|b| - 1]);
      PairsErrorIgnoresTypes(a, b, 0);
    }
  }

  /** The steps before `i` are the validated originals, the rest the originals themselves. */
  predicate ValidatedUpTo(pre: seq<ProgramStep>, updated: seq<ProgramStep>, i: nat)
    requires AllPresent(pre)
  {
    i <= |pre| == |updated| &&
    (forall j :: 0 <= j < i ==> updated[j] == ValidateStep(pre[j]).value) &&
    (forall j :: i <= j < |pre| ==> updated[j] == pre[j])
  }

  /** Validating step `i` in place extends the validated prefix by one. */
  lemma ValidatedUpToNext(pre: seq<ProgramStep>, updated: seq<ProgramStep>, i: nat)
    requires AllPresent(pre) && ValidatedUpTo(pre, updated, i) && i < |pre|
    ensures SettingsPresent(updated[i])
    ensures ValidatedUpTo(pre, updated[i := ValidateStep(updated[i]).value], i + 1)
  {
  }

  /** Validating steps in place changes at most the recorded types of their settings. */
  lemma ValidatedSameButTypes(pre: seq<ProgramStep>, updated: seq<ProgramStep>, i: nat)
    requires AllPresent(pre) && ValidatedUpTo(pre, updated, i)
    ensures AllSameButTypes(pre, updated) && AllSameShape(pre, updated)
  {
    forall j | 0 <= j < |pre| ensures SameButTypes(pre[j], updated[j]) {
      if j < i {
        assert updated[j] == ValidateStep(pre[j]).value;
      }
    }
  }

  /**
   * The step loop of `Program.Validate`: validates the steps in order, recording the types
   * of the settings reached, and stops at the first step error.
   */
  method ValidateSteps(pre: seq<ProgramStep>) returns (updated: seq<ProgramStep>, err: Option<string>)
    requires AllPresent(pre)
    ensures err == FirstStepError(pre, 0)
    ensures AllSameButTypes(pre, updated) && AllSameShape(pre, updated)
    ensures err.None? ==> forall i :: 0 <= i < |updated| ==> updated[i] == ValidateStep(pre[i]).value
  {
    updated := pre;
    var i := 0;
    while i < |updated|
      invariant ValidatedUpTo(pre, updated, i)
      invariant FirstStepError(pre, 0) == FirstStepError(pre, i)
    {
      ValidatedUpToNext(pre, updated, i);
      var checked := ValidateStep(updated[i]);
      updated := updated[i := checked.value];
      if checked.error.Some? {
        ValidatedSameButTypes(pre, updated, i + 1);
        return updated, checked.error;
      }
      i := i + 1;
    }
    ValidatedSameButTypes(pre, updated, i);
    err := None;
  }

  /** The error `Program.Validate` returns before applying defaults. */
  const DefaultsNotApplied := "defaults must be applied before validation"

  /** The result of `Program.Validate` on a program in the given state. */
  function ProgramError(defaultsApplied: bool, steps: seq<ProgramStep>): Option<string>
    requires defaultsApplied ==> AllPresent(steps)
  {
    if !defaultsApplied then Some(DefaultsNotApplied)
    else if FirstStepError(steps, 0).Some? then FirstStepError(steps, 0)
    else ProgressionError(steps)
  }

  /**
   * A program is accepted exactly when its defaults were applied, every step is valid and
   * the steps progress; so an accepted program has three steps or more, starts heating,
   * ends cooling and keeps every target but the last at most 200.
   */
  lemma ProgramAccepted(defaultsApplied: bool, steps: seq<ProgramStep>)
    requires defaultsApplied ==> AllPresent(steps)
    ensures ProgramError(defaultsApplied, steps).None? <==>
      defaultsApplied && AllAccepted(steps) && Progresses(steps)
    ensures ProgramError(defaultsApplied, steps).None? ==>
      |steps| >= 3 && steps[0].stepType == Heating && steps[|steps| - 1].stepType == Cooling &&
      forall i :: 0 <= i < |steps| - 1 ==> steps[i].targetTemperature <= 200
  {
    if ProgramError(defaultsApplied, steps).None? {
      forall i | 0 <= i < |steps| - 1 ensures steps[i].targetTemperature <= 200 {
        assert PairValid(steps, i);
      }
    }
  }

  class Program {
    var programName: string
    var steps: seq<ProgramStep>
    /** Set only by `ApplyDefaults`; not part of the JSON form. */
    var defaultsApplied: bool

    constructor (programName: string, steps: seq<ProgramStep>)
      ensures this.programName == programName && this.steps == steps && !defaultsApplied
    {
      this.programName := programName;
      this.steps := steps;
      defaultsApplied := false;
    }

    /**
     * Gives every step a heater, fan and humidifier, a control method for the heater of every
     * known step type, and a power for the fan and the humidifier, keeping what is there.
     * The acclimate PID default must exist when a step needs it (the source dereferences it).
     */
    method ApplyDefaults(defaults: Defaults)
      requires forall i :: 0 <= i < |steps| ==> NeedsPidDefault(steps[i]) ==> Acclimate in defaults.pidSettings
      modifies this
      ensures defaultsApplied && programName == old(programName)
      ensures |steps| == |old(steps)|
      ensures forall i :: 0 <= i < |steps| ==> steps[i] == DefaultStep(old(steps)[i], defaults)
    {
      var i := 0;
      while i < |steps|
        invariant 0 <= i <= |steps| == |old(steps)| && programName == old(programName)
        invariant forall j :: 0 <= j < i ==> steps[j] == DefaultStep(old(steps)[j], defaults)
        invariant forall j :: i <= j < |steps| ==> steps[j] == old(steps)[j]
      {
        steps := steps[i := DefaultStep(steps[i], defaults)];
        i := i + 1;
      }
      defaultsApplied := true;
    }

    /**
     * Rejects a program whose defaults were not applied, then validates the steps in order,
     * returning the first step error (the types of the settings reached are recorded in
     * place), then the progression rules. The steps must have their settings once defaults
     * are applied (the source dereferences them).
     */
    method Validate() returns (err: Option<string>)
      requires defaultsApplied ==> AllPresent(steps)
      modifies this
      ensures err == ProgramError(old(defaultsApplied), old(steps))
      ensures !old(defaultsApplied) ==> steps == old(steps)
      ensures AllSameButTypes(old(steps), steps)
      ensures err.None? ==> forall i :: 0 <= i < |steps| ==> steps[i] == ValidateStep(old(steps)[i]).value
      ensures defaultsApplied == old(defaultsApplied) && programName == old(programName)
    {
      if !defaultsApplied {
        return Some(DefaultsNotApplied);
      }
      var updated, stepError := ValidateSteps(steps);
      if stepError.Some? {
        steps := updated;
        return stepError;
      }
      ProgressionIgnoresTypes(steps, updated);
      steps := updated;
      err := ProgressionError(steps);
    }
  }
}
