/**
 * The power-control editor of a program step (webapp power/PowerSettings.tsx): which kind of
 * control the settings describe, the fresh defaults that choosing a kind emits, the updaters
 * of single fields, and what the read-only view shows.
 */
module PowerSettingsForm {
  import opened Wrappers

  datatype PidSettings = PidSettings(kp: real, ki: real, kd: real)

  /** The settings as the editor holds them; every field may be absent. */
  datatype Settings = Settings(
    kind: Option<string>,
    power: Option<real>,
    minDelta: Option<real>,
    maxDelta: Option<real>,
    pid: Option<PidSettings>)

  const NoSettings := Settings(None, None, None, None, None)

  /** A type field counts only when it is a non-empty string. */
  predicate HasExplicitKind(s: Settings) {
    s.kind.Some? && s.kind.value != ""
  }

  /**
   * `getControlType`: "" without settings; an explicit type as it is; otherwise "pid" when
   * there is a PID object, "delta" when either delta bound is set, "simple" when a power is set,
   * and "" when nothing tells.
   */
  function GetControlType(settings: Option<Settings>): (r: string)
    ensures settings.None? ==> r == ""
    ensures settings.Some? && HasExplicitKind(settings.value) ==> r == settings.value.kind.value
    ensures settings.Some? && !HasExplicitKind(settings.value) ==>
      (r == "pid" <==> settings.value.pid.Some?) &&
      (r == "delta" <==> settings.value.pid.None? && (settings.value.minDelta.Some? || settings.value.maxDelta.Some?)) &&
      (r == "simple" <==> settings.value.pid.None? && settings.value.minDelta.None? && settings.value.maxDelta.None? && settings.value.power.Some?) &&
      (r == "" <==> settings.value == NoSettings.(kind := settings.value.kind))
  {
    match settings
    case None => ""
    case Some(s) =>
      if HasExplicitKind(s) then s.kind.value
      else if s.pid.Some? then "pid"
      else if s.minDelta.Some? || s.maxDelta.Some? then "delta"
      else if s.power.Some? then "simple"
      else ""
  }

  /**
   * `handleTypeChange`: the defaults emitted for a chosen kind (power 50; deltas -5 and 5;
   * gains 2, 1 and 0.5), or None for any other value, which emits nothing.
   */
  function TypeDefaults(kind: string): (r: Option<Settings>)
    ensures r.Some? <==> kind in {"simple", "delta", "pid"}
    ensures r.Some? ==> r.value.kind == Some(kind)
  {
    if kind == "simple" then Some(NoSettings.(kind := Some("simple"), power := Some(50.0)))
    else if kind == "delta" then Some(NoSettings.(kind := Some("delta"), minDelta := Some(-5.0), maxDelta := Some(5.0)))
    else if kind == "pid" then Some(NoSettings.(kind := Some("pid"), pid := Some(PidSettings(2.0, 1.0, 0.5))))
    else None
  }

  /** The defaults of a kind carry exactly that kind's fields, so even without their type field they are read back as that kind. */
  lemma DefaultsReadBack(kind: string)
    requires kind in {"simple", "delta", "pid"}
    ensures GetControlType(TypeDefaults(kind)) == kind
    ensures GetControlType(Some(TypeDefaults(kind).value.(kind := None))) == kind
  {
  }

  /** `handlePowerChange`: the settings with the power replaced, or None without settings. */
  function SetPower(settings: Option<Settings>, power: real): (r: Option<Settings>)
    ensures r.Some? <==> settings.Some?
    ensures r.Some? ==> r.value.power == Some(power) && r.value == settings.value.(power := r.value.power)
  {
    match settings
    case None => None
    case Some(s) => Some(s.(power := Some(power)))
  }

  datatype DeltaField = MinDeltaField | MaxDeltaField

  /** `handleDeltaChange`: the named bound replaced, or None without settings. */
  function SetDelta(settings: Option<Settings>, field: DeltaField, value: real): (r: Option<Settings>)
    ensures r.Some? <==> settings.Some?
    ensures r.Some? && field == MinDeltaField ==> r.value.minDelta == Some(value) && r.value == settings.value.(minDelta := r.value.minDelta)
    ensures r.Some? && field == MaxDeltaField ==> r.value.maxDelta == Some(value) && r.value == settings.value.(maxDelta := r.value.maxDelta)
  {
    match settings
    case None => None
    case Some(s) =>
      if field == MinDeltaField then Some(s.(minDelta := Some(value))) else Some(s.(maxDelta := Some(value)))
  }

  datatype PidField = Kp | Ki | Kd

  /** `handlePidChange`: the named gain replaced, or None without settings or without a PID object. */
  function SetPid(settings: Option<Settings>, field: PidField, value: real): (r: Option<Settings>)
    ensures r.Some? <==> settings.Some? && settings.value.pid.Some?
    ensures r.Some? ==> r.value == settings.value.(pid := r.value.pid) && r.value.pid.Some?
    ensures r.Some? ==> var old_ := settings.value.pid.value; var new_ := r.value.pid.value;
      (new_.kp == if field == Kp then value else old_.kp) &&
      (new_.ki == if field == Ki then value else old_.ki) &&
      (new_.kd == if field == Kd then value else old_.kd)
  {
    match settings
    case None => None
    case Some(s) =>
      match s.pid
      case None => None
      case Some(p) =>
        var p' := match field
          case Kp => p.(kp := value)
          case Ki => p.(ki := value)
          case Kd => p.(kd := value);
        Some(s.(pid := Some(p')))
  }

  /** Editing the field of the kind being edited keeps the settings that kind. */
  lemma UpdatersKeepControlType(settings: Option<Settings>, df: DeltaField, pf: PidField, value: real)
    ensures GetControlType(settings) == "simple" ==> GetControlType(SetPower(settings, value)) == "simple"
    ensures GetControlType(settings) == "delta" ==> GetControlType(SetDelta(settings, df, value)) == "delta"
    ensures GetControlType(settings) == "pid" && settings.Some? && settings.value.pid.Some? ==>
      GetControlType(SetPid(settings, pf, value)) == "pid"
  {
  }

  /** What the read-only view shows. */
  datatype View = PowerView(power: Option<real>) | DeltaView(minDelta: Option<real>, maxDelta: Option<real>) | PidView(gains: PidSettings) | NotConfigured

  /**
   * `renderViewMode`: the power for simple control, the two bounds for delta control, the
   * gains for PID control with a PID object, and "Not configured" otherwise.
   */
  function RenderViewMode(settings: Option<Settings>): (r: View)
    ensures r == NotConfigured <==>
      GetControlType(settings) !in {"simple", "delta", "pid"} || (GetControlType(settings) == "pid" && (settings.None? || settings.value.pid.None?))
    ensures r.PowerView? ==> settings.Some? && r.power == settings.value.power
    ensures r.DeltaView? ==> settings.Some? && r.minDelta == settings.value.minDelta && r.maxDelta == settings.value.maxDelta
    ensures r.PidView? ==> settings.Some? && settings.value.pid == Some(r.gains)
  {
    var controlType := GetControlType(settings);
    if controlType == "simple" then PowerView(settings.value.power)
    else if controlType == "delta" then DeltaView(settings.value.minDelta, settings.value.maxDelta)
    else if controlType == "pid" && settings.Some? && settings.value.pid.Some? then PidView(settings.value.pid.value)
    else NotConfigured
  }

  /** Settings typed as PID but without gains are shown as not configured. */
  lemma PidWithoutGainsNotConfigured(s: Settings)
    requires s.kind == Some("pid") && s.pid.None?
    ensures RenderViewMode(Some(s)) == NotConfigured
  {
  }
}
