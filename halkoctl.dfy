/**
 * The command-line client's pure helpers: duration formatting and the current-step lookup
 * (halkoctl/running.go), the history listing's helpers (halkoctl/history.go), the
 * separation of global options from the command (halkoctl/options.go), temperature names
 * (halkoctl/temperatures.go) and the live-log address (halkoctl/stream.go).
 */
module HalkoctlRunning {
  import opened Wrappers
  import opened Text
  import opened ProgramTypes

  /** Go's integer division, rounding toward zero. */
  function Quot(a: int, b: int): (q: int)
    requires b > 0
    ensures a >= 0 ==> q == a / b
    ensures a < 0 ==> q == -((-a) / b)
  {
    if a >= 0 then a / b else -((-a) / b)
  }

  /** Go's `%`: the remainder has the sign of the dividend. */
  function Rem(a: int, b: int): (r: int)
    requires b > 0
    ensures a == b * Quot(a, b) + r
    ensures -b < r < b && (a >= 0 ==> r >= 0) && (a <= 0 ==> r <= 0)
  {
    a - b * Quot(a, b)
  }

  /** Hours, minutes within the hour and seconds within the minute, as a duration's accessors truncate them. */
  datatype Clock = Clock(hours: int, minutes: int, seconds: int)

  function Split(seconds: int): (c: Clock)
    ensures 3600 * c.hours + 60 * c.minutes + c.seconds == seconds
    ensures seconds >= 0 ==> c.hours >= 0 && 0 <= c.minutes < 60 && 0 <= c.seconds < 60
    ensures seconds >= 0 ==> c.hours == seconds / 3600 && c.minutes == (seconds / 60) % 60 && c.seconds == seconds % 60
  {
    var totalMinutes := Quot(seconds, 60);
    assert Quot(totalMinutes, 60) == Quot(seconds, 3600);
    Clock(Quot(seconds, 3600), Rem(totalMinutes, 60), Rem(seconds, 60))
  }

  /** `formatDuration`: hours only when there are any, minutes when there are hours or minutes. */
  function FormatDuration(seconds: int): (r: string)
    ensures var c := Split(seconds);
      (c.hours > 0 ==> r == IntToString(c.hours) + "h " + IntToString(c.minutes) + "m " + IntToString(c.seconds) + "s") &&
      (c.hours <= 0 && c.minutes > 0 ==> r == IntToString(c.minutes) + "m " + IntToString(c.seconds) + "s") &&
      (c.hours <= 0 && c.minutes <= 0 ==> r == IntToString(c.seconds) + "s")
  {
    var c := Split(seconds);
    if c.hours > 0 then IntToString(c.hours) + "h " + IntToString(c.minutes) + "m " + IntToString(c.seconds) + "s"
    else if c.minutes > 0 then IntToString(c.minutes) + "m " + IntToString(c.seconds) + "s"
    else IntToString(c.seconds) + "s"
  }

  /** What the status reply leads to: nothing running (204), an error report (other than 200), or the program shown. */
  datatype Reply = NoProgramRunning | HttpError(status: int) | ShowProgram

  function ReplyFor(status: int): (r: Reply)
    ensures r == NoProgramRunning <==> status == 204
    ensures r == ShowProgram <==> status == 200
  {
    if status == 204 then NoProgramRunning else if status != 200 then HttpError(status) else ShowProgram
  }

  /** The index of the first step with the given name, if any. */
  function FirstNamed(steps: seq<ProgramStep>, name: string): (r: Option<nat>)
    ensures r.Some? ==>
      r.value < |steps| && steps[r.value].name == name && forall k :: 0 <= k < r.value ==> steps[k].name != name
    ensures r.None? ==> forall k :: 0 <= k < |steps| ==> steps[k].name != name
  {
    if steps == [] then None
    else if steps[0].name == name then Some(0)
    else match FirstNamed(steps[1..], name)
      case None => None
      case Some(i) => Some(i + 1)
  }

  const NanosPerSecond := 1000000000

  /** The time left of a step with a runtime (nanoseconds), started at `stepStartedAt`, at `now`: never below 0. */
  function Remaining(runtime: int, stepStartedAt: int, now: int): (r: int)
    ensures r >= 0
    ensures r == 0 || r == Quot(runtime, NanosPerSecond) - (now - stepStartedAt)
  {
    var left := Quot(runtime, NanosPerSecond) - (now - stepStartedAt);
    if left < 0 then 0 else left
  }

  /**
   * The loop of `queryRunningProgram` over the steps: the first step named as the current one
   * gives the target temperature, and, when it has a runtime and the step has a start time,
   * the time remaining.
   */
  method CurrentStepTimes(steps: seq<ProgramStep>, currentStep: string, stepStartedAt: int, now: int)
    returns (targetTemp: Uint8, remainingTime: int, hasRuntime: bool)
    ensures remainingTime >= 0
    ensures FirstNamed(steps, currentStep).None? ==> targetTemp == 0 && remainingTime == 0 && !hasRuntime
    ensures FirstNamed(steps, currentStep).Some? ==>
      var s := steps[FirstNamed(steps, currentStep).value];
      targetTemp == s.targetTemperature &&
      (hasRuntime <==> s.runtime.Some? && stepStartedAt > 0) &&
      (hasRuntime ==> remainingTime == Remaining(s.runtime.value, stepStartedAt, now)) &&
      (!hasRuntime ==> remainingTime == 0)
  {
    targetTemp, remainingTime, hasRuntime := 0, 0, false;
    var i := 0;
    while i < |steps|
      invariant 0 <= i <= |steps|
      invariant forall k :: 0 <= k < i ==> steps[k].name != currentStep
      invariant targetTemp == 0 && remainingTime == 0 && !hasRuntime
    {
      var step := steps[i];
      if step.name == currentStep {
        targetTemp := step.targetTemperature;
        if step.runtime.Some? && stepStartedAt > 0 {
          hasRuntime := true;
          var stepElapsed := now - stepStartedAt;
          remainingTime := Quot(step.runtime.value, NanosPerSecond) - stepElapsed;
          if remainingTime < 0 {
            remainingTime := 0;
          }
        }
        assert FirstNamed(steps, currentStep) == Some(i) by {
          FirstNamedAt(steps, currentStep, i);
        }
        return;
      }
      i := i + 1;
    }
  }

  /** A step bearing the name, with none before it, is the one `FirstNamed` finds. */
  lemma FirstNamedAt(steps: seq<ProgramStep>, name: string, i: nat)
    requires i < |steps| && steps[i].name == name && forall k :: 0 <= k < i ==> steps[k].name != name
    ensures FirstNamed(steps, name) == Some(i)
  {
    var r := FirstNamed(steps, name);
    assert r.Some?;
  }
}

module HalkoctlHistory {
  import opened Wrappers
  import opened Text
  import opened ProgramTypes
  import HalkoctlRunning

  /** `formatDurationLong` on a duration of whole seconds. */
  function FormatDurationLong(seconds: int): (r: string)
    ensures var c := HalkoctlRunning.Split(seconds);
      (c.hours > 0 ==> r == IntToString(c.hours) + "h " + IntToString(c.minutes) + "m " + IntToString(c.seconds) + "s") &&
      (c.hours <= 0 && c.minutes > 0 ==> r == IntToString(c.minutes) + "m " + IntToString(c.seconds) + "s") &&
      (c.hours <= 0 && c.minutes <= 0 ==> r == IntToString(c.seconds) + "s")
  {
    var hours := HalkoctlRunning.Quot(seconds, 3600);
    var minutes := HalkoctlRunning.Rem(HalkoctlRunning.Quot(seconds, 60), 60);
    var secs := HalkoctlRunning.Rem(seconds, 60);
    assert HalkoctlRunning.Split(seconds) == HalkoctlRunning.Clock(hours, minutes, secs);
    if hours > 0 then IntToString(hours) + "h " + IntToString(minutes) + "m " + IntToString(secs) + "s"
    else if minutes > 0 then IntToString(minutes) + "m " + IntToString(secs) + "s"
    else IntToString(secs) + "s"
  }

  /** The long and the short duration formats agree on every number of seconds. */
  lemma DurationFormatsAgree(seconds: int)
    ensures FormatDurationLong(seconds) == HalkoctlRunning.FormatDuration(seconds)
  {
  }

  /** How `formatPowerControl` describes a power setting (the numbers' formatting is not modelled). */
  datatype ControlLabel = SimpleLabel(power: Uint8) | DeltaLabel(minDelta: real, maxDelta: real) | PidLabel(pid: PidSettings) | NotSpecified

  function FormatPowerControl(p: PowerPidSettings): (r: ControlLabel)
    ensures r.SimpleLabel? <==> p.power.Some?
    ensures r.DeltaLabel? <==> p.power.None? && p.minDelta.Some? && p.maxDelta.Some?
    ensures r.PidLabel? ==> p.pid.Some?
    ensures r == NotSpecified <==> p.power.None? && (p.minDelta.None? || p.maxDelta.None?) && p.pid.None?
  {
    if p.power.Some? then SimpleLabel(p.power.value)
    else if p.minDelta.Some? && p.maxDelta.Some? then DeltaLabel(p.minDelta.value, p.maxDelta.value)
    else if p.pid.Some? then PidLabel(p.pid.value)
    else NotSpecified
  }

  /** A lone minimum or maximum delta never shows as delta control: it falls through to PID or "Not specified". */
  lemma LoneDeltaIsNotDelta(p: PowerPidSettings)
    requires p.power.None? && (p.minDelta.Some? != p.maxDelta.Some?)
    ensures FormatPowerControl(p) == (if p.pid.Some? then PidLabel(p.pid.value) else NotSpecified)
  {
  }

  /** The duration printed for a run: only when both times are set, and then completion minus start. */
  function RunDuration(startedAt: int, completedAt: int): (r: Option<int>)
    ensures r.Some? <==> startedAt > 0 && completedAt > 0
    ensures r.Some? ==> r.value + startedAt == completedAt
  {
    if completedAt > 0 && startedAt > 0 then Some(completedAt - startedAt) else None
  }

  predicate IsOutputFlag(arg: string) {
    arg == "-o" || arg == "--output"
  }

  /** The `-o` scan from index `i`, with `out` found so far: a flag followed by an argument takes it and skips it. */
  function OutputScan(args: seq<string>, i: nat, out: string): string
    decreases |args| - i
  {
    if i >= |args| then out
    else if IsOutputFlag(args[i]) && i + 1 < |args| then OutputScan(args, i + 2, args[i + 1])
    else OutputScan(args, i + 1, out)
  }

  /** The scan in `handleHistoryLogCommand`, from the argument after the program name. */
  method ScanOutputFile(args: seq<string>) returns (outputFile: string)
    ensures outputFile == OutputScan(args, 4, "")
  {
    outputFile := "";
    var i := 4;
    while i < |args|
      invariant i >= 4
      invariant OutputScan(args, i, outputFile) == OutputScan(args, 4, "")
      decreases |args| - i
    {
      if IsOutputFlag(args[i]) && i + 1 < |args| {
        outputFile := args[i + 1];
        i := i + 1;
      }
      i := i + 1;
    }
  }

  /** The result is what was found before, or an argument that directly follows an output flag. */
  lemma {:induction false} OutputScanSource(args: seq<string>, i: nat, out: string)
    ensures var r := OutputScan(args, i, out);
      r == out || exists j :: i <= j < |args| - 1 && IsOutputFlag(args[j]) && r == args[j + 1]
    decreases |args| - i
  {
    if i < |args| {
      if IsOutputFlag(args[i]) && i + 1 < |args| {
        OutputScanSource(args, i + 2, args[i + 1]);
      } else {
        OutputScanSource(args, i + 1, out);
      }
    }
  }

  /**
   * When the arguments do not end in a flag, an output flag and a value added at the end win,
   * and an output flag added alone at the end is ignored.
   */
  lemma {:induction false} OutputScanAppend(args: seq<string>, i: nat, out: string, flag: string, value: string)
    requires IsOutputFlag(flag) && i <= |args|
    requires args == [] || !IsOutputFlag(args[|args| - 1])
    ensures OutputScan(args + [flag, value], i, out) == value
    ensures OutputScan(args + [flag], i, out) == OutputScan(args, i, out)
    decreases |args| - i
  {
    var longer := args + [flag, value];
    var single := args + [flag];
    if i == |args| {
      assert longer[i] == flag && single[i] == flag;
    } else if i == |args| - 1 {
      assert longer[i] == args[i] && single[i] == args[i] && longer[i + 1] == flag && single[i + 1] == flag;
      assert OutputScan(longer, i + 1, out) == OutputScan(longer, i + 3, value) == value;
      assert OutputScan(single, i + 1, out) == OutputScan(single, i + 2, out) == out;
      assert OutputScan(args, i, out) == OutputScan(args, i + 1, out) == out;
    } else {
      assert longer[i] == args[i] && longer[i + 1] == args[i + 1];
      assert single[i] == args[i] && single[i + 1] == args[i + 1];
      if IsOutputFlag(args[i]) {
        OutputScanAppend(args, i + 2, args[i + 1], flag, value);
      } else {
        OutputScanAppend(args, i + 1, out, flag, value);
      }
    }
  }
}

module HalkoctlOptions {
  import opened Wrappers
  import opened Text

  predicate IsConfigFlag(arg: string) {
    arg == "-c" || arg == "--config"
  }

  predicate IsVerboseFlag(arg: string) {
    arg == "-v" || arg == "--verbose"
  }

  /**
   * The separation loop of `ParseGlobalOptions` from index `i` with the global arguments kept
   * so far: the kept arguments and the index of the command (-1 when there is none).
   */
  function Separate(args: seq<string>, i: nat, kept: seq<string>): (seq<string>, int)
    decreases |args| - i
  {
    if i >= |args| then (kept, -1)
    else if IsConfigFlag(args[i]) then
      if i + 1 < |args| && !StartsWith(args[i + 1], "-") then Separate(args, i + 2, kept + [args[i], args[i + 1]])
      else Separate(args, i + 1, kept + [args[i]])
    else if IsVerboseFlag(args[i]) then Separate(args, i + 1, kept + [args[i]])
    else if !StartsWith(args[i], "-") then (kept, i)
    else Separate(args, i + 1, kept)
  }

  /**
   * The command is the first argument (from `i`) that does not start with "-" and is not taken
   * as the configuration value, or -1; the kept arguments extend `kept` with recognised flags
   * and configuration values only, all taken from before the command.
   */
  lemma {:induction false} SeparateFacts(args: seq<string>, i: nat, kept: seq<string>)
    ensures var (r, command) := Separate(args, i, kept);
      (command == -1 || (i <= command < |args| && !StartsWith(args[command], "-"))) &&
      |r| >= |kept| && r[..|kept|] == kept &&
      (forall k :: |kept| <= k < |r| ==>
        (IsConfigFlag(r[k]) || IsVerboseFlag(r[k]) || !StartsWith(r[k], "-")) &&
        exists j :: i <= j < (if command == -1 then |args| else command) && args[j] == r[k]) &&
      ((forall j :: i <= j < |args| ==> StartsWith(args[j], "-")) ==> command == -1)
    decreases |args| - i
  {
    if i < |args| {
      var arg := args[i];
      if IsConfigFlag(arg) {
        if i + 1 < |args| && !StartsWith(args[i + 1], "-") {
          var next := kept + [arg, args[i + 1]];
          SeparateFacts(args, i + 2, next);
          var (r, command) := Separate(args, i, kept);
          forall k | |kept| <= k < |r|
            ensures exists j :: i <= j < (if command == -1 then |args| else command) && args[j] == r[k]
          {
            if k == |kept| {
              assert args[i] == r[k];
            } else if k == |kept| + 1 {
              assert r[..|next|][k] == next[k];
              assert args[i + 1] == r[k];
            }
          }
        } else {
          var next := kept + [arg];
          SeparateFacts(args, i + 1, next);
          var (r, command) := Separate(args, i, kept);
          forall k | |kept| <= k < |r|
            ensures exists j :: i <= j < (if command == -1 then |args| else command) && args[j] == r[k]
          {
            if k == |kept| {
              assert args[i] == r[k];
            }
          }
        }
      } else if IsVerboseFlag(arg) {
        var next := kept + [arg];
        SeparateFacts(args, i + 1, next);
        var (r, command) := Separate(args, i, kept);
        forall k | |kept| <= k < |r|
          ensures exists j :: i <= j < (if command == -1 then |args| else command) && args[j] == r[k]
        {
          if k == |kept| {
            assert args[i] == r[k];
          }
        }
      } else if StartsWith(arg, "-") {
        SeparateFacts(args, i + 1, kept);
      }
    }
  }

  /** Argument `j` is the configuration value of the flag just before it, when the scan starts at `i`. */
  predicate IsConfigValueAt(args: seq<string>, i: nat, j: nat)
    requires i <= j < |args|
  {
    j > i && IsConfigFlag(args[j - 1]) && !StartsWith(args[j], "-")
  }

  /** Argument `j` can name the command: it does not start with "-" and is no configuration value. */
  predicate IsCommandAt(args: seq<string>, i: nat, j: nat)
    requires i <= j < |args|
  {
    !StartsWith(args[j], "-") && !IsConfigValueAt(args, i, j)
  }

  /** Argument `j` belongs to the global options: a recognised flag or a configuration value. */
  predicate IsGlobalAt(args: seq<string>, i: nat, j: nat)
    requires i <= j < |args|
  {
    IsConfigFlag(args[j]) || IsVerboseFlag(args[j]) || IsConfigValueAt(args, i, j)
  }

  /**
   * Reference definition by position: the arguments of `args[lo..hi]` that belong to the global
   * options, in their order, when the scan starts at `i`.
   */
  function GlobalsIn(args: seq<string>, i: nat, lo: nat, hi: nat): (r: seq<string>)
    requires i <= lo <= hi <= |args|
    ensures |r| <= hi - lo
    ensures forall k :: 0 <= k < |r| ==> IsConfigFlag(r[k]) || IsVerboseFlag(r[k]) || !StartsWith(r[k], "-")
    decreases hi - lo
  {
    if lo == hi then []
    else (if IsGlobalAt(args, i, lo) then [args[lo]] else []) + GlobalsIn(args, i, lo + 1, hi)
  }

  /** Moving the scan start from `i` to `i2` changes nothing from `lo` on when `i2` is no configuration value. */
  lemma {:induction false} GlobalsInRebase(args: seq<string>, i: nat, i2: nat, lo: nat, hi: nat)
    requires i <= i2 <= lo <= hi <= |args|
    requires i2 < |args| ==> !IsConfigValueAt(args, i, i2)
    ensures GlobalsIn(args, i, lo, hi) == GlobalsIn(args, i2, lo, hi)
    decreases hi - lo
  {
    if lo < hi {
      assert IsGlobalAt(args, i, lo) == IsGlobalAt(args, i2, lo);
      GlobalsInRebase(args, i, i2, lo + 1, hi);
    }
  }

  /** `GlobalsIn` over two adjacent ranges is the concatenation of the two. */
  lemma {:induction false} GlobalsInSplit(args: seq<string>, i: nat, lo: nat, mid: nat, hi: nat)
    requires i <= lo <= mid <= hi <= |args|
    ensures GlobalsIn(args, i, lo, hi) == GlobalsIn(args, i, lo, mid) + GlobalsIn(args, i, mid, hi)
    decreases mid - lo
  {
    if lo < mid {
      GlobalsInSplit(args, i, lo + 1, mid, hi);
    }
  }

  /**
   * The separation rule by position for a result `res` of a scan from `i` with `kept` so far:
   * the command is the first argument from `i` that does not start with "-" and is no
   * configuration value (-1 when there is none), and the kept arguments are exactly the
   * recognised flags and configuration values before it, in their order.
   */
  predicate SeparatedBy(args: seq<string>, i: nat, kept: seq<string>, res: (seq<string>, int))
    requires i <= |args|
  {
    var command := res.1;
    var end := if command == -1 then |args| else command;
    (command == -1 || (i <= command < |args| && IsCommandAt(args, i, command))) &&
    (forall j :: i <= j < end ==> !IsCommandAt(args, i, j)) &&
    res.0 == kept + GlobalsIn(args, i, i, end)
  }

  /** The kept arguments up to `end`: those before `i2`, then those from `i2` as a scan from `i2` sees them. */
  lemma GlobalsInShift(args: seq<string>, i: nat, i2: nat, end: nat)
    requires i <= i2 <= end <= |args|
    requires i2 < |args| ==> !IsConfigValueAt(args, i, i2)
    ensures GlobalsIn(args, i, i, end) == GlobalsIn(args, i, i, i2) + GlobalsIn(args, i2, i2, end)
  {
    GlobalsInSplit(args, i, i, i2, end);
    GlobalsInRebase(args, i, i2, i2, end);
  }

  /** No command before `end` for a scan from `i2`, and none before `i2`, means none before `end` from `i`. */
  lemma NoCommandShift(args: seq<string>, i: nat, i2: nat, end: nat)
    requires i <= i2 <= end <= |args|
    requires i2 < |args| ==> !IsConfigValueAt(args, i, i2)
    requires forall j :: i <= j < i2 ==> !IsCommandAt(args, i, j)
    requires forall j :: i2 <= j < end ==> !IsCommandAt(args, i2, j)
    ensures forall j :: i <= j < end ==> !IsCommandAt(args, i, j)
  {
    forall j | i2 <= j < end
      ensures !IsCommandAt(args, i, j)
    {
      assert !IsCommandAt(args, i2, j);
    }
  }

  /** One step of the scan from `i` to `i2` that only keeps global arguments carries the rule back to `i`. */
  lemma SeparatedShift(args: seq<string>, i: nat, i2: nat, kept: seq<string>, kept2: seq<string>, res: (seq<string>, int))
    requires i <= i2 <= |args|
    requires kept2 == kept + GlobalsIn(args, i, i, i2)
    requires forall j :: i <= j < i2 ==> !IsCommandAt(args, i, j)
    requires i2 < |args| ==> !IsConfigValueAt(args, i, i2)
    requires SeparatedBy(args, i2, kept2, res)
    ensures SeparatedBy(args, i, kept, res)
  {
    var command := res.1;
    var end := if command == -1 then |args| else command;
    assert command == -1 || i2 <= command < |args|;
    GlobalsInShift(args, i, i2, end);
    NoCommandShift(args, i, i2, end);
    if command != -1 {
      assert IsCommandAt(args, i2, command);
    }
  }

  /** The recognised flags all start with "-", so none of them is a command or a configuration value. */
  lemma FlagsStartWithDash(arg: string)
    requires IsConfigFlag(arg) || IsVerboseFlag(arg)
    ensures StartsWith(arg, "-")
  {
    assert "-c"[..1] == "-" && "--config"[..1] == "-" && "-v"[..1] == "-" && "--verbose"[..1] == "-";
  }

  /** `Separate` follows the separation rule by position. */
  lemma {:induction false} SeparateExact(args: seq<string>, i: nat, kept: seq<string>)
    requires i <= |args|
    ensures SeparatedBy(args, i, kept, Separate(args, i, kept))
    decreases |args| - i
  {
    if i < |args| {
      var arg := args[i];
      var res := Separate(args, i, kept);
      if IsConfigFlag(arg) {
        FlagsStartWithDash(arg);
        assert !IsCommandAt(args, i, i) && IsGlobalAt(args, i, i);
        if i + 1 < |args| && !StartsWith(args[i + 1], "-") {
          var next := kept + [arg, args[i + 1]];
          assert res == Separate(args, i + 2, next);
          SeparateExact(args, i + 2, next);
          assert IsConfigValueAt(args, i, i + 1);
          assert GlobalsIn(args, i, i, i + 2) == [arg, args[i + 1]];
          SeparatedShift(args, i, i + 2, kept, next, res);
        } else {
          assert res == Separate(args, i + 1, kept + [arg]);
          SeparateExact(args, i + 1, kept + [arg]);
          assert GlobalsIn(args, i, i, i + 1) == [arg];
          SeparatedShift(args, i, i + 1, kept, kept + [arg], res);
        }
      } else if IsVerboseFlag(arg) {
        FlagsStartWithDash(arg);
        assert !IsCommandAt(args, i, i) && IsGlobalAt(args, i, i);
        assert res == Separate(args, i + 1, kept + [arg]);
        SeparateExact(args, i + 1, kept + [arg]);
        assert GlobalsIn(args, i, i, i + 1) == [arg];
        SeparatedShift(args, i, i + 1, kept, kept + [arg], res);
      } else if StartsWith(arg, "-") {
        assert !IsCommandAt(args, i, i) && !IsGlobalAt(args, i, i);
        assert res == Separate(args, i + 1, kept);
        SeparateExact(args, i + 1, kept);
        assert GlobalsIn(args, i, i, i + 1) == [];
        SeparatedShift(args, i, i + 1, kept, kept, res);
      } else {
        assert IsCommandAt(args, i, i);
      }
    }
  }

  /** `ParseGlobalOptions`'s loop: the global arguments, starting with the program name, and the command's index. */
  method SplitGlobalArgs(args: seq<string>) returns (globalArgs: seq<string>, commandIndex: int)
    requires |args| >= 1
    ensures (globalArgs, commandIndex) == Separate(args, 1, [args[0]])
    ensures |globalArgs| >= 1 && globalArgs[0] == args[0]
    ensures commandIndex == -1 || (1 <= commandIndex < |args| && !StartsWith(args[commandIndex], "-"))
    ensures SeparatedBy(args, 1, [args[0]], (globalArgs, commandIndex))
  {
    commandIndex := -1;
    globalArgs := [args[0]];
    var i := 1;
    while i < |args|
      invariant 1 <= i
      invariant Separate(args, i, globalArgs) == Separate(args, 1, [args[0]])
      invariant |globalArgs| >= 1 && globalArgs[0] == args[0] && commandIndex == -1
      decreases |args| - i
    {
      var arg := args[i];
      if IsConfigFlag(arg) {
        if i + 1 < |args| && !StartsWith(args[i + 1], "-") {
          ghost var next := globalArgs + [arg, args[i + 1]];
          assert Separate(args, i, globalArgs) == Separate(args, i + 2, next);
          globalArgs := globalArgs + [arg];
          i := i + 1;
          globalArgs := globalArgs + [args[i]];
          assert globalArgs == next;
        } else {
          assert Separate(args, i, globalArgs) == Separate(args, i + 1, globalArgs + [arg]);
          globalArgs := globalArgs + [arg];
        }
      } else if IsVerboseFlag(arg) {
        assert Separate(args, i, globalArgs) == Separate(args, i + 1, globalArgs + [arg]);
        globalArgs := globalArgs + [arg];
      } else if !StartsWith(arg, "-") {
        assert Separate(args, i, globalArgs) == (globalArgs, i);
        commandIndex := i;
        break;
      } else {
        assert Separate(args, i, globalArgs) == Separate(args, i + 1, globalArgs);
      }
      i := i + 1;
    }
    SeparateFacts(args, 1, [args[0]]);
    SeparateExact(args, 1, [args[0]]);
  }

  datatype GlobalOptions = GlobalOptions(configPath: string, verbose: bool)

  const DefaultConfigPath := "/etc/opt/halko.cfg"

  /** A failed parse of the global arguments falls back to the default configuration path, not verbose. */
  function OptionsOrDefault(parsed: Result<GlobalOptions>): (r: GlobalOptions)
    ensures parsed.Err? ==> r == GlobalOptions(DefaultConfigPath, false)
    ensures parsed.Ok? ==> r == parsed.value
  {
    if parsed.Err? then GlobalOptions(DefaultConfigPath, false) else parsed.value
  }

  /** The positional argument of `send`, `validate` and `display`: the first left after the flags, or empty. */
  function FirstPositional(rest: seq<string>): (r: string)
    ensures rest != [] ==> r == rest[0]
    ensures rest == [] ==> r == ""
  {
    if |rest| > 0 then rest[0] else ""
  }
}

module HalkoctlTemperatures {
  import opened Text
  import opened ApiTypes

  /** `formatTemperatureName`: the two known sensors by their display names; otherwise the first letter upper-cased and the rest lower-cased. */
  function FormatTemperatureName(name: string): (r: string)
    ensures name == "oven" ==> r == "Oven"
    ensures name == "material" ==> r == "Material/Wood"
    ensures name != "oven" && name != "material" ==>
      |r| == |name| && (name != [] ==> r[0] == ToUpperAscii(name[0]) && r[1..] == ToLower(name[1..]))
  {
    if name == "oven" then "Oven"
    else if name == "material" then "Material/Wood"
    else if |name| == 0 then name
    else [ToUpperAscii(name[0])] + ToLower(name[1..])
  }

  lemma ToLowerTwice(s: string)
    ensures ToLower(ToLower(s)) == ToLower(s)
  {
  }

  /** Formatting a name that is not one of the two sensors' a second time changes nothing. */
  lemma FormatNameSettles(name: string)
    requires name != "oven" && name != "material"
    ensures FormatTemperatureName(FormatTemperatureName(name)) == FormatTemperatureName(name)
  {
    var r := FormatTemperatureName(name);
    if name != [] {
      assert r[0] != 'o' && r[0] != 'm';
      ToLowerTwice(name[1..]);
      assert r[1..] == ToLower(name[1..]);
    }
  }

  /** A reading as shown: the invalid marker as "Invalid reading", anything else as its value. */
  datatype Shown = InvalidReading | Degrees(value: real)

  function ShowReading(temp: real): (r: Shown)
    ensures r == InvalidReading <==> temp == InvalidTemperatureReading
    ensures r.Degrees? ==> r.value == temp
  {
    if temp == InvalidTemperatureReading then InvalidReading else Degrees(temp)
  }

  /** The error for a status outside 2xx: the status, then the trimmed body when the body is not empty. */
  function StatusError(status: int, body: string): (r: string)
    ensures StartsWith(r, "HTTP request failed with status " + IntToString(status))
    ensures body == [] ==> r == "HTTP request failed with status " + IntToString(status)
    ensures body != [] ==> EndsWith(r, ": " + Trim(body))
  {
    var message := "HTTP request failed with status " + IntToString(status);
    if |body| > 0 then message + ": " + Trim(body) else message
  }
}

module HalkoctlStream {
  import opened Text

  const LogPath := "/engine/running/logws"

  /** The live-log address: an http base becomes ws, an https base wss, anything else stays, and the log path follows. */
  function WebSocketUrl(baseUrl: string): (r: string)
    ensures EndsWith(r, LogPath)
    ensures StartsWith(baseUrl, "http://") ==> r == "ws://" + baseUrl[7..] + LogPath
    ensures StartsWith(baseUrl, "https://") ==> r == "wss://" + baseUrl[8..] + LogPath
    ensures !StartsWith(baseUrl, "http://") && !StartsWith(baseUrl, "https://") ==> r == baseUrl + LogPath
  {
    assert StartsWith(baseUrl, "https://") ==> baseUrl[4] == 's' && baseUrl[..7] != "http://";
    var url := if |baseUrl| >= 7 && baseUrl[..7] == "http://" then "ws://" + baseUrl[7..]
      else if |baseUrl| >= 8 && baseUrl[..8] == "https://" then "wss://" + baseUrl[8..]
      else baseUrl;
    url + LogPath
  }

  /** The scheme maps back: the address keeps the host part, behind the ws or wss scheme of section 3 of RFC 6455. */
  lemma WebSocketUrlScheme(rest: string)
    ensures WebSocketUrl("http://" + rest) == "ws://" + rest + LogPath
    ensures WebSocketUrl("https://" + rest) == "wss://" + rest + LogPath
    ensures StartsWith(WebSocketUrl("http://" + rest), "ws://") && StartsWith(WebSocketUrl("https://" + rest), "wss://")
  {
    assert ("http://" + rest)[..7] == "http://";
    assert ("https://" + rest)[..7] != "http://" by {
      assert ("https://" + rest)[4] == 's';
    }
    assert ("https://" + rest)[..8] == "https://";
  }
}
