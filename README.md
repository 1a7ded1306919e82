# halko kiln controller — a Dafny model

halko drives a wood-drying kiln. A control unit, or in a second generation an executor, runs
a *program*: an ordered list of heating, acclimate and cooling steps. Each step sets the
heater, the fan and the humidifier by one of three power rules: simple, delta or PID. A
sensor unit reads the oven and material temperatures over a serial line and drives a small
LCD. A power unit switches the three outputs through a Shelly relay. A storage service keeps
programs and execution logs. A command line tool (`halkoctl`) and a React console show and
edit all of this, and a simulator stands in for the hardware.

This project models the logic under the HTTP, serial, websocket and file plumbing, module by
module, one module per source file:

- The live telemetry path. The execution-log writers of both back-ends decide which status
  rows become CSV lines. The console's `parseCSV` reads a log back. The live chart merges a
  snapshot with a stream of lines, with its connect, close, reconnect and unmount handling.
  The chart component is a class whose methods are the browser events.
- Program validation and defaulting. This covers the control-method rules of the power
  settings, the per-step rules, the step order and the temperature progression. The executor's
  delta-table sorting is modelled too.
- The two control state machines, as classes over their fields, with pure step functions
  they are proved against. The power rules of both back-ends are modelled, including the
  first-update rule of the PID controllers.
- Device-level codecs and small machines:
  - the sensor unit's reply parser, LCD truncation and connection guards;
  - the oven-sensor selection;
  - the Shelly identifiers, URIs and error combination;
  - the simulator's ten-tick power machines;
  - the heartbeat message alternation;
  - the logger's level thresholds.
- Pure helpers:
  - the `halkoctl` duration, name and option handling;
  - configuration validation and port derivation;
  - path-parameter and start-time extraction;
  - the configurator's slice helpers and error mapping;
  - the console's form helpers.

Clocks, HTTP replies, serial exchanges, Go's float parser and RFC 3339 parsing are parameters
of the operations that use them. The console's `parseFloat` and `parseInt` are written out as
`Text.ParseDecimal` and `Text.ParseInt`, for plain decimal text only. Temperatures and PID
terms are `real`. Go's truncating integer division and float-to-int conversions are written
out where the source relies on them.

A failed snapshot request leaves the chart data and the running flag unchanged
(webapp/src/components/LiveExecutionChart.tsx:30-65; `LiveExecutionChart.LiveChart.SnapshotResolved`).

Where a Findings row shows the code as written to be wrong, a member models the code as
written, and the rest of the model uses the corrected member. In particular the sensor unit's
class parses replies with the corrected `SensorSerial.ParseReading` and disconnects in place on
a failed write.

## Model

| member | source | states |
|---|---|---|
| ExecutionChart.Points | webapp/src/components/ExecutionChart.tsx:91-110 | the chart's points are one per line of the trimmed text after the header line |
| ExecutionChart.ParseCsv | webapp/src/components/ExecutionChart.tsx:91-110 | the parsing loop yields exactly one point per non-header line, point i read from line i+1, in order |
| ExecutionChart.NoPointsWithoutSecondLine | webapp/src/components/ExecutionChart.tsx:92-95 | text that is empty or only a header once trimmed yields no point |
| ExecutionChart.PointsOfRows | webapp/src/components/ExecutionChart.tsx:92-107 | a header followed by newline-free rows parses to one point per row, point i being the point of row i |
| ExecutionChart.PointFieldsOfRow | webapp/src/components/ExecutionChart.tsx:96-106 | field k of a point is the k-th comma-separated value of its line; `step` is the raw second value, the others go through parseFloat |
| ExecutionChart.Render | webapp/src/components/ExecutionChart.tsx:112-155 | loading shows the spinner whatever the data; no CSV text shows the placeholder; otherwise the chart has exactly one x-axis label per point, in point order, the point's time in minutes |
| LiveExecutionChart.Classify | webapp/src/components/LiveExecutionChart.tsx:104-126 | a message that is treated as a row is the non-empty trimmed message |
| LiveExecutionChart.ClassifyCases | webapp/src/components/LiveExecutionChart.tsx:104-126 | the sentinel test comes before the empty and header tests; the message is a row exactly when it is not the sentinel, not blank and not a header |
| LiveExecutionChart.Reconcile | webapp/src/components/LiveExecutionChart.tsx:103-153 | no message ever lowers lastTimestamp |
| LiveExecutionChart.ReconcileNonRow | webapp/src/components/LiveExecutionChart.tsx:107-126 | the sentinel empties the text and keeps lastTimestamp; whitespace-only and header messages change neither the text nor lastTimestamp |
| LiveExecutionChart.ReconcileTimedRow | webapp/src/components/LiveExecutionChart.tsx:129-152 | a row with integer leading field t changes the state if and only if t > lastTimestamp, and then it is appended and t becomes lastTimestamp |
| LiveExecutionChart.ReconcileUntimedRow | webapp/src/components/LiveExecutionChart.tsx:129-152 | a row whose leading field is not an integer skips the duplicate check, is appended and leaves lastTimestamp unchanged |
| LiveExecutionChart.AppendLineGrows | webapp/src/components/LiveExecutionChart.tsx:144-152 | appending keeps the previous text as a prefix, ends with the new line and makes the text longer |
| LiveExecutionChart.AppendLineLines | webapp/src/components/LiveExecutionChart.tsx:144-152 | the appended message becomes exactly one new last line: the only line after empty text, the filler of the empty last line after a trailing newline, otherwise a line after all existing ones |
| LiveExecutionChart.StreamMonotonic | webapp/src/components/LiveExecutionChart.tsx:129-139 | over any stream of messages lastTimestamp never decreases |
| LiveExecutionChart.AcceptedIncreasing | webapp/src/components/LiveExecutionChart.tsx:129-139 | the integer timestamps of the rows appended from a stream strictly increase, all exceed the starting lastTimestamp and none exceeds the final one |
| LiveExecutionChart.ReplayIgnored | webapp/src/components/LiveExecutionChart.tsx:129-134 | a row with an integer timestamp, replayed after any further messages, changes nothing: it is never appended twice |
| LiveExecutionChart.ReplayIdempotent | webapp/src/components/LiveExecutionChart.tsx:103-152 | handling the same message twice in a row equals handling it once, except for a row without an integer timestamp |
| LiveExecutionChart.ZeroRowDiscardedAtStart | webapp/src/components/LiveExecutionChart.tsx:129-134 | since lastTimestamp starts at 0, a first streamed row with timestamp 0 is discarded |
| LiveExecutionChart.SnapshotLastRow | webapp/src/components/LiveExecutionChart.tsx:48-54 | a snapshot with a header and rows whose last row starts with the integer t sets lastTimestamp to t |
| LiveExecutionChart.StaleRowDiscarded | webapp/src/components/LiveExecutionChart.tsx:129-134 | with lastTimestamp t, a streamed row at or before t changes neither the text nor lastTimestamp |
| LiveExecutionChart.Socket.constructor | webapp/src/components/LiveExecutionChart.tsx:96-97 | a new socket is connecting and carries the noProgramRunning value of the effect run that made it |
| LiveExecutionChart.Socket.Close | webapp/src/components/LiveExecutionChart.tsx:80-87 | closing a connecting or open socket starts closing it; a closing or closed socket is unchanged |
| LiveExecutionChart.LiveChart.constructor | webapp/src/components/LiveExecutionChart.tsx:12-20 | the initial state: no text, not connected, loading, program assumed running, no socket, lastTimestamp 0, no timer, unmounted |
| LiveExecutionChart.LiveChart.EffectStart | webapp/src/components/LiveExecutionChart.tsx:22-23 | the effect marks the component mounted and changes nothing else |
| LiveExecutionChart.LiveChart.ConnectWebSocket | webapp/src/components/LiveExecutionChart.tsx:67-97 | no-op when unmounted or when the current socket is connecting or open; otherwise the stale socket is closed and dropped, the pending reconnect cancelled and exactly one new connecting socket created |
| LiveExecutionChart.LiveChart.SnapshotResolved | webapp/src/components/LiveExecutionChart.tsx:30-65 | 204 marks no program running and empties the text; another 2xx stores the body, sets lastTimestamp from its last row and connects; anything else only ends loading |
| LiveExecutionChart.LiveChart.OnOpen | webapp/src/components/LiveExecutionChart.tsx:99-101 | opening marks the component connected and changes nothing else |
| LiveExecutionChart.LiveChart.OnMessage | webapp/src/components/LiveExecutionChart.tsx:103-153 | text and lastTimestamp follow Reconcile; the sentinel also clears isConnected, sets noProgramRunning and the manual-close marker and closes the socket |
| LiveExecutionChart.LiveChart.OnError | webapp/src/components/LiveExecutionChart.tsx:155-157 | an error only clears isConnected |
| LiveExecutionChart.LiveChart.OnClose | webapp/src/components/LiveExecutionChart.tsx:159-170 | a reconnect is scheduled 5000 ms later exactly when the close was not manual, the component is mounted and the captured noProgramRunning is false |
| LiveExecutionChart.LiveChart.TimerFire | webapp/src/components/LiveExecutionChart.tsx:159-170 | the reconnect timer's callback connects a new socket unless one is connecting or open |
| LiveExecutionChart.LiveChart.Cleanup | webapp/src/components/LiveExecutionChart.tsx:185-202 | cleanup unmounts, cancels the timer and closes and drops the socket, so no reconnect can follow |
| LiveExecutionChart.LiveChart.Render | webapp/src/components/LiveExecutionChart.tsx:205-219 | the notice exactly when no program runs; otherwise the chart, loading also while connected without text |
| LogRecord.RowOf | controlunit/storagefs/execution_log.go:80-89 | a row's time counts from the log's start, its step time from the step's start, and it carries the status's step, temperatures and power levels |
| LogRecord.RowFields | controlunit/storagefs/execution_log.go:80-89 | a record has one field per header column |
| LogRecord.RecordsAppend | controlunit/storagefs/execution_log.go:46-90 | the file is the header then one record per logged row; logging a row appends exactly its record |
| LogRecord.FieldsPlain | controlunit/storagefs/execution_log.go:80-89 | the integer fields never contain the separator, so the record's fields are plain whenever the step and the formatted temperatures are |
| LogRecord.RowReadsBackInChart | controlunit/storagefs/execution_log.go:80-89 | the chart's point for a logged record has the row's time, step, step time and power levels |
| LogRecord.RowTimestampInStream | controlunit/storagefs/execution_log.go:81 | the live chart's duplicate check reads a logged record's time column as its timestamp |
| ControlUnitExecutionLog.LoggedKeepsSpacing | controlunit/storagefs/execution_log.go:70-92 | one call keeps the remembered clock and step equal to the last row's, and two consecutive rows of the same step stay at least `resolution` apart |
| ControlUnitExecutionLog.ReplayKeepsSpacing | controlunit/storagefs/execution_log.go:70-92 | after any sequence of calls consecutive same-step rows are at least `resolution` apart, whatever the clock does |
| ControlUnitExecutionLog.ReplayAppendOnly | controlunit/storagefs/execution_log.go:80-92 | rows are only appended: the earlier rows stay a prefix of the file |
| ControlUnitExecutionLog.LoggedKeepsOrder | controlunit/storagefs/execution_log.go:81-91 | with a clock that has not gone back since the last write, one call keeps the time column non-decreasing |
| ControlUnitExecutionLog.ReplayTimesNonDecreasing | controlunit/storagefs/execution_log.go:81-91 | with a clock that never goes back, the time column of the whole log never goes back |
| ControlUnitExecutionLog.SpacedCallsAllWrite | controlunit/storagefs/execution_log.go:70-77 | every call made at least `resolution` after the previous write writes its row |
| ControlUnitExecutionLog.ExecutionLogWriter.constructor | controlunit/storagefs/execution_log.go:36-56 | a new writer holds only the header, remembers clock 0 and step "", and has started now |
| ControlUnitExecutionLog.ExecutionLogWriter.New | controlunit/storagefs/execution_log.go:28-59 | there is a writer exactly when the file could be created, and it holds only the header |
| ControlUnitExecutionLog.ExecutionLogWriter.AddLine | controlunit/storagefs/execution_log.go:61-93 | a missing or closed writer does nothing; otherwise the row is written and remembered exactly when the step changed or `resolution` seconds passed |
| ControlUnitExecutionLog.ExecutionLogWriter.Close | controlunit/storagefs/execution_log.go:95-104 | closing detaches the CSV writer and keeps the file; a missing writer is ignored |
| ExecutorExecutionLog.LoggedKeepsCloseness | executor/storage/execution_log.go:64-80 | as written, one call keeps consecutive rows of the same step at most `resolution` apart |
| ExecutorExecutionLog.ReplayKeepsCloseness | executor/storage/execution_log.go:64-80 | as written, any sequence of calls keeps consecutive same-step rows at most `resolution` apart |
| ExecutorExecutionLog.QuietGapSilencesStep | executor/storage/execution_log.go:65-67 | as written, once more than `resolution` has passed since the last write, every later call of the same step is skipped |
| ExecutorExecutionLog.QuietGapExample | executor/storage/execution_log.go:65-67 | with resolution 10 and step "A" logged at 100 then reported at 111, 200 and 300, the executor keeps one row where the control unit's rule keeps four |
| ExecutorExecutionLog.ExecutionLogWriter.constructor | executor/storage/execution_log.go:33-53 | a new writer holds only the header, remembers clock 0 and step "", and has started now |
| ExecutorExecutionLog.ExecutionLogWriter.New | executor/storage/execution_log.go:27-55 | there is a writer exactly when the file could be created, and it holds only the header |
| ExecutorExecutionLog.ExecutionLogWriter.AddLine | executor/storage/execution_log.go:57-81 | a missing or closed writer does nothing; otherwise the row is written and remembered unless more than `resolution` passed and the step is unchanged |
| ExecutorExecutionLog.ExecutionLogWriter.Close | executor/storage/execution_log.go:83-90 | closing detaches the CSV writer and keeps the file; a missing writer is ignored |
| ProgramTypes.ValidatePower | types/program.go:57-87 | validation changes nothing in a setting but its recorded type |
| ProgramTypes.ValidatePowerAccepts | types/program.go:57-87 | a setting passes exactly when it uses one control method, defines both deltas or neither, and any power is within 0..100 |
| ProgramTypes.ValidatePowerType | types/program.go:60-72 | the recorded type is the last method present in the order power, deltas, PID, valid or not; with no method it is left as it was |
| ProgramTypes.ValidatePowerMethodCount | types/program.go:74-76 | no control method, or more than one, is reported as "must define exactly one control method" |
| ProgramTypes.ValidateSimple | types/program.go:89-147 | a setting that must be simple has its type recorded first, passes exactly when it is a valid fixed-power setting, and a non-simple type is reported before its own error |
| ProgramTypes.ValidateByType | types/program.go:108-147 | the step-type rules keep the step apart from recorded types and pass exactly when they hold; an unknown type is rejected |
| ProgramTypes.ValidateStep | types/program.go:89-118 | step validation changes only the recorded types of the step's settings |
| ProgramTypes.ValidateStepAccepts | types/program.go:89-147 | a step passes exactly when fan and humidifier are valid simple settings and its type's rules hold; a non-simple fan is reported first |
| ProgramTypes.PairsError | types/program.go:223-246 | the pair loop reports nothing exactly when every pair from i on keeps the 200-degree cap and the next step's progression rule |
| ProgramTypes.ProgressionError | types/program.go:210-249 | the order check passes exactly when there are three steps or more, heating first, cooling last and every pair valid; two steps or fewer are rejected |
| ProgramTypes.ProgressedTargetsBounded | types/program.go:223-246 | in a program that passes, every target but the last is at most 200 and the final cooling step ends below the step before it |
| ProgramTypes.DefaultPower | types/program.go:177-189 | a fan or humidifier setting always ends with a power, an existing power is kept, and nothing else of the setting changes |
| ProgramTypes.DefaultStep | types/program.go:152-190 | a defaulted step has all three settings and powers for fan and humidifier, keeps what was set, and gives a heater without a method the acclimate PID, the heating deltas or power 0 by step type |
| ProgramTypes.DefaultStepIdempotent | types/program.go:149-193 | applying the defaults twice gives the step the first application gave |
| ProgramTypes.FirstStepError | types/program.go:200-205 | the step loop reports nothing exactly when every step from i on passes validation |
| ProgramTypes.PairsErrorIgnoresTypes | types/program.go:223-246 | the pair rules read only step types and targets, so recorded setting types do not change them |
| ProgramTypes.ProgressionIgnoresTypes | types/program.go:210-249 | the order check gives the same answer before and after setting types are recorded |
| ProgramTypes.ValidatedUpToNext | types/program.go:200-205 | validating step i in place extends the validated prefix by one step |
| ProgramTypes.ValidatedSameButTypes | types/program.go:200-205 | validating steps in place changes at most the recorded types of their settings |
| ProgramTypes.ProgramAccepted | types/program.go:195-249 | a program is accepted exactly when its defaults were applied, every step is valid and the steps progress; so an accepted program starts heating, ends cooling and keeps every target but the last at most 200 |
| ProgramTypes.Program.constructor | types/program.go:149 | a program starts with its steps and without defaults applied |
| ProgramTypes.Program.ApplyDefaults | types/program.go:149-193 | every step becomes its defaulted form, the step count is kept and the program is marked as defaulted |
| ProgramTypes.ValidateSteps | types/program.go:200-205 | the step loop returns the first failing step's error, and nothing when every step is valid; the steps change at most in recorded setting types, and with no error each is its validated form |
| ProgramTypes.Program.Validate | types/program.go:195-208 | the error is the program's specified error, steps change at most in recorded setting types, and an accepted program holds exactly the validated steps |
| ControlUnitFsm.RuntimeSeconds | controlunit/engine/fsm_controller.go:243-245 | a step's runtime in whole seconds, truncated toward zero as Go's `int64(d.Seconds())` truncates |
| ControlUnitFsm.TickByParts | controlunit/engine/fsm_controller.go:379-400 | a tick of a program that has not completed is its handler, then the entry of a changed state, then taking the sensor snapshots, and the state after the entry keeps the step bounds |
| ControlUnitFsm.TickCommandsByParts | controlunit/engine/fsm_controller.go:386-391 | the power commands of a tick are the handler's followed by those of entering the new state, and the handler never changes the stop clock |
| ControlUnitFsm.TickConsistent | controlunit/engine/fsm_controller.go:379-400 | every tick keeps the step index within the bounds each state requires, keeps the program, and never returns to the start state |
| ControlUnitFsm.NextStepConsistent | controlunit/engine/fsm_controller.go:170-193 | the step switch keeps the step bounds: past the last step the program is idle, otherwise the new step is a running step of the program |
| ControlUnitFsm.RunningConsistent | controlunit/engine/fsm_controller.go:195-324 | heating, acclimating and cooling keep the step index and the program |
| ControlUnitFsm.TickTiming | controlunit/engine/fsm_controller.go:379-400 | a completed program is left unchanged; otherwise the snapshots are taken, and the step's start clock is reset exactly when the state changes |
| ControlUnitFsm.StartMovesToWaiting | controlunit/engine/fsm_controller.go:112-121 | the start state always moves to waiting and sets the step to -1, keeping the start and stop clocks |
| ControlUnitFsm.WaitingNeedsFreshReadings | controlunit/engine/fsm_controller.go:123-144 | waiting moves to preheat exactly when both the power unit and the sensors have reported since the program started |
| ControlUnitFsm.PreHeatUntilOvenWarm | controlunit/engine/fsm_controller.go:146-168 | preheat lasts exactly while the oven is colder than the wood and then goes to the step switch; it switches the heater to 100 only when the heater was off |
| ControlUnitFsm.NextStepChosen | controlunit/engine/fsm_controller.go:170-193 | the step switch advances the step by one; past the last step the program is idle and, if not yet stopped, records the clock and turns all outputs off; otherwise the step's type chooses the state |
| ControlUnitFsm.RunningStepExits | controlunit/engine/fsm_controller.go:195-324 | a running step ends exactly when its exit condition holds: heating at the target material temperature, acclimating after its runtime, cooling after its runtime or at a non-zero target; it sends no command outside its power controllers |
| ControlUnitFsm.ShutdownIdempotent | controlunit/engine/fsm_controller.go:403-412 | shutting down a second time changes nothing, and a shutdown at a non-zero clock records that the program stopped |
| ControlUnitFsm.Run | controlunit/engine/fsm_controller.go:379-400 | any sequence of ticks keeps the step bounds and never leaves the program without a state |
| ControlUnitFsm.RunStepNeverDecreases | controlunit/engine/fsm_controller.go:170-193 | over any sequence of ticks after the start state the step index never goes back, and a completed program stays as it is |
| ControlUnitFsm.Int8 | controlunit/engine/fsm_controller.go:446-448 | the conversion of a power percentage to `int8`: the result lies in -128..127 and agrees with the input modulo 256 |
| ControlUnitFsm.StatusLabelByState | controlunit/engine/fsm_controller.go:430-449 | the published step is the running step's name while a step runs, "Initializing" while waiting or preheating, "Completed" once idle; a power level up to 100 is published as read and one above 127 wraps negative |
| ControlUnitFsm.WellformedIgnoresReadings | controlunit/engine/fsm_controller.go:97-104 | the controller's invariant does not depend on the sensor snapshots, so taking new ones keeps it |
| ControlUnitFsm.ProgramFsmController.constructor | controlunit/engine/fsm_controller.go:353-377 | a new controller has no program, no state, no power controllers and has sent no command |
| ControlUnitFsm.ProgramFsmController.Completed | controlunit/engine/fsm_controller.go:422-424 | the program is completed exactly when the state is failed or idle |
| ControlUnitFsm.ProgramFsmController.HasFailed | controlunit/engine/fsm_controller.go:426-428 | the program has failed exactly when the state is failed |
| ControlUnitFsm.ValidatedStepRunnable | types/program.go:89-118 | a step that passes validation validates without error, and the validated step has a known type, usable heater, fan and humidifier settings for their recorded types, and a runtime when it acclimates |
| ControlUnitFsm.AcceptedProgramRunnable | controlunit/router/engine.go:51-57 | a program whose defaults were applied and which validates without error holds validated steps that are all runnable, which is what the state machine's start requires |
| ControlUnitFsm.ProgramFsmController.Start | controlunit/engine/fsm_controller.go:414-420 | starting sets the program, its step count and the start state, records the start clock and clears the stop clock, and sends no command |
| ControlUnitFsm.ProgramFsmController.Shutdown | controlunit/engine/fsm_controller.go:403-412 | the first shutdown records the clock and turns the oven, fan and humidifier off in that order; later ones send nothing |
| ControlUnitFsm.ProgramFsmController.EnterState | controlunit/engine/fsm_controller.go:388-391 | entering a state does what that state's entry does; entering a running state creates power controllers for the current step |
| ControlUnitFsm.ProgramFsmController.EnterEarly | controlunit/engine/fsm_controller.go:117-193 | entering the start, waiting, preheat or step-switch state does what the state machine's entry does and sends its commands, keeping the power controllers |
| ControlUnitFsm.ProgramFsmController.CreateControllers | controlunit/engine/fsm_controller.go:234-239 | the running states' entry creates three new power controllers for the current step, the heater aiming at the step's target |
| ControlUnitFsm.ProgramFsmController.UpdatePower | controlunit/engine/fsm_controller.go:205-229 | a power update sends the heater, fan and humidifier commands of the step's controllers, in that order |
| ControlUnitFsm.ProgramFsmController.Done | controlunit/engine/fsm_controller.go:195-298 | whether the running step's exit condition holds agrees with the state machine's exit condition |
| ControlUnitFsm.ProgramFsmController.ExecuteRunning | controlunit/engine/fsm_controller.go:195-232 | a running state's handler leaves when the step is done; otherwise, with a reading not older than the last, it runs the power controllers and marks the reading as used, and else it sends nothing |
| ControlUnitFsm.ProgramFsmController.ExecuteEarly | controlunit/engine/fsm_controller.go:112-188 | the start, waiting, preheat and step-switch handlers choose the state the state machine chooses and send its commands |
| ControlUnitFsm.ProgramFsmController.ExecuteTick | controlunit/engine/fsm_controller.go:379-400 | a tick moves the controller exactly as the state machine's tick does and sends the commands it sends; a completed program changes nothing |
| ControlUnitPower.Truncate | controlunit/engine/power_controller.go:90 | Go's float-to-int conversion: the integer part of the value, rounded toward zero on both sides of 0 |
| ControlUnitPower.DeltaPower | controlunit/engine/power_controller.go:74-86 | the delta rule is either full power or off, and full power exactly while the oven is below the target capped at wood + max delta and raised to wood + min delta |
| ControlUnitPower.PidPower | controlunit/engine/power_controller.go:88-90 | the PID rule's power is the current power plus the PID output, truncated, when that lies in 0..100, and clamped to 0 or 100 otherwise |
| ControlUnitPower.OutputRange | controlunit/engine/power_controller.go:69-95 | every rule but the fixed power stays within 0..100, the delta rule is on or off, an unknown type turns the output off, and the fixed power is returned as configured |
| ControlUnitPower.ValidatedUsable | types/program.go:57-87 | a setting that passes validation has every field its type's rule dereferences, and a fixed power that passes is at most 100 |
| ControlUnitPower.PidFirstUpdate | controlunit/engine/power_controller.go:38-51 | the first PID update only records its clock and returns 0; a later one keeps that clock, takes the new error and returns kp, ki and kd times the error, its integral and its derivative |
| ControlUnitPower.PidReplayKeepsFirstUpdate | controlunit/engine/power_controller.go:39-44 | over any sequence of updates the recorded clock stays that of the first update, so every interval is measured from it |
| ControlUnitPower.PidReplayIntegral | controlunit/engine/power_controller.go:44-47 | over any sequence of updates the integral grows by each error times the time since the first update |
| ControlUnitPower.PidController.constructor | controlunit/engine/power_controller.go:31-35 | a new PID controller has the given settings and the zero state |
| ControlUnitPower.PidController.Update | controlunit/engine/power_controller.go:38-51 | an update moves the controller's state and returns its output exactly as the PID step does |
| ControlUnitPower.PowerController.constructor | controlunit/engine/power_controller.go:54-65 | a power controller keeps its target and settings, and owns a new PID controller in its initial state exactly when the setting is PID |
| ControlUnitPower.PowerController.Update | controlunit/engine/power_controller.go:69-95 | the power returned is the setting's rule applied to the current readings, and a PID controller advances by one update towards the target from the oven temperature |
| ExecutorFsm.MatchFrom | executor/engine/fsm_controller.go:239-251 | the scan over the table from entry `i` on stops at an entry of the table no earlier than the one before `i` |
| ExecutorFsm.MatchIndex | executor/engine/fsm_controller.go:232-251 | the entry the lookup reads always lies within the table |
| ExecutorFsm.MatchFromBounds | executor/engine/fsm_controller.go:240-247 | once the scan starts past an entry whose delta is at most the current delta, it stops at an entry whose delta is at most the current delta and whose successor's delta exceeds it |
| ExecutorFsm.MatchFromAbove | executor/engine/fsm_controller.go:240-251 | on a table sorted by delta, every entry after the one the scan stops at has a delta above the current delta |
| ExecutorFsm.MatchIndexSorted | executor/engine/fsm_controller.go:225-252 | on a table sorted by delta, as the source assumes, the lookup uses the first entry when the delta is below them all and otherwise the last entry whose delta is at most the current delta |
| ExecutorFsm.MatchIndexBounds | executor/engine/fsm_controller.go:232-252 | whatever the table's order, the entry used has a delta at most the current one unless it is the first, and the entry after it has a larger delta |
| ExecutorFsm.FindMatchingPowerSettings | executor/engine/fsm_controller.go:232-252 | the loop returns the matching entry's duty cycle for the direction, the entered-from-below one going up and the entered-from-above one otherwise, and that cycle is one of the table's |
| ExecutorFsm.Sensed | executor/engine/fsm_controller.go:70-90 | the direction returned is the direction remembered afterwards |
| ExecutorFsm.SensedMoves | executor/engine/fsm_controller.go:74-89 | only a material move of at least one degree changes the remembered temperature and direction, and then to the new reading and the sign of the move; nothing else changes |
| ExecutorFsm.StartedPhase | executor/engine/fsm_controller.go:92-108 | starting a phase keeps the program and the start and stop clocks |
| ExecutorFsm.StartedPhaseConsistent | executor/engine/fsm_controller.go:92-108 | idle and failed are set as they are, a step past the end completes the program as idle, and otherwise the state and step are set; the step index stays within the program |
| ExecutorFsm.StepOutcomeCases | executor/engine/fsm_controller.go:176-223 | the step check returns the current state or failed, fails without completing only for acclimate, fails an unknown step type, and completes a heating step at its maximum or a cooling step at its minimum |
| ExecutorFsm.ExecuteConsistent | executor/engine/fsm_controller.go:288-305 | every handler keeps the step index within the program and keeps the program |
| ExecutorFsm.PreHeatConsistent | executor/engine/fsm_controller.go:123-146 | the preheat check and preheat keep the step index within the program |
| ExecutorFsm.RunningNextConsistent | executor/engine/fsm_controller.go:255-286 | a running step keeps the step index within the program |
| ExecutorFsm.WaitingNeedsReadings | executor/engine/fsm_controller.go:111-120 | waiting sends nothing and moves to the preheat check exactly when both sensors have reported, otherwise changing nothing |
| ExecutorFsm.CheckPreHeatChoice | executor/engine/fsm_controller.go:123-135 | the preheat check starts step 0: going up at once when the oven is warmer than the material, otherwise preheating after turning the heater and the fan to 100 |
| ExecutorFsm.IdleOrFailedStops | executor/engine/fsm_controller.go:149-166 | once stopped, idle and failed do nothing; before that they record the clock when all three outputs report off, and otherwise send the three off commands again |
| ExecutorFsm.RunningStepCommands | executor/engine/fsm_controller.go:255-286 | a running step either completes, sending nothing and starting the next phase, or sends exactly one command per output, heater, fan and humidifier in that order, the heater's from its phase |
| ExecutorFsm.NeverEntersGoingDown | executor/engine/fsm_controller.go:128-143 | no handler ever moves the machine into going down: only going up is started, and a completed step starts the next in its own state |
| ExecutorFsm.HeatingFailsBeforeDeadline | executor/engine/fsm_controller.go:186 | as written, a heating step below its target fails on every tick up to its deadline and carries on after it |
| ExecutorFsm.AcclimateNeverFails | executor/engine/fsm_controller.go:208 | as written, an acclimate step whose range is not inverted never fails, however far the material is outside the range |
| ExecutorFsm.IntendedStepOutcomeMeaning | executor/engine/fsm_controller.go:168-175 | the rule the comment describes: heating and cooling end at their target and fail exactly when the deadline passes first; acclimating fails exactly when the material leaves the range and ends at the deadline; waiting ends exactly at the deadline |
| ExecutorFsm.HeatingOutcomesDiffer | executor/engine/fsm_controller.go:186-196 | the written rule and the intended one disagree on every heating step below its target |
| ExecutorFsm.AbortedRunKeepsPower | executor/engine/fsm_controller.go:307-315 | as written, shutting down a run that has not recorded its stop leaves every output as it was |
| ExecutorFsm.IntendedPowerDownOnce | executor/engine/fsm_controller.go:307 | the shutdown the comment describes turns all three outputs off exactly when the run has not stopped, changes only the stop clock, and a second shutdown sends nothing |
| ExecutorFsm.Status | executor/engine/fsm_controller.go:344-357 | the status names the current step and carries the start clocks, the last temperatures and the power percentages as read |
| ExecutorFsm.ExecutorFsmController.constructor | executor/engine/fsm_controller.go:61-66 | a new controller has every field at its zero value and has sent nothing |
| ExecutorFsm.ExecutorFsmController.Begin | executor/engine/fsm_controller.go:317-322 | running a program takes it with no readings yet, waits, records the start clock and sends nothing |
| ExecutorFsm.ExecutorFsmController.DetermineDelta | executor/engine/fsm_controller.go:70-90 | returns the material-minus-oven difference and updates the remembered temperature and direction as the bookkeeping rule says |
| ExecutorFsm.ExecutorFsmController.StartPhase | executor/engine/fsm_controller.go:92-108 | moves the controller as starting a phase does and sends nothing |
| ExecutorFsm.ExecutorFsmController.StepCompleted | executor/engine/fsm_controller.go:176-223 | returns the step check's outcome for the current state without changing it |
| ExecutorFsm.ExecutorFsmController.PhasePower | executor/engine/fsm_controller.go:271-282 | a phase's duty cycle is its constant cycle, or its table's matching entry when it has a table |
| ExecutorFsm.ExecutorFsmController.RunningStep | executor/engine/fsm_controller.go:255-286 | the going-up-or-down handler moves the controller and sends the commands exactly as the running step does |
| ExecutorFsm.ExecutorFsmController.ExecuteStep | executor/engine/fsm_controller.go:288-305 | a step runs the current state's handler: the controller moves and sends commands as the machine's handler does, and the step bounds hold after it |
| ExecutorFsm.ExecutorFsmController.Shutdown | executor/engine/fsm_controller.go:307-315 | shutdown acts as written: only a run that has already recorded its stop records the clock again and sends the three off commands |
| ExecutorFsm.ExecutorFsmController.Completed | executor/engine/fsm_controller.go:336-338 | the program is completed exactly when the state is failed or idle |
| ExecutorFsm.ExecutorFsmController.HasFailed | executor/engine/fsm_controller.go:340-342 | the program has failed exactly when the state is failed |
| ExecutorFsm.ExecutorFsmController.UpdateStatus | executor/engine/fsm_controller.go:344-357 | the status published is the one the machine's current step and last snapshots give |
| ExecutorPower.DeltaBounds | executor/engine/power_controller.go:85-96 | the step's deltas are used when it gives a maximum, with a missing minimum taken as 0; otherwise the heating defaults are used |
| ExecutorPower.PidConfig | executor/engine/power_controller.go:69-83 | a PID configuration exists exactly when the step or the defaults give one, and the step's own takes precedence |
| ExecutorPower.Aim | executor/engine/power_controller.go:115-127 | the temperature the PID aims at never exceeds the target, and without a minimum delta it is the target capped at wood + max delta |
| ExecutorPower.AimWithinDeltas | executor/engine/power_controller.go:118-123 | with a minimum delta the aim is at least wood + min delta when the target allows it, and at most wood + max delta when the deltas are ordered |
| ExecutorPower.ResetThenUpdate | executor/engine/power_controller.go:56-58 | after a reset the next update starts over: it records its clock and returns 0 |
| ExecutorPower.Power | executor/engine/power_controller.go:109-132 | a controller without a PID returns its constant power; one with a PID returns a power within 0..100 |
| ExecutorPower.PidController.constructor | executor/engine/power_controller.go:33-38 | a new PID controller has the given settings and the zero state |
| ExecutorPower.PidController.Update | executor/engine/power_controller.go:40-54 | an update moves the state and returns the output exactly as the PID step does |
| ExecutorPower.PidController.Reset | executor/engine/power_controller.go:56-58 | a reset zeroes the state |
| ExecutorPower.PowerController.constructor | executor/engine/power_controller.go:68-105 | the controller owns a new PID controller exactly when a PID configuration exists, uses the deltas of the step or of the heating defaults, and keeps the constant power and the target |
| ExecutorPower.PowerController.Constant | executor/engine/power_controller.go:60-65 | a constant controller has no PID, the given power, and zero target and deltas |
| ExecutorPower.PowerController.Update | executor/engine/power_controller.go:109-132 | returns the constant power, or advances the PID by one update towards the aim and returns the current power plus its output clamped to 0..100 |
| ExecutorProgram.Insert | executor/types/program.go:36-38 | inserting a cycle into a table adds exactly that cycle and keeps the others |
| ExecutorProgram.InsertSorted | executor/types/program.go:36-38 | inserting a cycle into a table sorted by delta keeps it sorted |
| ExecutorProgram.SortByDelta | executor/types/program.go:36-38 | sorting by delta yields a table sorted by delta with the same cycles |
| ExecutorProgram.SortSorted | executor/types/program.go:36-38 | a table already sorted by delta is left as it is |
| ExecutorProgram.SortedPhase | executor/types/program.go:35-39 | a phase with a table gets that table sorted by delta with the same cycles, and nothing else of the phase changes |
| ExecutorProgram.Sorted | executor/types/program.go:34-50 | after validation a step's heater table is sorted by delta with the same cycles, and nothing else of the step changes |
| ExecutorProgram.SortedIdempotent | executor/types/program.go:32-52 | validating a step twice gives the same step as validating it once |
| ExecutorProgram.FanTableStaysUnsorted | executor/types/program.go:40-44 | as written, a step whose fan table is out of order still has it out of order after validation |
| ExecutorProgram.SortedAll | executor/types/program.go:33 | validation as its comment intends leaves every table of the step sorted by delta with its own cycles, the heater's as before, and nothing else changed |
| ExecutorProgram.SortedAllKeepsSorted | executor/types/program.go:33 | the intended validation leaves a step whose tables are all sorted as it is |
| ExecutorProgram.Program.constructor | executor/types/program.go:25-29 | a program holds its name, default step time and steps |
| ExecutorProgram.Program.Validate | executor/types/program.go:32-52 | validation accepts every program, keeps its name, default time and number of steps, and leaves each step as the heater-sorting rule gives it |
| SimulatorEngineCycle.TicksOn | simulator/engine/cycle.go:13-15 | the number of ticks a percentage turns on is at most ten, covers the percentage in steps of 10 unless all ten are on, and is the smallest count that does |
| SimulatorEngineCycle.CountOnPrefix | simulator/engine/cycle.go:13-15 | in a pattern whose first `n` ticks are on, the first `k` ticks hold min(n, k) ticks on |
| SimulatorEngineCycle.OnPrefixCount | simulator/engine/cycle.go:13-15 | a cycle's pattern is a run of ticks on followed by ticks off, with one tick on per started 10 percent |
| SimulatorEngineCycle.Cycle.constructor | simulator/engine/cycle.go:10-17 | a new cycle keeps its percentage and has ten ticks, tick i on exactly when 10·i is below the percentage |
| SimulatorEnginePower.Advance | simulator/engine/power.go:56-77 | a stopped output is forced off at tick 0; a running one advances its tick and, after the tenth, takes the queued value; the running flag and the queued value never change |
| SimulatorEnginePower.AdvanceMany | simulator/engine/power.go:56-77 | any number of ticks keeps the tick within the ten-tick period |
| SimulatorEnginePower.PeriodEnd | simulator/engine/power.go:67-76 | a running output keeps its value until its period ends, and exactly when the period ends the queued value becomes current |
| SimulatorEnginePower.Power.constructor | simulator/engine/power.go:19-22 | a new output is stopped, off, with nothing queued, at tick 0 |
| SimulatorEnginePower.Power.Start | simulator/engine/power.go:24-33 | starting runs the output with the given value at tick 0, with off queued |
| SimulatorEnginePower.Power.Stop | simulator/engine/power.go:35-44 | stopping leaves the output stopped, off, with nothing queued, at tick 0 |
| SimulatorEnginePower.Power.SwitchTo | simulator/engine/power.go:46-54 | switching only queues the value for the next period |
| SimulatorEnginePower.Power.Tick | simulator/engine/power.go:56-77 | a tick moves the output exactly as one step of the period rule |
| SimulatorEnginePower.Power.IsRunning | simulator/engine/power.go:79-83 | reports whether the output runs |
| SimulatorEnginePower.Power.Info | simulator/engine/power.go:85-90 | reports whether the output runs and whether it is on now |
| SimulatorTypesCycle.Cycle.constructor | simulator/types/cycle.go:11-22 | a named cycle copies its ten ticks and has 10 percent for each tick that is on |
| SimulatorTypesCycle.CountOnExtremes | simulator/types/cycle.go:15-20 | no tick counts as on exactly when every tick is off, and every tick counts exactly when all are on |
| SimulatorTypesCycle.PercentageRange | simulator/types/cycle.go:14-20 | a cycle's percentage is a multiple of 10 in 0..100, 0 exactly when all ticks are off and 100 exactly when all are on |
| SimulatorTypesCycle.EngineCycleRoundTrip | simulator/types/cycle.go:11-22 | the engine's pattern for a percentage, given a name, carries the percentage rounded up to a multiple of 10 and capped at 100, and a multiple of 10 up to 100 comes back unchanged |
| SimulatorTypesPower.Power.constructor | simulator/types/power.go:16-19 | a new output runs no cycle, queues none, at tick 0 |
| SimulatorTypesPower.Power.Start | simulator/types/power.go:21-28 | starting runs the cycle from the start of a period and drops any queued one |
| SimulatorTypesPower.Power.Stop | simulator/types/power.go:30-37 | stopping leaves no cycle running or queued, at tick 0 |
| SimulatorTypesPower.Power.UpdateCycle | simulator/types/power.go:39-51 | an idle output starts the cycle at once; a running one queues it unless one is already queued, in which case nothing changes |
| SimulatorTypesPower.Power.Tick | simulator/types/power.go:53-72 | an idle output stays at tick 0; a running one advances its tick, and at the end of the period a queued cycle becomes current and the queue empties |
| SimulatorTypesPower.Power.IsRunning | simulator/types/power.go:74-76 | the output runs exactly when it has a current cycle |
| SimulatorTypesPower.Power.CycleInfo | simulator/types/power.go:78-87 | an idle output reports "Off", 0 and off; a running one reports its cycle's name, its percentage and whether the current tick of its cycle is on, so the percentage is a multiple of 10 up to 100, a tick reported on comes with at least 10 percent, and 100 percent always reports on |
| HalkoctlRunning.Quot | halkoctl/running.go:153 | Go's integer division: the quotient of the magnitudes, negated for a negative dividend |
| HalkoctlRunning.Rem | halkoctl/running.go:154-155 | Go's `%`: the dividend is the divisor times the quotient plus the remainder, which is smaller than the divisor and has the dividend's sign |
| HalkoctlRunning.Split | halkoctl/running.go:152-155 | hours, minutes and seconds add back up to the duration, and for a non-negative duration the minutes and seconds lie within 0..59 |
| HalkoctlRunning.FormatDuration | halkoctl/running.go:151-164 | a duration shows hours, minutes and seconds when there are whole hours, minutes and seconds when there are whole minutes, and else only seconds |
| HalkoctlRunning.ReplyFor | halkoctl/running.go:98-107 | a 204 reply means no program is running, a 200 reply shows the program, and any other status is an error |
| HalkoctlRunning.FirstNamed | halkoctl/running.go:123-137 | the step found carries the name and none before it does; no step is found exactly when no step carries the name |
| HalkoctlRunning.Remaining | halkoctl/running.go:129-133 | the time left is never negative, and it is the runtime in whole seconds minus the time since the step started whenever that is not negative |
| HalkoctlRunning.CurrentStepTimes | halkoctl/running.go:119-137 | the first step named as the current one gives the target temperature, and when it has a runtime and the step has a start time, the time left; with no such step everything stays zero |
| HalkoctlRunning.FirstNamedAt | halkoctl/running.go:123-135 | a step carrying the name with none before it is the one the lookup finds |
| HalkoctlHistory.FormatDurationLong | halkoctl/history.go:207-219 | a run's duration shows hours, minutes and seconds by the same rule as the short format |
| HalkoctlHistory.DurationFormatsAgree | halkoctl/history.go:207-219 | the long and the short duration formats give the same text for every number of seconds |
| HalkoctlHistory.FormatPowerControl | halkoctl/history.go:403-414 | a fixed power shows as simple control; otherwise both deltas show as delta control; otherwise a PID as PID control; otherwise "Not specified" |
| HalkoctlHistory.LoneDeltaIsNotDelta | halkoctl/history.go:407-413 | a setting with no fixed power and only one of the two deltas shows as PID control when it has a PID and else as "Not specified" |
| HalkoctlHistory.RunDuration | halkoctl/history.go:189-201 | a run's duration is shown exactly when both its start and completion times are set, and then it is completion minus start |
| HalkoctlHistory.ScanOutputFile | halkoctl/history.go:104-113 | the loop over the arguments after the program name finds the output file the scan rule gives |
| HalkoctlHistory.OutputScanSource | halkoctl/history.go:108-113 | the output file found is empty, or an argument that directly follows an output flag |
| HalkoctlHistory.OutputScanAppend | halkoctl/history.go:108-113 | an output flag and a value added at the end of the arguments win, and an output flag added alone at the end is ignored |
| HalkoctlOptions.SeparateFacts | halkoctl/options.go:50-69 | the command found does not start with "-", and there is none when every argument starts with "-"; the global arguments kept extend those given, each a recognised flag or a configuration value found before the command |
| HalkoctlOptions.GlobalsIn | halkoctl/options.go:53-61 | the arguments of a range that belong to the global options, by position: the flags `-c`, `--config`, `-v`, `--verbose` and each argument not starting with "-" right after a configuration flag, in their order; none of them is an unrecognised dash argument |
| HalkoctlOptions.SeparateExact | halkoctl/options.go:50-69 | the separation loop matches the positional rule: the command is the first argument that neither starts with "-" nor is a configuration value (none when there is no such argument), and the kept arguments are exactly the global-option arguments before it, in order |
| HalkoctlOptions.SplitGlobalArgs | halkoctl/options.go:46-69 | the loop keeps the program name first, then exactly the global-option arguments before the command, in order; the command's position is the first argument that neither starts with "-" nor is a configuration value, or -1 when there is none |
| HalkoctlOptions.OptionsOrDefault | halkoctl/options.go:76-83 | a failed parse of the global options falls back to the default configuration path without verbose output; a successful one is used as parsed |
| HalkoctlOptions.FirstPositional | halkoctl/options.go:108-112 | the program path is the first argument left after the flags, or empty when none is left |
| HalkoctlTemperatures.FormatTemperatureName | halkoctl/temperatures.go:152-165 | the oven and material sensors get their display names; any other name keeps its length, with its first letter upper-cased and the rest lower-cased |
| HalkoctlTemperatures.FormatNameSettles | halkoctl/temperatures.go:158-164 | formatting any other name a second time changes nothing |
| HalkoctlTemperatures.ShowReading | halkoctl/temperatures.go:140-145 | a reading shows as invalid exactly when it is the invalid-reading marker, and otherwise as its value |
| HalkoctlTemperatures.StatusError | halkoctl/temperatures.go:120-126 | the error for a status outside 2xx names the status, and adds the trimmed body exactly when the body is not empty |
| HalkoctlStream.WebSocketUrl | halkoctl/stream.go:29-37 | the live-log address always ends in the log path; an http base becomes ws, an https base wss, and any other base stays as it is |
| HalkoctlStream.WebSocketUrlScheme | halkoctl/stream.go:30-37 | an http or https address keeps its host part behind the ws or wss scheme |
| ConfiguratorSlices.KeptExactly | configurator/utils/slices.go:3-11 | filtering never grows the slice, keeps exactly the accepted elements of the input, and keeps every accepted value as many times as the input has it and no rejected value at all |
| ConfiguratorSlices.KeptExtremes | configurator/utils/slices.go:3-11 | when every element is accepted the input comes back whole, and when none is the result is empty |
| ConfiguratorSlices.Filter | configurator/utils/slices.go:3-11 | the loop appends the accepted elements in order, so the result holds exactly the input's accepted elements |
| ConfiguratorSlices.Map | configurator/utils/slices.go:13-19 | the result has the input's length and holds the mapper's value of each element at the same position |
| ConfiguratorRouter.StatusAndError | configurator/router/router.go:40-49 | the error passes through unchanged; the status is 200 exactly when there is no error, and is always one of 200, 404 and 500 |
| ConfiguratorRouter.WrappingKeepsStatus | configurator/router/router.go:44-47 | wrapping an error never changes its status, the not-found sentinel gives 404, and any other error 500 |
| ConfiguratorRouter.ErrorJson | configurator/router/router.go:36-38 | the error body has the single key "error", holding the error's message |
| Config.ExecutorError | types/config.go:255-269 | the executor section passes exactly when it is present with both hosts, the base path and a positive tick length; a missing section is reported as such |
| Config.SensorUnitError | types/config.go:271-279 | the sensor unit section passes exactly when it is present with a serial device and a positive baud rate; a missing section is reported as such |
| Config.PowerUnitError | types/config.go:281-295 | the power unit section passes exactly when it is present with a Shelly address, positive cycle length and idle time, and a non-empty power mapping; a missing section is reported as such |
| Config.StorageError | types/config.go:297-302 | the storage section passes exactly when it is present with a base path; a missing section is reported as such |
| Config.ExecutorEndpointsError | types/config.go:308-320 | the executor endpoints pass exactly when the URL and the programs, running and status paths are all set |
| Config.SensorUnitEndpointsError | types/config.go:322-334 | the sensor unit endpoints pass exactly when the URL and the temperatures, display and status paths are all set |
| Config.PowerUnitEndpointsError | types/config.go:336-345 | the power unit endpoints pass exactly when the URL and the status and power paths are all set |
| Config.StorageEndpointsError | types/config.go:347-359 | the storage endpoints pass exactly when the URL and the programs, execution log and status paths are all set |
| Config.EndpointsError | types/config.go:304-359 | the endpoints section passes exactly when it is present and every service's endpoints are complete; a missing section is reported as such |
| Config.FirstError | types/config.go:254-362 | checks run in order report nothing exactly when all pass, and otherwise the first failing check's error |
| Config.ValidateRequired | types/config.go:254-362 | validation passes exactly when the configuration is complete, and otherwise reports the error of the first incomplete section in the order executor, sensor unit, power unit, storage, endpoints |
| Config.MissingExecutorFirst | types/config.go:255-257 | a configuration without its executor section is reported for that, whatever else is missing |
| Config.EndpointsReportedLast | types/config.go:304-361 | once every other section is complete, validation reports exactly the endpoints section's result |
| Config.ServiceURL | types/config.go:97-100 | a service URL is the base URL immediately followed by the path, with no separator added |
| Config.GetPort | types/config.go:102-135 | the port of the given URL, or of the endpoint's own when none or an empty one is given: an empty URL and one that does not parse are errors, an explicit port is returned as written, otherwise http gives 80, https 443 and any other scheme an error |
| Config.ArgumentOverrides | types/config.go:106-110 | a non-empty URL argument decides the port whatever the endpoint's own URL is |
| StorageRoutes.TrimLeftChar | storage/router/routes.go:27-28 | trimming the separator off the front leaves a suffix of the text that no longer starts with it, and everything removed is the separator |
| StorageRoutes.TrimRightChar | storage/router/routes.go:27-28 | trimming the separator off the back leaves a prefix of the text that no longer ends with it, and everything removed is the separator |
| StorageRoutes.FirstPlaceholder | storage/router/routes.go:30-31 | the first pattern segment from a position on that starts with "{" and ends with "}", or none when no later segment does |
| StorageRoutes.FindParamFirst | storage/router/routes.go:26-36 | the parameter search settles on the first placeholder of the pattern: it yields the path segment at that position, or "" when the path is too short there or the pattern has none; the result is "" or a segment of the path |
| StorageRoutes.NoPlaceholderNoParam | storage/router/routes.go:30-35 | a pattern without a placeholder yields "" for every path |
| StorageRoutes.ParamAfterFixedSegments | storage/router/routes.go:26-36 | a pattern of fixed segments followed by a placeholder, against a path of the same segments followed by a value, yields that value (the `/storage/programs/{name}` case) |
| StorageRoutes.StartTimeFromName | storage/router/routes.go:47-56 | a name without exactly one "@" has start time 0; otherwise the time the text after "@" denotes, or 0 when it does not parse |
| StorageRoutes.StartTimeRoundTrip | storage/router/routes.go:47-56 | a run named program + "@" + timestamp, with "@" in neither part, gives back the timestamp's time |
| StorageRoutes.NoStampNoTime | storage/router/routes.go:48-55 | a name with no "@" has start time 0 |
| StorageRoutes.CreateStatus | storage/router/routes.go:81-107 | creating answers 201 exactly when the body decodes, names a program and the store accepts it; a body that does not decode and an empty name are 400, and a refused store is 409 |
| StorageRoutes.UpdateOutcome | storage/router/routes.go:109-131 | updating answers 200 exactly when the body decodes and the store has the program, 400 for a bad body and 404 for a missing program; the stored program carries the path's name whatever the body says |
| Logging.RaisingKeepsEnabled | types/log/log.go:50-61 | raising the level never disables a severity that was written before |
| Logging.Logger.constructor | types/log/log.go:21-36 | the package starts at level INFO writing to standard output, with every logger set as the level demands |
| Logging.Logger.SetLevel | types/log/log.go:38-62 | afterwards the error logger and every logger up to the new level write to the output with their own prefix and the rest discard; the output is unchanged |
| Logging.Logger.SetOutput | types/log/log.go:64-70 | the loggers move to the new output and the level stays as it was |
| Logging.Logger.Log | types/log/log.go:72-90 | a message is written exactly when its severity is ERROR or at most the level, as the severity's prefix followed by the message, to the current output |
| SensorRouter.LastIndex | sensorunit/router/temperatures.go:37-47 | the position of the last reading with the name, with no later one carrying it, or -1 exactly when no reading does |
| SensorRouter.LastNamed | sensorunit/router/temperatures.go:37-47 | the value of the last reading with the name, absent exactly when no reading carries it |
| SensorRouter.LastNamedStep | sensorunit/router/temperatures.go:37-47 | one more reading replaces the value for its own name and leaves every other name's value alone |
| SensorRouter.OvenValue | sensorunit/router/temperatures.go:50-66 | with both oven readings valid, the higher; with one valid, that one; with none, the invalid reading; always one of the two |
| SensorRouter.SelectTemperatures | sensorunit/router/temperatures.go:24-74 | the response holds "oven" always and "material" exactly when a Wood reading exists, with the last Wood value and the oven value of the last primary and secondary readings, a missing one counting as 0 |
| SensorRouter.MissingOvenCountsAsZero | sensorunit/router/temperatures.go:34-35 | with the primary sensor missing and a valid secondary reading, the oven value is at least 0 and at least the secondary reading, since the missing one is read as a valid 0 |
| Shelly.PowerBoolState | powerunit/shelly/shelly.go:71-76 | a reported output flag is On exactly when it is true, and never Unknown |
| Shelly.ParseID | powerunit/shelly/shelly.go:98-109 | a name is known exactly when it is "fan", "heater" or "humidifier"; any other name gives the unknown id |
| Shelly.IDRoundTrip | powerunit/shelly/shelly.go:78-109 | each output's name reads back as that output and each known name prints back as itself; other ids print as "unknown" |
| Shelly.ApiErrorError | powerunit/shelly/shelly.go:42-47 | a reply carries no error exactly when its code is 0 and its message empty |
| Shelly.SwitchSetURI | powerunit/shelly/shelly.go:157-160 | the URI is the address, the Switch.Set call and the output's number, then the on flag |
| Shelly.SwitchSetOnFlag | powerunit/shelly/shelly.go:157-160 | the URI asks for on=true exactly for the On state; Off and Unknown send on=false |
| Shelly.GetPowerState | powerunit/shelly/shelly.go:177-187 | a failed request or an undecodable reply gives Unknown with an error; a decoded reply gives the reported state and its error fields' error |
| Shelly.SetState | powerunit/shelly/shelly.go:137-149 | the state returned is the status read's; the error is the status read's when it has one, else the set call's, so there is no error exactly when neither call failed |
| Shelly.FailedNames | powerunit/shelly/shelly.go:162-175 | each output's name is listed exactly when switching it off failed |
| Shelly.ShutdownError | powerunit/shelly/shelly.go:162-175 | shutting down reports no error exactly when all three outputs switched off |
| Shelly.ShutdownDeadlocks | powerunit/shelly/shelly.go:162-167 | as written, shutting down takes the mutex and then waits for it again inside the first SetState, so it never returns |
| Shelly.ShutdownReleases | powerunit/shelly/shelly.go:137-149 | taking the mutex once around the three switch-offs, or calling SetState three times in a row, leaves the mutex free |
| SensorSerial.ParseReading | sensorunit/serial/serial.go:222-253 | a reading is kept only when it has exactly one "=", and its name is the text before it; "NaN" is the invalid reading in "C"; otherwise the unit is the value's last character, and an empty value is skipped like any other malformed reading |
| SensorSerial.EmptyValuePanics | sensorunit/serial/serial.go:239-241 | a reading `name=` makes the loop as written index position -1 and panic, where the corrected parse skips it |
| SensorSerial.ParseReadingAgrees | sensorunit/serial/serial.go:222-253 | wherever the loop as written does not panic, it keeps the same reading as the corrected parse, or skips it too |
| SensorSerial.ReadingRoundTrip | sensorunit/serial/serial.go:235-247 | `name=<number><unit>` reads back the name, the number's value and the one-character unit |
| SensorSerial.ParseReadings | sensorunit/serial/serial.go:219-254 | no more readings are kept than the reply holds |
| SensorSerial.ParseReadingsAppend | sensorunit/serial/serial.go:219-254 | parsing keeps reply order: the readings of two replies joined are those of the first followed by those of the second |
| SensorSerial.ParseReadingsFrom | sensorunit/serial/serial.go:219-254 | every kept temperature is the parse of some reading of the reply |
| SensorSerial.ParseReply | sensorunit/serial/serial.go:211-257 | a reply that does not split into exactly three comma-separated readings is an error; otherwise the readings that parse, in order, at most three |
| SensorSerial.ShowCommandText | sensorunit/serial/serial.go:267-273 | the show command carries the text whole when it fits the 15-position display, and otherwise only its first 15 positions; it starts with "show". Positions are characters here where Go counts bytes (see Left out) |
| SensorSerial.FirstAnswer | sensorunit/serial/serial.go:312-340 | the reply is "" or a trimmed received line that answers the command |
| SensorSerial.FirstAnswerMeaning | sensorunit/serial/serial.go:325-337 | a reply to `read;` is "" or contains "="; a reply to `helo;` is "" or "helo" |
| SensorSerial.ScanLines | sensorunit/serial/serial.go:316-340 | the scanning loop settles on the first trimmed, non-blank line that answers the command, or "" |
| SensorSerial.WriteFailureDeadlocks | sensorunit/serial/serial.go:290-303 | as written, a failed write makes the command wait for the mutex it already holds, inside `Close`, and a successful one does not |
| SensorSerial.InPlaceDisconnectReleases | sensorunit/serial/serial.go:290-306 | disconnecting in place, under the mutex already held, always leaves it free |
| SensorSerial.FirstGreeting | sensorunit/serial/serial.go:100-116 | the handshake stops at an attempt within the three, or finds none |
| SensorSerial.FirstGreetingMeaning | sensorunit/serial/serial.go:100-116 | the handshake succeeds at attempt k exactly when attempt k gets "helo" back and every earlier attempt was written but not answered with "helo"; a failed write ends the handshake, since later attempts find the unit disconnected |
| SensorSerial.SensorUnit.constructor | sensorunit/serial/serial.go:74-79 | a new sensor unit is not connected |
| SensorSerial.SensorUnit.SendCommand | sensorunit/serial/serial.go:288-349 | not connected is an error; a show command reads nothing; otherwise the first answering line, or an error exactly when reading the lines failed; success leaves the unit connected. A failed write takes the corrected path: it disconnects in place and is an error, where the code as written deadlocks (see Findings) |
| SensorSerial.SensorUnit.Connect | sensorunit/serial/serial.go:74-133 | a connected unit is left alone; a port that does not open is an error without handshake; otherwise the unit connects exactly when the handshake reaches an attempt that gets "helo" back, after as many tries as that took, and after three tries when none does |
| SensorSerial.SensorUnit.Close | sensorunit/serial/serial.go:135-154 | the unit ends disconnected; the port's close error is passed on only when it was connected |
| SensorSerial.SensorUnit.SetStatusText | sensorunit/serial/serial.go:260-286 | the cut-down show command is sent exactly when the unit connects, and the call succeeds exactly when that command is also written |
| SensorSerial.SensorUnit.GetTemperatures | sensorunit/serial/serial.go:198-258 | not connecting, a failed write and a failed read are errors; otherwise the result is the parse of the first line answering `read;`: an error unless it splits into three readings, else at most three temperatures in order |
| Heartbeat.Messages | controlunit/heartbeat/heartbeat.go:105-122 | n heartbeats in a row show n messages |
| Heartbeat.MessagesAlternate | controlunit/heartbeat/heartbeat.go:110-122 | without a custom message every heartbeat shows the IP address; with one, heartbeats alternate between the message and the IP, starting from the message exactly when the toggle was set |
| Heartbeat.TwoBeatsShowBoth | controlunit/heartbeat/heartbeat.go:115-121 | with a custom message, two heartbeats show both the IP address and the message and leave the toggle as it was |
| Heartbeat.Manager.constructor | controlunit/heartbeat/heartbeat.go:35-52 | a new manager has the interface's IP address, no custom message, the toggle off and is not cancelled |
| Heartbeat.Manager.SetDisplayMessage | controlunit/heartbeat/heartbeat.go:75-80 | the custom message is replaced and nothing else changes |
| Heartbeat.Manager.SendHeartbeat | controlunit/heartbeat/heartbeat.go:105-145 | the message posted is the one the toggle selects, the toggle flips only with a custom message, the post goes to the sensor unit's URL followed by its display path, and only a 200 reply is a success |
| Heartbeat.Manager.Stop | controlunit/heartbeat/heartbeat.go:61-72 | the first stop cancels without error; a stop after that reports that the heartbeat is not running |
| Heartbeat.StopTwice | controlunit/heartbeat/heartbeat.go:61-72 | stopping twice always makes the second stop report "heartbeat not running" |
| Locking.NestedAcquireWaits | powerunit/shelly/shelly.go:163-167 | taking a free mutex twice before releasing it waits forever, whatever follows |
| Locking.PairedLocksRelease | powerunit/shelly/shelly.go:137-139 | any number of take-and-release pairs in a row leave a free mutex free |
| PhaseTemplates.DefaultDeltaCycles | webapp/src/components/phases/templates.ts:16-35 | five entries whose deltas run from +20 down to -20, 10 apart; the interior ones are full above and off below, the lowest delta is full below and the highest off above |
| PhaseTemplates.DefaultDeltasCoverRange | webapp/src/components/phases/templates.ts:16-35 | every multiple of 10 between -20 and +20 has an entry, and the deltas strictly decrease, so none has two |
| PhaseTemplates.EmptyConstantPhase | webapp/src/components/phases/templates.ts:37-41 | a new constant phase has no name, runs at half the cycle and carries no delta table |
| ValidRange.ClampThumbs | webapp/src/components/phases/ValidRange.tsx:99-118 | a scalar slider value sends nothing; when the upper thumb moved it ends at most one degree below the current lower thumb and otherwise where it was dragged, the lower one passing through; symmetrically when the lower thumb moved |
| ValidRange.ClampKeepsLegalMove | webapp/src/components/phases/ValidRange.tsx:111-115 | a move that already keeps the one-degree distance is sent on unchanged |
| ValidRange.ReplaceRange | webapp/src/components/phases/ValidRange.tsx:16-22 | the list keeps its length, each entry of the sensor becomes the new band and every other entry stays; a phase without a list stays without one |
| ValidRange.ReplaceRangeIdempotent | webapp/src/components/phases/ValidRange.tsx:16-22 | replacing a band twice is replacing it once, and a sensor without an entry leaves the list as it was |
| ValidRange.SliderMove | webapp/src/components/phases/ValidRange.tsx:28-37 | a slider move on an entry keeps the list's length, a scalar value leaves it alone, and a moved thumb ends at least one degree from the entry's other thumb |
| TemperatureRangeSlider.RangeMarks | webapp/src/components/form/TemperatureRangeSlider.tsx:17-22 | one mark per whole 25 degrees between min and max, starting at min and labelled with its temperature, each below max; a range with max below min has no marks array, since building it throws |
| TemperatureRangeSlider.DefaultRangeMarks | webapp/src/components/form/TemperatureRangeSlider.tsx:14-22 | the default range 100 to 250 has the six marks 100, 125, ..., 225 |
| TemperatureRangeSlider.HandleChange | webapp/src/components/form/TemperatureRangeSlider.tsx:24-36 | a single slider value is forwarded unchanged and an array value is dropped |
| CycleStates.CountOn | webapp/src/components/cycles/States.tsx:19-22 | no more squares are on than there are squares |
| CycleStates.Ratio | webapp/src/components/cycles/States.tsx:19-22 | the share of squares that are on, in percent, between 0 and 100; absent exactly for a cycle without squares |
| CycleStates.Toggle | webapp/src/components/cycles/States.tsx:24-29 | the copy has the clicked square flipped and every other square as it was |
| CycleStates.Click | webapp/src/components/cycles/States.tsx:24-29 | a click hands the flipped copy on exactly when there is an editor to take it |
| CycleStates.ToggleTwice | webapp/src/components/cycles/States.tsx:24-29 | clicking the same square twice gives back the states it started from |
| CycleStates.ToggleCount | webapp/src/components/cycles/States.tsx:19-29 | a click moves the count of squares that are on by exactly one, down when the square was on and up when it was off |
| PowerSettingsForm.GetControlType | webapp/src/components/power/PowerSettings.tsx:44-56 | no settings give ""; a non-empty type field is taken as it is; otherwise "pid" exactly when there is a PID object, "delta" exactly when there is none but a delta bound, "simple" exactly when there is only a power, and "" exactly when no field is set |
| PowerSettingsForm.TypeDefaults | webapp/src/components/power/PowerSettings.tsx:15-23 | defaults are emitted exactly for "simple", "delta" and "pid", and they carry the chosen type |
| PowerSettingsForm.DefaultsReadBack | webapp/src/components/power/PowerSettings.tsx:15-56 | a kind's defaults are read back as that kind, even with their type field removed |
| PowerSettingsForm.SetPower | webapp/src/components/power/PowerSettings.tsx:25-29 | with settings, the power is replaced and every other field kept; without settings nothing is emitted |
| PowerSettingsForm.SetDelta | webapp/src/components/power/PowerSettings.tsx:31-35 | with settings, the named delta bound is replaced and every other field kept; without settings nothing is emitted |
| PowerSettingsForm.SetPid | webapp/src/components/power/PowerSettings.tsx:37-41 | something is emitted exactly when there are settings with a PID object; then the named gain is replaced and the other gains and fields are kept |
| PowerSettingsForm.UpdatersKeepControlType | webapp/src/components/power/PowerSettings.tsx:25-56 | editing the field of the kind being shown keeps the settings of that kind |
| PowerSettingsForm.RenderViewMode | webapp/src/components/power/PowerSettings.tsx:60-71 | the view is "Not configured" exactly when the kind is none of the three, or PID without a PID object; otherwise it shows the power, the two bounds or the gains of the settings |
| PowerSettingsForm.PidWithoutGainsNotConfigured | webapp/src/components/power/PowerSettings.tsx:67-70 | settings typed PID but without gains are shown as not configured |
| FormData.Collides | webapp/src/hooks/useFormData.ts:153-166 | some name other than an exact copy of the edited one equals it once both are trimmed |
| FormData.NameUsed | webapp/src/hooks/useFormData.ts:148-170 | false without an edited record or without records; otherwise true exactly when a record whose name is not identical to the edited one has the same name after trimming |
| FormData.ExactDuplicatesNotUsed | webapp/src/hooks/useFormData.ts:155-157 | records that only repeat the edited name exactly never count as a collision |
| FormData.SaveRequestFor | webapp/src/hooks/useFormData.ts:107-120 | the save is new exactly on the "new" route or when the edited name is not the route's name; a new record is sent without an id, and an update keeps the record's fields under its own id if it carries one, else under the route's name |
| FormData.SaveInPlace | webapp/src/hooks/useFormData.ts:111-120 | saving a record on its own route, with no id of its own, updates it under its name |
| FormData.SavedPath | webapp/src/hooks/useFormData.ts:126-129 | the path starts with the root path, followed by "/" and the name exactly when the name is not empty |
| FormData.Form.constructor | webapp/src/hooks/useFormData.ts:102-137 | a form starts with the given edited copy and mode |
| FormData.Form.HandleSave | webapp/src/hooks/useFormData.ts:102-132 | without an edited record nothing happens; otherwise the save request for the normalized record is sent, the edited copy is cleared, the form returns to view mode, and it navigates to the saved path exactly for a create or a rename |
| FormData.Form.HandleCancel | webapp/src/hooks/useFormData.ts:134-137 | the edited copy is dropped, the form navigates to the root path and the mode stays |

## Left out

- Transport of every kind is outside the model; replies, clocks and parse results are parameters:
  - HTTP servers, handlers' JSON encoding, file I/O and CSV writing;
  - the serial port and the websocket transport;
  - goroutines, channels, tickers and `time.Sleep`.
- The executor's runner, the control unit's engine loop and the heartbeat run loop are left out because they only schedule ticks. `GetNetworkInterfaceIPv4` is left out; its address is a constructor argument.
- The sensor unit's device monitor goroutine, `IsConnected`, `Shutdown` and `clearInputBuffer` are left out, as are the retry back-off delays of `Connect`. They only add timing and logging around the modelled guards.
- SensorSerial.SensorUnit.SendCommand: a failed write disconnects in place and returns an error, the corrected behaviour of the Findings row for sensorunit/serial/serial.go:303; as written the call deadlocks there (`SensorSerial.WriteFailureDeadlocks`).
- SensorSerial.SensorUnit.GetTemperatures: replies are parsed with the corrected `SensorSerial.ParseReading` of the Findings row for sensorunit/serial/serial.go:240; as written a reading `name=` panics (`SensorSerial.EmptyValuePanics`).
- SensorSerial.ShowCommandText: the length test and the cut count characters, while Go's `len(text)` and `text[:15]` count UTF-8 bytes. For ASCII text the two agree. A text with non-ASCII letters (a Finnish step name with "ä") is cut later by the model than by the source, which can also leave half a character on the display.
- SensorSerial.SensorUnit.SendCommand: a failure of the line scanner is one flag for the whole exchange, so an error arriving after the answer line is treated as a failed read.
- `fmt.Sscanf` float reading and RFC 3339 date parsing are oracle parameters (`scan`, `parse`). `url.Parse` is the `parse` parameter of `Config.GetPort`.
- `%.1f` and `%.2f` number formatting in `halkoctl` output is left out. Durations are whole seconds, and Go's duration accessors are modelled as truncation.
- `halkoctl` reading of `os.Args` and the `flag` package is left out; the argument list is a parameter.
- Trimming and case folding (`strings.TrimSpace`, `formatTemperatureName`, JavaScript `trim`) are ASCII-only; Unicode whitespace and letters are not modelled.
- The PID controllers compute on `real`, not `float32`. A zero interval gives a derivative of 0 where `float32` gives an infinity or NaN.
- ExecutorFsm.ExecutorFsmController.UpdateStatus: the status's Delta field (executor/engine/fsm_controller.go:353) is not modelled.
- The executor reads the plain delta fields of its readings; the JSON decoding around them is left out.
- ExecutorFsm.ExecutorFsmController.UpdateStatus: requires the step index within the program. On an empty program, which executor/types/program.go:32-51 does not reject, the source indexes `ProgramSteps[0]` (executor/engine/fsm_controller.go:351) and panics; that panic is not modelled.
- ExecutorFsm.ExecutorFsmController.Begin: requires every delta table that is present to be non-empty. A JSON `"delta_cycles": []` decodes to an empty table, on which `findMatchingPowerSettings` reads `cycles[0]` (executor/engine/fsm_controller.go:233) and panics; that panic is not modelled.
- ProgramTypes.DefaultStep: requires the acclimate PID default to exist when an acclimate step's heater has no control method. Without it the map yields a nil pointer that types/program.go:163-165 dereferences and panics; that panic is not modelled, and `Config.ValidateRequired` does not check for the entry.
- ProgramTypes.Program.ApplyDefaults: requires the same acclimate PID default as `ProgramTypes.DefaultStep`, for every step that needs it; without it the source panics at types/program.go:163-165, which is not modelled.
- ExecutorProgram.Sorted: `sort.Slice` is not stable. The model sorts by insertion, so entries with equal deltas may end in another order than Go would leave them.
- ExecutorFsm.Status: the GoingDown state is never entered by the source, so no handler for it is modelled (`ExecutorFsm.NeverEntersGoingDown` states this).
- Logging.Logger.Log: a line is the prefix and the message; the timestamp `log.LstdFlags` adds and `fmt.Sprintf` formatting are left out. `Fatal` is left out because it exits the process.
- LiveExecutionChart.LiveChart: a second close handler that schedules a reconnect while one is pending overwrites the pending timer, where the browser would fire both.
- LiveExecutionChart.LiveChart: React's effect re-run race is modelled as the sequence of handler calls, not as interleaved threads.
- Text.ParseDecimal: reads plain decimals only. JavaScript's `parseFloat` also reads an exponent (`"1e3"` is 1000, where the model stops at the `e` and gives 1) and `"Infinity"` (where the model gives NaN, `None`). This applies to the execution log's CSV columns (webapp/src/components/ExecutionChart.tsx:98-105).
- Console numbers are modelled as `int` (slider positions, percentages) or `real` (temperatures, gains); JavaScript's floating-point rounding is left out.
- ValidRange.ClampThumbs: requires a two-number slider value. The two-thumb slider always sends one; with fewer, the source would read `undefined`.
- ValidRange.SliderMove: requires an index within the list, because only rendered entries can be moved.
- CycleStates.Toggle: requires the clicked index within the states, because only rendered squares can be clicked.
- The console's phase type has more fields than name, cycle mode, constant cycle and delta table; the others are left out as the templates never set them.
- The remaining `useFormData` code is left out because it is React state wiring: the data-loading effects, `handleEdit` and the navigation effect after a successful save.
- PowerSettingsForm.RenderViewMode: the view's text is not modelled; the model keeps the values it shows.
- ProgramTypes.ProgramError: the message for a short program says "at least two step" while the check requires three steps; the model keeps the check.
- `ExecutorProgram.Program.Validate` keeps the code as written: only the heater's table ends sorted. The corrected sorting is `ExecutorProgram.SortedAll`; see Findings.
- The web console's translations, routing, list screens and chart drawing are left out.

## Findings

| source | as written | input that shows it | evidently intended | confidence | as-written member | corrected member |
|---|---|---|---|---|---|---|
| executor/engine/fsm_controller.go:186 | the "exceeded" flag is `stepStarted + maxRuntime >= now`, true while the deadline has not passed | a heating step below its target one second after it started: it fails at once | the step fails only once its runtime has passed | high (not executed) | ExecutorFsm.HeatingFailsBeforeDeadline | ExecutorFsm.IntendedStepOutcomeMeaning |
| executor/engine/fsm_controller.go:208 | acclimate fails when `material < min && material > max` | min 50, max 60, material 10: the step never fails | the step fails when the material is outside the range, with `\|\|` | high (not executed) | ExecutorFsm.AcclimateNeverFails | ExecutorFsm.IntendedStepOutcomeMeaning |
| executor/engine/fsm_controller.go:309 | `shutdown` acts only when `stopped != 0` | a run aborted while `stopped` is 0: no output is switched off | power down once, while `stopped` is still 0 | high (not executed) | ExecutorFsm.AbortedRunKeepsPower | ExecutorFsm.IntendedPowerDownOnce |
| executor/storage/execution_log.go:65 | a row is skipped when more than `resolution` has passed and the step is unchanged | one call after a quiet gap longer than the resolution: no further row of that step is ever written | write when the step changed or the resolution elapsed, as the control unit's writer does | medium (not executed) | ExecutorExecutionLog.QuietGapSilencesStep | ControlUnitExecutionLog.SpacedCallsAllWrite |
| sensorunit/serial/serial.go:240 | the unit is read from `valueStr[len(valueStr)-1]` without checking the length | the reply reading `Wood=`: index -1 panics | an empty value is skipped like any other malformed reading | high (not executed) | SensorSerial.EmptyValuePanics | SensorSerial.ParseReading |
| sensorunit/serial/serial.go:303 | `sendCommand` holds the mutex and calls `Close`, which takes it again | a failed serial write: the call never returns | disconnect in place under the mutex already held | high (not executed) | SensorSerial.WriteFailureDeadlocks | SensorSerial.InPlaceDisconnectReleases |
| powerunit/shelly/shelly.go:163-167 | `Shutdown` holds the mutex and calls `SetState`, which takes it again | any call of `Shutdown`: it never returns | switch the outputs off under one lock, or call `SetState` without holding it | high (not executed) | Shelly.ShutdownDeadlocks | Shelly.ShutdownReleases |
| executor/types/program.go:40-49 | the fan and humidifier branches sort the heater's table | a step whose fan table has deltas 10 then 0: it stays unsorted | every present table is sorted, as the comment at line 33 says | high (not executed) | ExecutorProgram.FanTableStaysUnsorted | ExecutorProgram.SortedAllKeepsSorted |
