/**
 * The executor's execution log writer (executor/storage/execution_log.go). It has the
 * same fields, header and row format as the control unit's writer, but its own rule
 * for when a call is skipped: exactly when more than `resolution` seconds have passed
 * since the last write and the step is unchanged.
 */
module ExecutorExecutionLog {
  import opened ApiTypes
  import opened LogRecord
  import ControlUnitExecutionLog

  /** `AddLine` skips a call exactly when more than `resolution` passed since the last write and the step is unchanged. */
  predicate Skips(log: Log, step: string, now: int, resolution: int) {
    now - log.lastUpdate > resolution && step == log.lastStep
  }

  /** The writer's state after one call, as the rule is written. */
  function Logged(log: Log, c: Call, startedAt: int, resolution: int): Log {
    if Skips(log, c.status.currentStep, c.now, resolution) then log
    else Log(c.now, c.status.currentStep, log.rows + [RowOf(c.status, c.now, startedAt)])
  }

  /** The writer's state after a sequence of calls. */
  function Replay(log: Log, calls: seq<Call>, startedAt: int, resolution: int): Log
    decreases |calls|
  {
    if calls == [] then log
    else Replay(Logged(log, calls[0], startedAt, resolution), calls[1..], startedAt, resolution)
  }

  /** Two consecutive rows of the same step are at most `resolution` seconds apart. */
  predicate SameStepWithin(rows: seq<Row>, resolution: int) {
    forall i :: 0 < i < |rows| && rows[i - 1].step == rows[i].step ==> rows[i].time - rows[i - 1].time <= resolution
  }

  /** One call keeps the remembered clock and step in line with the rows, and same-step rows close together. */
  lemma LoggedKeepsCloseness(log: Log, c: Call, startedAt: int, resolution: int)
    requires Tracks(log, startedAt) && SameStepWithin(log.rows, resolution)
    ensures var r := Logged(log, c, startedAt, resolution);
      Tracks(r, startedAt) && SameStepWithin(r.rows, resolution)
  {
    var r := Logged(log, c, startedAt, resolution);
    if r != log {
      var n := |log.rows|;
      assert r.rows[n].time == c.now - startedAt;
      forall i | 0 < i < |r.rows| && r.rows[i - 1].step == r.rows[i].step
        ensures r.rows[i].time - r.rows[i - 1].time <= resolution
      {
        if i < n {
          assert r.rows[i] == log.rows[i] && r.rows[i - 1] == log.rows[i - 1];
        }
      }
    }
  }

  /** Any sequence of calls keeps consecutive same-step rows at most `resolution` apart. */
  lemma {:induction false} ReplayKeepsCloseness(log: Log, calls: seq<Call>, startedAt: int, resolution: int)
    requires Tracks(log, startedAt) && SameStepWithin(log.rows, resolution)
    ensures var r := Replay(log, calls, startedAt, resolution);
      Tracks(r, startedAt) && SameStepWithin(r.rows, resolution)
    decreases |calls|
  {
    if calls != [] {
      LoggedKeepsCloseness(log, calls[0], startedAt, resolution);
      ReplayKeepsCloseness(Logged(log, calls[0], startedAt, resolution), calls[1..], startedAt, resolution);
    }
  }

  /**
   * As written, one quiet gap longer than the resolution silences the step for good:
   * every later call of the same step is skipped, and skipping does not move `lastUpdate`.
   */
  lemma {:induction false} QuietGapSilencesStep(log: Log, calls: seq<Call>, startedAt: int, resolution: int)
    requires forall i :: 0 <= i < |calls| ==>
      calls[i].status.currentStep == log.lastStep && calls[i].now - log.lastUpdate > resolution
    ensures Replay(log, calls, startedAt, resolution) == log
    decreases |calls|
  {
    if calls != [] {
      assert Logged(log, calls[0], startedAt, resolution) == log;
      forall i | 0 <= i < |calls[1..]|
        ensures calls[1..][i].status.currentStep == log.lastStep && calls[1..][i].now - log.lastUpdate > resolution
      {
        assert calls[1..][i] == calls[i + 1];
      }
      QuietGapSilencesStep(log, calls[1..], startedAt, resolution);
    }
  }

  /** The status of step "A" the examples below log. */
  const StepA: ExecutionStatus := ExecutionStatus(0, "A", 0, TemperatureStatus(20.0, 20.0), PsuStatus(0, 0, 0))

  /**
   * With resolution 10, step "A" logged at 100 and then reported at 111, 200 and 300: the
   * executor keeps only the first row, while the rule the control unit uses keeps all four.
   */
  lemma QuietGapExample()
    ensures var calls := [Call(StepA, 100), Call(StepA, 111), Call(StepA, 200), Call(StepA, 300)];
      |Replay(Empty, calls, 0, 10).rows| == 1 &&
      |ControlUnitExecutionLog.Replay(Empty, calls, 0, 10).rows| == 4
  {
    var calls := [Call(StepA, 100), Call(StepA, 111), Call(StepA, 200), Call(StepA, 300)];
    var first := Logged(Empty, calls[0], 0, 10);
    assert first.lastUpdate == 100 && |first.rows| == 1;
    QuietGapSilencesStep(first, calls[1..], 0, 10);
    ControlUnitExecutionLog.SpacedCallsAllWrite(Empty, calls, 0, 10);
  }

  /** The executor's writer; the file holds the header and the records of the logged rows. */
  class ExecutionLogWriter {
    const name: string
    const resolution: int
    const startedAt: int
    /** The "%f" float format, taken as given. */
    const formatTemperature: real -> string
    /** Whether the CSV writer is still attached (`Close` detaches it). */
    var open: bool
    var records: seq<seq<string>>
    var lastUpdate: int
    var lastStep: string
    ghost var rows: seq<Row>

    ghost function State(): Log
      reads this
    {
      Log(lastUpdate, lastStep, rows)
    }

    ghost predicate Valid()
      reads this
    {
      records == Records(rows, formatTemperature) && Tracks(State(), startedAt) &&
      SameStepWithin(rows, resolution)
    }

    constructor (name: string, resolution: int, now: int, formatTemperature: real -> string)
      ensures Valid() && open && State() == Empty && records == [Header]
      ensures this.name == name && this.resolution == resolution && startedAt == now
      ensures this.formatTemperature == formatTemperature
    {
      this.name := name;
      this.resolution := resolution;
      startedAt := now;
      this.formatTemperature := formatTemperature;
      open := true;
      records := [Header];
      lastUpdate := 0;
      lastStep := "";
      rows := [];
    }

    /** Creating the file may fail (`created` is false): then there is no writer. */
    static method New(name: string, resolution: int, now: int, created: bool, formatTemperature: real -> string)
      returns (w: ExecutionLogWriter?)
      ensures created <==> w != null
      ensures w != null ==> fresh(w) && w.Valid() && w.open && w.records == [Header] && w.State() == Empty
      ensures w != null ==> w.name == name && w.resolution == resolution && w.startedAt == now
    {
      if !created {
        return null;
      }
      w := new ExecutionLogWriter(name, resolution, now, formatTemperature);
    }

    /**
     * Logs `status` at clock `now`. A missing or closed writer does nothing; otherwise the
     * row is written, and remembered, unless `Skips` holds.
     */
    static method AddLine(w: ExecutionLogWriter?, status: ExecutionStatus, now: int)
      requires w != null ==> w.Valid()
      modifies w
      ensures w != null ==> w.Valid()
      ensures w != null && old(w.open) ==> w.State() == Logged(old(w.State()), Call(status, now), w.startedAt, w.resolution)
      ensures w != null && old(w.open) && !Skips(old(w.State()), status.currentStep, now, w.resolution) ==>
        w.records == old(w.records) + [RowFields(RowOf(status, now, w.startedAt), w.formatTemperature)] &&
        w.lastUpdate == now && w.lastStep == status.currentStep
      ensures w != null && (!old(w.open) || Skips(old(w.State()), status.currentStep, now, w.resolution)) ==>
        w.records == old(w.records) && w.State() == old(w.State())
      ensures w != null ==> w.open == old(w.open)
    {
      if w == null {
        return;
      }
      if !w.open {
        return;
      }
      if now - w.lastUpdate > w.resolution && status.currentStep == w.lastStep {
        return;
      }
      var row := RowOf(status, now, w.startedAt);
      LoggedKeepsCloseness(w.State(), Call(status, now), w.startedAt, w.resolution);
      RecordsAppend(w.rows, row, w.formatTemperature);
      w.records := w.records + [RowFields(row, w.formatTemperature)];
      w.rows := w.rows + [row];
      w.lastUpdate := now;
      w.lastStep := status.currentStep;
    }

    /** Detaches the CSV writer, so that later calls of `AddLine` do nothing. A missing writer is ignored. */
    static method Close(w: ExecutionLogWriter?)
      modifies w
      ensures w != null ==> !w.open && w.records == old(w.records) && w.State() == old(w.State())
    {
      if w != null {
        w.open := false;
      }
    }
  }
}
