/**
 * The control unit's execution log writer (controlunit/storagefs/execution_log.go).
 * It writes the header when created, then one row per status whenever the step has
 * changed or the resolution has elapsed since the last row. The file is the sequence
 * of CSV records the writer has emitted; the clock is an explicit parameter.
 */
module ControlUnitExecutionLog {
  import opened ApiTypes
  import opened LogRecord

  /** `AddLine` writes when the step changed or at least `resolution` seconds passed since the last write. */
  predicate Writes(log: Log, step: string, now: int, resolution: int) {
    step != log.lastStep || now - log.lastUpdate >= resolution
  }

  /** The writer's state after one call. */
  function Logged(log: Log, c: Call, startedAt: int, resolution: int): Log {
    if Writes(log, c.status.currentStep, c.now, resolution)
    then Log(c.now, c.status.currentStep, log.rows + [RowOf(c.status, c.now, startedAt)])
    else log
  }

  /** The writer's state after a sequence of calls. */
  function Replay(log: Log, calls: seq<Call>, startedAt: int, resolution: int): Log
    decreases |calls|
  {
    if calls == [] then log
    else Replay(Logged(log, calls[0], startedAt, resolution), calls[1..], startedAt, resolution)
  }

  /** Two consecutive rows of the same step are at least `resolution` seconds apart. */
  predicate SameStepApart(rows: seq<Row>, resolution: int) {
    forall i :: 0 < i < |rows| && rows[i - 1].step == rows[i].step ==> rows[i].time - rows[i - 1].time >= resolution
  }

  /** One call keeps the remembered clock and step in line with the rows, and keeps same-step rows apart. */
  lemma LoggedKeepsSpacing(log: Log, c: Call, startedAt: int, resolution: int)
    requires Tracks(log, startedAt) && SameStepApart(log.rows, resolution)
    ensures var r := Logged(log, c, startedAt, resolution);
      Tracks(r, startedAt) && SameStepApart(r.rows, resolution)
  {
    var r := Logged(log, c, startedAt, resolution);
    if r != log {
      var n := |log.rows|;
      assert r.rows[n].time == c.now - startedAt;
      forall i | 0 < i < |r.rows| && r.rows[i - 1].step == r.rows[i].step
        ensures r.rows[i].time - r.rows[i - 1].time >= resolution
      {
        if i < n {
          assert r.rows[i] == log.rows[i] && r.rows[i - 1] == log.rows[i - 1];
        }
      }
    }
  }

  /** Any sequence of calls keeps same-step rows at least `resolution` apart, whatever the clock does. */
  lemma {:induction false} ReplayKeepsSpacing(log: Log, calls: seq<Call>, startedAt: int, resolution: int)
    requires Tracks(log, startedAt) && SameStepApart(log.rows, resolution)
    ensures var r := Replay(log, calls, startedAt, resolution);
      Tracks(r, startedAt) && SameStepApart(r.rows, resolution)
    decreases |calls|
  {
    if calls != [] {
      LoggedKeepsSpacing(log, calls[0], startedAt, resolution);
      ReplayKeepsSpacing(Logged(log, calls[0], startedAt, resolution), calls[1..], startedAt, resolution);
    }
  }

  /** Rows are only ever appended: the rows before a sequence of calls stay a prefix of the file. */
  lemma {:induction false} ReplayAppendOnly(log: Log, calls: seq<Call>, startedAt: int, resolution: int)
    ensures var r := Replay(log, calls, startedAt, resolution);
      |log.rows| <= |r.rows| && r.rows[..|log.rows|] == log.rows
    decreases |calls|
  {
    if calls != [] {
      var next := Logged(log, calls[0], startedAt, resolution);
      assert next.rows[..|log.rows|] == log.rows;
      ReplayAppendOnly(next, calls[1..], startedAt, resolution);
    }
  }

  /** One call keeps the time column non-decreasing when the clock has not gone back since the last write. */
  lemma LoggedKeepsOrder(log: Log, c: Call, startedAt: int, resolution: int)
    requires Tracks(log, startedAt) && TimesNonDecreasing(log.rows)
    requires log.rows != [] ==> c.now >= log.lastUpdate
    ensures TimesNonDecreasing(Logged(log, c, startedAt, resolution).rows)
  {
    var r := Logged(log, c, startedAt, resolution);
    if r != log {
      var n := |log.rows|;
      forall i, j | 0 <= i < j < |r.rows| ensures r.rows[i].time <= r.rows[j].time {
        if j < n {
          assert r.rows[i] == log.rows[i] && r.rows[j] == log.rows[j];
        } else {
          assert r.rows[i] == log.rows[i] && log.rows[i].time <= log.rows[n - 1].time;
        }
      }
    }
  }

  /** With a clock that never goes back, the time column of the log never goes back either. */
  lemma {:induction false} ReplayTimesNonDecreasing(log: Log, calls: seq<Call>, startedAt: int, resolution: int)
    requires Tracks(log, startedAt) && TimesNonDecreasing(log.rows)
    requires ClockNonDecreasing(calls)
    requires log.rows != [] ==> forall i :: 0 <= i < |calls| ==> calls[i].now >= log.lastUpdate
    ensures TimesNonDecreasing(Replay(log, calls, startedAt, resolution).rows)
    decreases |calls|
  {
    if calls != [] {
      var next := Logged(log, calls[0], startedAt, resolution);
      LoggedKeepsOrder(log, calls[0], startedAt, resolution);
      assert Tracks(next, startedAt) by {
        if next != log {
          assert next.rows[|next.rows| - 1] == RowOf(calls[0].status, calls[0].now, startedAt);
        }
      }
      forall i | 0 <= i < |calls[1..]| && next.rows != [] ensures calls[1..][i].now >= next.lastUpdate {
        assert calls[1..][i] == calls[i + 1];
        if next == log {
          assert calls[i + 1].now >= log.lastUpdate;
        } else {
          assert calls[0].now <= calls[i + 1].now;
        }
      }
      ReplayTimesNonDecreasing(next, calls[1..], startedAt, resolution);
    }
  }

  /** Calls spaced at least `resolution` apart, the first that far from the last write. */
  predicate Spaced(lastUpdate: int, calls: seq<Call>, resolution: int) {
    (|calls| > 0 ==> calls[0].now - lastUpdate >= resolution) &&
    forall i :: 0 < i < |calls| ==> calls[i].now - calls[i - 1].now >= resolution
  }

  /** Nothing starves: every call made at least `resolution` after the previous write writes its row. */
  lemma {:induction false} SpacedCallsAllWrite(log: Log, calls: seq<Call>, startedAt: int, resolution: int)
    requires Spaced(log.lastUpdate, calls, resolution)
    ensures |Replay(log, calls, startedAt, resolution).rows| == |log.rows| + |calls|
    decreases |calls|
  {
    if calls != [] {
      var next := Logged(log, calls[0], startedAt, resolution);
      assert next.lastUpdate == calls[0].now;
      assert Spaced(next.lastUpdate, calls[1..], resolution) by {
        forall i | 0 < i < |calls[1..]| ensures calls[1..][i].now - calls[1..][i - 1].now >= resolution {
          assert calls[1..][i] == calls[i + 1] && calls[1..][i - 1] == calls[i];
        }
        if |calls| > 1 {
          assert calls[1..][0] == calls[1];
        }
      }
      SpacedCallsAllWrite(next, calls[1..], startedAt, resolution);
    }
  }

  /** A writer whose file may be closed; the file holds the header and the records of the logged rows. */
  class ExecutionLogWriter {
    const name: string
    const resolution: int
    const startedAt: int
    /** The "%.1f" float format, taken as given. */
    const formatTemperature: real -> string
    /** Whether the CSV writer is still attached (`Close` detaches it). */
    var open: bool
    var records: seq<seq<string>>
    var lastUpdate: int
    var lastStep: string
    ghost var rows: seq<Row>

    ghost function State(): Log
      reads this
    {
      Log(lastUpdate, lastStep, rows)
    }

    ghost predicate Valid()
      reads this
    {
      records == Records(rows, formatTemperature) && Tracks(State(), startedAt) &&
      SameStepApart(rows, resolution)
    }

    constructor (name: string, resolution: int, now: int, formatTemperature: real -> string)
      ensures Valid() && open && State() == Empty && records == [Header]
      ensures this.name == name && this.resolution == resolution && startedAt == now
      ensures this.formatTemperature == formatTemperature
    {
      this.name := name;
      this.resolution := resolution;
      startedAt := now;
      this.formatTemperature := formatTemperature;
      open := true;
      records := [Header];
      lastUpdate := 0;
      lastStep := "";
      rows := [];
    }

    /**
     * Creating the file may fail (`created` is false): then there is no writer. Otherwise the
     * new writer holds only the header and remembers clock 0 and step "".
     */
    static method New(name: string, resolution: int, now: int, created: bool, formatTemperature: real -> string)
      returns (w: ExecutionLogWriter?)
      ensures created <==> w != null
      ensures w != null ==> fresh(w) && w.Valid() && w.open && w.records == [Header] && w.State() == Empty
      ensures w != null ==> w.name == name && w.resolution == resolution && w.startedAt == now
    {
      if !created {
        return null;
      }
      w := new ExecutionLogWriter(name, resolution, now, formatTemperature);
    }

    /**
     * Logs `status` at clock `now`. A missing or closed writer does nothing; otherwise the
     * row is written, and remembered, exactly when `Writes` holds.
     */
    static method AddLine(w: ExecutionLogWriter?, status: ExecutionStatus, now: int)
      requires w != null ==> w.Valid()
      modifies w
      ensures w != null ==> w.Valid()
      ensures w != null && old(w.open) ==> w.State() == Logged(old(w.State()), Call(status, now), w.startedAt, w.resolution)
      ensures w != null && old(w.open) && Writes(old(w.State()), status.currentStep, now, w.resolution) ==>
        w.records == old(w.records) + [RowFields(RowOf(status, now, w.startedAt), w.formatTemperature)] &&
        w.lastUpdate == now && w.lastStep == status.currentStep
      ensures w != null && !(old(w.open) && Writes(old(w.State()), status.currentStep, now, w.resolution)) ==>
        w.records == old(w.records) && w.State() == old(w.State())
      ensures w != null ==> w.open == old(w.open)
    {
      if w == null {
        return;
      }
      if !w.open {
        return;
      }
      var stepChanged := status.currentStep != w.lastStep;
      var timeElapsed := now - w.lastUpdate >= w.resolution;
      if !stepChanged && !timeElapsed {
        return;
      }
      var row := RowOf(status, now, w.startedAt);
      LoggedKeepsSpacing(w.State(), Call(status, now), w.startedAt, w.resolution);
      RecordsAppend(w.rows, row, w.formatTemperature);
      w.records := w.records + [RowFields(row, w.formatTemperature)];
      w.rows := w.rows + [row];
      w.lastUpdate := now;
      w.lastStep := status.currentStep;
    }

    /** Detaches the CSV writer, so that later calls of `AddLine` do nothing. A missing writer is ignored. */
    static method Close(w: ExecutionLogWriter?)
      modifies w
      ensures w != null ==> !w.open && w.records == old(w.records) && w.State() == old(w.State())
    {
      if w != null {
        w.open := false;
      }
    }
  }
}
