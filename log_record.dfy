/**
 * The row format both back-ends' execution log writers share: an eight-column
 * header, then one record per logged status. The columns are the seconds since
 * the log started, the step name, the seconds since the step started, the two
 * temperatures and the three power levels.
 */
module LogRecord {
  import opened Wrappers
  import opened Text
  import opened ApiTypes
  import ExecutionChart
  import LiveExecutionChart

  const Header: seq<string> := ["time", "step", "steptime", "material", "oven", "heater", "fan", "humidifier"]

  /** One logged row, field for field in header order. */
  datatype Row = Row(time: int, step: string, stepTime: int, material: real, oven: real,
                     heater: int, fan: int, humidifier: int)

  /** The row for a status logged at clock time `now` by a log started at `startedAt`. */
  function RowOf(status: ExecutionStatus, now: int, startedAt: int): (r: Row)
    ensures r.time + startedAt == now && r.stepTime + status.currentStepStartedAt == now
    ensures r.step == status.currentStep
    ensures r.material == status.temperatures.material && r.oven == status.temperatures.oven
    ensures r.heater == status.powerStatus.heater && r.fan == status.powerStatus.fan
    ensures r.humidifier == status.powerStatus.humidifier
  {
    Row(now - startedAt, status.currentStep, now - status.currentStepStartedAt,
        status.temperatures.material, status.temperatures.oven,
        status.powerStatus.heater, status.powerStatus.fan, status.powerStatus.humidifier)
  }

  /**
   * The CSV record of a row: integers in decimal, temperatures through the writer's
   * float format ("%.1f" or "%f", given as a function).
   */
  function RowFields(r: Row, formatTemperature: real -> string): (f: seq<string>)
    ensures |f| == |Header|
  {
    [IntToString(r.time), r.step, IntToString(r.stepTime), formatTemperature(r.material),
     formatTemperature(r.oven), IntToString(r.heater), IntToString(r.fan), IntToString(r.humidifier)]
  }

  /** What a log file holds: the header record, then one record per logged row, in order. */
  function Records(rows: seq<Row>, formatTemperature: real -> string): seq<seq<string>> {
    [Header] + seq(|rows|, i requires 0 <= i < |rows| => RowFields(rows[i], formatTemperature))
  }

  /** Logging one more row appends exactly its record to the file. */
  lemma RecordsAppend(rows: seq<Row>, r: Row, formatTemperature: real -> string)
    ensures Records(rows + [r], formatTemperature) == Records(rows, formatTemperature) + [RowFields(r, formatTemperature)]
  {
  }

  /** A writer's memory of its last write: the clock and step of the last row, or 0 and "" before any. */
  datatype Log = Log(lastUpdate: int, lastStep: string, rows: seq<Row>)

  const Empty: Log := Log(0, "", [])

  /** The remembered clock and step are those of the last row written (the row time counts from `startedAt`). */
  predicate Tracks(log: Log, startedAt: int) {
    if log.rows == [] then log.lastUpdate == 0 && log.lastStep == ""
    else log.lastUpdate == startedAt + log.rows[|log.rows| - 1].time && log.lastStep == log.rows[|log.rows| - 1].step
  }

  /** One call of a writer's `AddLine`: the status and the clock reading it takes. */
  datatype Call = Call(status: ExecutionStatus, now: int)

  /** The time column never goes back. */
  predicate TimesNonDecreasing(rows: seq<Row>) {
    forall i, j :: 0 <= i < j < |rows| ==> rows[i].time <= rows[j].time
  }

  /** The clock readings of a sequence of calls never go back. */
  predicate ClockNonDecreasing(calls: seq<Call>) {
    forall i, j :: 0 <= i < j < |calls| ==> calls[i].now <= calls[j].now
  }

  /** A field the CSV writer emits as is: no separator, quote or line break. */
  predicate PlainField(s: string) {
    ',' !in s && '"' !in s && '\n' !in s && '\r' !in s
  }

  lemma IntFieldPlain(i: int)
    ensures PlainField(IntToString(i))
  {
    var s := IntToString(i);
    var digits := NatToString(if i < 0 then -i else i);
    forall k | 0 <= k < |s| ensures IsDigit(s[k]) || s[k] == '-' {
      if i < 0 && k > 0 { assert s[k] == digits[k - 1]; }
    }
  }

  /** The record's fields are plain whenever the step name and the formatted temperatures are. */
  lemma FieldsPlain(r: Row, formatTemperature: real -> string)
    requires PlainField(r.step)
    requires PlainField(formatTemperature(r.material)) && PlainField(formatTemperature(r.oven))
    ensures forall i :: 0 <= i < 8 ==> ',' !in RowFields(r, formatTemperature)[i]
  {
    IntFieldPlain(r.time);
    IntFieldPlain(r.stepTime);
    IntFieldPlain(r.heater);
    IntFieldPlain(r.fan);
    IntFieldPlain(r.humidifier);
  }

  /** The chart's point for a logged row has the row's time, step, step time and power levels. */
  lemma RowReadsBackInChart(r: Row, formatTemperature: real -> string)
    requires PlainField(r.step)
    requires PlainField(formatTemperature(r.material)) && PlainField(formatTemperature(r.oven))
    ensures var p := ExecutionChart.PointOf(Join(RowFields(r, formatTemperature), ','));
      p.time == Some(r.time as real) && p.step == Some(r.step) && p.stepTime == Some(r.stepTime as real) &&
      p.heater == Some(r.heater as real) && p.fan == Some(r.fan as real) &&
      p.humidifier == Some(r.humidifier as real)
  {
    var f := RowFields(r, formatTemperature);
    FieldsPlain(r, formatTemperature);
    ExecutionChart.PointFieldsOfRow(f);
    ParseDecimalOfInt(r.time);
    ParseDecimalOfInt(r.stepTime);
    ParseDecimalOfInt(r.heater);
    ParseDecimalOfInt(r.fan);
    ParseDecimalOfInt(r.humidifier);
  }

  /** The live stream's duplicate check reads a logged row's time column as its timestamp. */
  lemma RowTimestampInStream(r: Row, formatTemperature: real -> string)
    ensures LiveExecutionChart.LeadingTimestamp(Join(RowFields(r, formatTemperature), ',')) == Some(r.time)
  {
    var f := RowFields(r, formatTemperature);
    var rest := [','] + Join(f[1..], ',');
    assert Join(f, ',') == IntToString(r.time) + rest;
    LiveExecutionChart.LeadingOfIntRow(r.time, rest);
  }
}
