/**
 * The console's chart of an execution log: the CSV text is split into lines,
 * the header line is dropped and every other line becomes one data point whose
 * fields are that line's comma-separated values (webapp ExecutionChart).
 */
module ExecutionChart {
  import opened Wrappers
  import opened Text

  /** One parsed row; a numeric field that parseFloat cannot read is NaN, here None. */
  datatype DataPoint = DataPoint(
    time: Option<real>,
    step: Option<string>,
    stepTime: Option<real>,
    material: Option<real>,
    oven: Option<real>,
    heater: Option<real>,
    fan: Option<real>,
    humidifier: Option<real>)

  /** The lines of the text as the chart sees them: trimmed, then split on newline. */
  function Lines(csv: string): seq<string> {
    Split(Trim(csv), '\n')
  }

  /** `values[k]`, which is undefined past the end of the split line. */
  function Field(values: seq<string>, k: nat): Option<string> {
    if k < |values| then Some(values[k]) else None
  }

  /** parseFloat of a field; parseFloat(undefined) is NaN. */
  function NumberField(values: seq<string>, k: nat): Option<real> {
    match Field(values, k)
    case None => None
    case Some(v) => ParseDecimal(v)
  }

  /** The data point of one CSV line, field k taken from the k-th comma-separated value. */
  function PointOf(line: string): DataPoint {
    var values := Split(line, ',');
    DataPoint(NumberField(values, 0), Field(values, 1), NumberField(values, 2),
              NumberField(values, 3), NumberField(values, 4), NumberField(values, 5),
              NumberField(values, 6), NumberField(values, 7))
  }

  /** Specification of parseCSV: one point per line after the header, in order. */
  function Points(csv: string): (r: seq<DataPoint>)
    ensures |r| == |Lines(csv)| - 1
  {
    var lines := Lines(csv);
    seq(|lines| - 1, i requires 0 <= i < |lines| - 1 => PointOf(lines[i + 1]))
  }

  /** parseCSV: a loop pushing one point per non-header line. */
  method ParseCsv(csv: string) returns (data: seq<DataPoint>)
    ensures |data| == |Lines(csv)| - 1
    ensures forall i :: 0 <= i < |data| ==> data[i] == PointOf(Lines(csv)[i + 1])
  {
    var lines := Lines(csv);
    data := [];
    var i := 1;
    while i < |lines|
      invariant 1 <= i <= |lines|
      invariant |data| == i - 1
      invariant forall k :: 0 <= k < |data| ==> data[k] == PointOf(lines[k + 1])
    {
      var point := PointOf(lines[i]);
      data := data + [point];
      i := i + 1;
    }
  }

  /** Text without any newline once trimmed (empty, or a lone header) yields no point. */
  lemma {:induction false} NoPointsWithoutSecondLine(csv: string)
    requires '\n' !in Trim(csv)
    ensures Points(csv) == []
  {
    SplitSingle(Trim(csv), '\n');
  }

  /**
   * A header followed by rows, each on its own line, parses to one point per row:
   * the point of row i has as field k the k-th comma-separated value of that row.
   */
  lemma {:induction false} PointsOfRows(header: string, rows: seq<string>)
    requires '\n' !in header && forall i :: 0 <= i < |rows| ==> '\n' !in rows[i]
    requires Trim(Join([header] + rows, '\n')) == Join([header] + rows, '\n')
    ensures |Points(Join([header] + rows, '\n'))| == |rows|
    ensures forall i :: 0 <= i < |rows| ==> Points(Join([header] + rows, '\n'))[i] == PointOf(rows[i])
  {
    var all := [header] + rows;
    assert forall i :: 0 <= i < |all| ==> '\n' !in all[i] by {
      forall i | 0 <= i < |all| ensures '\n' !in all[i] {
        if i > 0 { assert all[i] == rows[i - 1]; }
      }
    }
    SplitJoin(all, '\n');
    assert Lines(Join(all, '\n')) == all;
  }

  /** For a line of eight separator-free values, field k of the point is read from value k. */
  lemma {:induction false} PointFieldsOfRow(fields: seq<string>)
    requires |fields| == 8 && forall i :: 0 <= i < 8 ==> ',' !in fields[i]
    ensures var p := PointOf(Join(fields, ','));
      p.time == ParseDecimal(fields[0]) && p.step == Some(fields[1]) &&
      p.stepTime == ParseDecimal(fields[2]) && p.material == ParseDecimal(fields[3]) &&
      p.oven == ParseDecimal(fields[4]) && p.heater == ParseDecimal(fields[5]) &&
      p.fan == ParseDecimal(fields[6]) && p.humidifier == ParseDecimal(fields[7])
  {
    SplitJoin(fields, ',');
  }

  /** What the chart component shows. Labels are point times in minutes (NaN stays NaN). */
  datatype View = Spinner | Placeholder | Chart(labels: seq<Option<real>>, points: seq<DataPoint>)

  function Minutes(t: Option<real>): Option<real> {
    match t
    case None => None
    case Some(s) => Some(s / 60.0)
  }

  /**
   * ExecutionChart: the spinner while loading, whatever the data; the placeholder when
   * there is no CSV text (an undefined prop is the empty string here); otherwise the chart
   * with exactly one x-axis label per parsed point, in point order.
   */
  function Render(csvData: string, isLoading: bool): (v: View)
    ensures isLoading ==> v == Spinner
    ensures !isLoading && csvData == "" ==> v == Placeholder
    ensures !isLoading && csvData != "" ==>
      v.Chart? && v.points == Points(csvData) && |v.labels| == |v.points| &&
      forall i :: 0 <= i < |v.labels| ==> v.labels[i] == Minutes(v.points[i].time)
  {
    if isLoading then Spinner
    else if csvData == "" then Placeholder
    else
      var points := Points(csvData);
      Chart(seq(|points|, i requires 0 <= i < |points| => Minutes(points[i].time)), points)
  }
}
