/**
 * The single-thumb temperature slider of the forms (webapp form/TemperatureRangeSlider.tsx):
 * marks every 25 degrees from the bottom of the range, and a change handler that forwards a
 * single value and ignores an array.
 */
module TemperatureRangeSlider {
  import opened Wrappers
  import opened Text
  import opened Slider

  const MarkStep: int := 25
  const DefaultMin: int := 100
  const DefaultMax: int := 250

  datatype Mark = Mark(value: int, caption: string)

  /** The label of a temperature: the number followed by the degree sign and C. */
  function Celsius(value: int): string {
    IntToString(value) + "°C"
  }

  /**
   * `rangeMarks`: one mark per whole 25 degrees between min and max, starting at min; None
   * when max is below min, where building the array of negative length throws.
   */
  function RangeMarks(min: int, max: int): (r: Option<seq<Mark>>)
    ensures r.None? <==> max < min
    ensures r.Some? ==> |r.value| == (max - min) / MarkStep
    ensures r.Some? ==> forall i :: 0 <= i < |r.value| ==>
      r.value[i].value == min + MarkStep * i && r.value[i].caption == Celsius(r.value[i].value)
    ensures r.Some? ==> forall i :: 0 <= i < |r.value| ==> min <= r.value[i].value < max
  {
    if max < min then None
    else
      var n := (max - min) / MarkStep;
      Some(seq(n, i requires 0 <= i < n => Mark(min + i * MarkStep, Celsius(min + i * MarkStep))))
  }

  /** The default range 100 to 250 has the six marks 100, 125, ..., 225; 250 itself gets none. */
  lemma DefaultRangeMarks()
    ensures RangeMarks(DefaultMin, DefaultMax).Some?
    ensures |RangeMarks(DefaultMin, DefaultMax).value| == 6
    ensures forall i :: 0 <= i < 6 ==> RangeMarks(DefaultMin, DefaultMax).value[i].value == 100 + 25 * i
  {
  }

  /** `handleChange`: a single value is forwarded unchanged, an array value is dropped. */
  function HandleChange(newValue: SliderValue): (r: Option<int>)
    ensures r.Some? <==> newValue.Number?
    ensures r.Some? ==> r.value == newValue.value
  {
    match newValue
    case Number(v) => Some(v)
    case Numbers(_) => None
  }
}
