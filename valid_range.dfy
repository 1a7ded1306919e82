/**
 * The valid-range editor of a phase (webapp phases/ValidRange.tsx): one two-thumb slider
 * per sensor, the upper thumb `above` and the lower thumb `below` of the band in which the
 * phase is valid. Moving a thumb keeps it at least MinDistance from the other one's current
 * position; the edited band replaces the sensor's entry in the phase's list.
 */
module ValidRange {
  import opened Wrappers
  import opened Slider

  datatype ValidRangeEntry = ValidRangeEntry(sensor: string, above: int, below: int)

  const MinDistance: int := 1

  /**
   * `ValidRangeComponent.handleChange`: the new (above, below) sent on, or None when the
   * value is not an array. The thumb that moved is clamped against the other thumb's current
   * value; the other one passes through as the slider gave it.
   */
  function ClampThumbs(above: int, below: int, newValue: SliderValue, activeThumb: int): (r: Option<(int, int)>)
    requires newValue.Numbers? ==> |newValue.values| >= 2
    ensures r.None? <==> newValue.Number?
    ensures r.Some? && activeThumb == 0 ==>
      r.value.1 == newValue.values[1] && r.value.0 <= below - MinDistance && r.value.0 <= newValue.values[0] &&
      (r.value.0 == newValue.values[0] || r.value.0 == below - MinDistance)
    ensures r.Some? && activeThumb != 0 ==>
      r.value.0 == newValue.values[0] && r.value.1 >= above + MinDistance && r.value.1 >= newValue.values[1] &&
      (r.value.1 == newValue.values[1] || r.value.1 == above + MinDistance)
  {
    match newValue
    case Number(_) => None
    case Numbers(values) =>
      var newAbove, newBelow := values[0], values[1];
      if activeThumb == 0 then
        Some((if newAbove < below - MinDistance then newAbove else below - MinDistance, newBelow))
      else
        Some((newAbove, if newBelow > above + MinDistance then newBelow else above + MinDistance))
  }

  /** A move that already respects the distance is passed through unchanged. */
  lemma ClampKeepsLegalMove(above: int, below: int, newAbove: int, newBelow: int, activeThumb: int)
    requires activeThumb == 0 ==> newAbove <= below - MinDistance
    requires activeThumb != 0 ==> newBelow >= above + MinDistance
    ensures ClampThumbs(above, below, Numbers([newAbove, newBelow]), activeThumb) == Some((newAbove, newBelow))
  {
  }

  /**
   * `handleVrChange`: the list with every entry of `sensor` replaced by the new band and the
   * others kept; a phase without a list stays without one.
   */
  function ReplaceRange(validRange: Option<seq<ValidRangeEntry>>, sensor: string, above: int, below: int): (r: Option<seq<ValidRangeEntry>>)
    ensures r.Some? <==> validRange.Some?
    ensures r.Some? ==> |r.value| == |validRange.value|
    ensures r.Some? ==> forall i :: 0 <= i < |r.value| ==>
      r.value[i] == if validRange.value[i].sensor == sensor then ValidRangeEntry(sensor, above, below) else validRange.value[i]
  {
    match validRange
    case None => None
    case Some(entries) =>
      Some(seq(|entries|, i requires 0 <= i < |entries| =>
        if entries[i].sensor == sensor then ValidRangeEntry(sensor, above, below) else entries[i]))
  }

  /** Replacing a band twice is replacing it once, and a sensor without an entry changes nothing. */
  lemma ReplaceRangeIdempotent(validRange: Option<seq<ValidRangeEntry>>, sensor: string, above: int, below: int)
    ensures ReplaceRange(ReplaceRange(validRange, sensor, above, below), sensor, above, below) == ReplaceRange(validRange, sensor, above, below)
    ensures validRange.Some? && (forall i :: 0 <= i < |validRange.value| ==> validRange.value[i].sensor != sensor) ==>
      ReplaceRange(validRange, sensor, above, below) == validRange
  {
    var once := ReplaceRange(validRange, sensor, above, below);
    if validRange.Some? {
      var twice := ReplaceRange(once, sensor, above, below);
      assert twice.value == once.value by {
        assert |twice.value| == |once.value|;
        forall i | 0 <= i < |once.value|
          ensures twice.value[i] == once.value[i]
        {
        }
      }
      if forall i :: 0 <= i < |validRange.value| ==> validRange.value[i].sensor != sensor {
        assert once.value == validRange.value;
      }
    }
  }

  /**
   * A slider move on the entry at `k`: a scalar value leaves the list alone; a pair puts the
   * clamped band into every entry of that sensor, so the moved upper thumb ends at least
   * MinDistance below the entry's current lower one.
   */
  function SliderMove(validRange: seq<ValidRangeEntry>, k: nat, newValue: SliderValue, activeThumb: int): (r: seq<ValidRangeEntry>)
    requires k < |validRange|
    requires newValue.Numbers? ==> |newValue.values| >= 2
    ensures |r| == |validRange|
    ensures newValue.Number? ==> r == validRange
    ensures newValue.Numbers? && activeThumb == 0 ==> r[k].above <= validRange[k].below - MinDistance
    ensures newValue.Numbers? && activeThumb != 0 ==> r[k].below >= validRange[k].above + MinDistance
  {
    var entry := validRange[k];
    match ClampThumbs(entry.above, entry.below, newValue, activeThumb)
    case None => validRange
    case Some(band) => ReplaceRange(Some(validRange), entry.sensor, band.0, band.1).value
  }
}
