/**
 * The phase editor's templates (webapp phases/templates.ts): the default table of delta
 * cycles offered for a new delta phase, one entry per temperature delta from +20 down to
 * -20 in steps of 10, and the empty constant phase.
 */
module PhaseTemplates {
  import opened Wrappers

  const MinDelta: int := -20
  const MaxDelta: int := 20
  const DeltaStep: int := 10

  const FullCycle: int := 100
  const HalfCycle: int := 50
  const OffCycle: int := 0

  const DefaultAbove: int := FullCycle
  const DefaultBelow: int := OffCycle
  const DefaultConstant: int := HalfCycle

  /** The number of default entries: the deltas from MinDelta to MaxDelta, DeltaStep apart. */
  const NDeltaCycles: int := (MaxDelta - MinDelta) / DeltaStep + 1

  /** The cycle percentages used above and below the target when the oven is `delta` degrees off. */
  datatype DeltaCycle = DeltaCycle(above: int, below: int, delta: int)

  datatype CycleMode = Constant | Delta

  datatype Phase = Phase(name: string, cycleMode: CycleMode, constantCycle: Option<int>, deltaCycles: Option<seq<DeltaCycle>>)

  /** Entry `i` of the default table: the full cycle above and none below, except at the two ends of the delta range. */
  function DefaultEntry(i: nat): DeltaCycle {
    var delta := MaxDelta - i * DeltaStep;
    if delta == MinDelta then DeltaCycle(DefaultAbove, DefaultAbove, delta)
    else if delta == MaxDelta then DeltaCycle(DefaultBelow, DefaultBelow, delta)
    else DeltaCycle(DefaultAbove, DefaultBelow, delta)
  }

  /**
   * `defaultDeltaCycles`: five entries whose deltas run 20, 10, 0, -10, -20; the interior
   * ones switch fully on above and off below, the lowest delta is fully on below and the
   * highest fully off above.
   */
  function DefaultDeltaCycles(): (r: seq<DeltaCycle>)
    ensures |r| == NDeltaCycles == 5
    ensures r[0].delta == MaxDelta && r[|r| - 1].delta == MinDelta
    ensures forall i :: 0 < i < |r| ==> r[i].delta == r[i - 1].delta - DeltaStep
    ensures forall i :: 0 < i < |r| - 1 ==> r[i].above == FullCycle && r[i].below == OffCycle
    ensures r[|r| - 1].below == FullCycle && r[0].above == OffCycle
  {
    seq(NDeltaCycles, i requires 0 <= i => DefaultEntry(i))
  }

  /** Every delta of the range that is a multiple of the step has exactly one entry. */
  lemma DefaultDeltasCoverRange(d: int)
    requires MinDelta <= d <= MaxDelta && d % DeltaStep == 0
    ensures exists i :: 0 <= i < |DefaultDeltaCycles()| && DefaultDeltaCycles()[i].delta == d
    ensures forall i, j :: 0 <= i < j < |DefaultDeltaCycles()| ==> DefaultDeltaCycles()[i].delta > DefaultDeltaCycles()[j].delta
  {
    var r := DefaultDeltaCycles();
    var i := (MaxDelta - d) / DeltaStep;
    assert r[i].delta == d;
    forall i, j | 0 <= i < j < |r|
      ensures r[i].delta > r[j].delta
    {
      assert r[i].delta == MaxDelta - i * DeltaStep;
      assert r[j].delta == MaxDelta - j * DeltaStep;
    }
  }

  /** `emptyConstantPhase`: no name, constant mode at half the cycle, no delta table. */
  function EmptyConstantPhase(): (p: Phase)
    ensures p.name == [] && p.cycleMode == Constant && p.constantCycle == Some(DefaultConstant) && p.deltaCycles.None?
  {
    Phase("", Constant, Some(DefaultConstant), None)
  }
}
