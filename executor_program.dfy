/**
 * The executor's programs (executor/types/program.go, executor/types/phase.go). Each step
 * drives the heater, the fan and the humidifier with a phase: a constant duty cycle, or a
 * table of delta cycles that picks the duty cycle from the material-minus-oven temperature
 * difference. `Validate` sorts the heater's delta cycles by delta and accepts every program.
 */
module ExecutorProgram {
  import opened Wrappers

  datatype StepType = Heating | Cooling | Acclimate | WaitingStep | OtherStep(name: string)

  /** Past this temperature difference the duty cycle is `enteredBelow` when rising and `enteredAbove` when falling. */
  datatype DeltaCycle = DeltaCycle(temperatureDelta: real, enteredBelow: int, enteredAbove: int)

  datatype SensorRange = SensorRange(minimumTemperature: real, maximumTemperature: real)

  /** A nil delta-cycle slice is `None`. */
  datatype PsuPhase = PsuPhase(name: string, constantCycle: int, deltaCycles: Option<seq<DeltaCycle>>)

  datatype ProgramStep = ProgramStep(
    name: string,
    stepType: StepType,
    maximumRuntime: int,
    validRange: SensorRange,
    heater: PsuPhase,
    fan: PsuPhase,
    humidifier: PsuPhase)

  predicate SortedByDelta(cycles: seq<DeltaCycle>) {
    forall i, j :: 0 <= i < j < |cycles| ==> cycles[i].temperatureDelta <= cycles[j].temperatureDelta
  }

  /** Inserts `c` before the first cycle with a larger delta. */
  function Insert(c: DeltaCycle, cycles: seq<DeltaCycle>): (r: seq<DeltaCycle>)
    ensures |r| == |cycles| + 1 && multiset(r) == multiset(cycles) + multiset{c}
    ensures r[0] == c || (cycles != [] && r[0] == cycles[0])
  {
    if cycles == [] || c.temperatureDelta <= cycles[0].temperatureDelta then [c] + cycles
    else
      assert cycles == [cycles[0]] + cycles[1..];
      [cycles[0]] + Insert(c, cycles[1..])
  }

  lemma {:induction false} InsertSorted(c: DeltaCycle, cycles: seq<DeltaCycle>)
    requires SortedByDelta(cycles)
    ensures SortedByDelta(Insert(c, cycles))
  {
    if cycles != [] && c.temperatureDelta > cycles[0].temperatureDelta {
      var rest := Insert(c, cycles[1..]);
      InsertSorted(c, cycles[1..]);
      var r := [cycles[0]] + rest;
      forall i, j | 0 <= i < j < |r| ensures r[i].temperatureDelta <= r[j].temperatureDelta {
        if i == 0 {
          assert r[j] == rest[j - 1];
          assert rest[0].temperatureDelta >= cycles[0].temperatureDelta by {
            if |cycles| > 1 {
              assert cycles[1..][0] == cycles[1];
            }
          }
        } else {
          assert r[i] == rest[i - 1] && r[j] == rest[j - 1];
        }
      }
    }
  }

  /** The cycles ordered by delta: what `sort.Slice` with the "less delta" comparison produces (up to the order of equal deltas). */
  function SortByDelta(cycles: seq<DeltaCycle>): (r: seq<DeltaCycle>)
    ensures SortedByDelta(r) && multiset(r) == multiset(cycles) && |r| == |cycles|
  {
    if cycles == [] then []
    else
      assert cycles == [cycles[0]] + cycles[1..];
      InsertSorted(cycles[0], SortByDelta(cycles[1..]));
      Insert(cycles[0], SortByDelta(cycles[1..]))
  }

  /** A sorted table is left as it is. */
  lemma {:induction false} SortSorted(cycles: seq<DeltaCycle>)
    requires SortedByDelta(cycles)
    ensures SortByDelta(cycles) == cycles
  {
    if cycles != [] {
      SortSorted(cycles[1..]);
      assert SortByDelta(cycles[1..]) == cycles[1..];
    }
  }

  /** A phase with its own cycles sorted by delta when it has a table. */
  function SortedPhase(p: PsuPhase): (r: PsuPhase)
    ensures r.deltaCycles.Some? <==> p.deltaCycles.Some?
    ensures r.deltaCycles.Some? ==>
      SortedByDelta(r.deltaCycles.value) && multiset(r.deltaCycles.value) == multiset(p.deltaCycles.value)
    ensures r.(deltaCycles := p.deltaCycles) == p
  {
    match p.deltaCycles
    case None => p
    case Some(cycles) => p.(deltaCycles := Some(SortByDelta(cycles)))
  }

  /** The step `Validate` leaves: the heater's cycles sorted when present, everything else as it was. */
  function Sorted(s: ProgramStep): (r: ProgramStep)
    ensures r.heater.deltaCycles.Some? <==> s.heater.deltaCycles.Some?
    ensures r.heater.deltaCycles.Some? ==>
      SortedByDelta(r.heater.deltaCycles.value) &&
      multiset(r.heater.deltaCycles.value) == multiset(s.heater.deltaCycles.value)
    ensures r.(heater := s.heater) == s && r.heater.(deltaCycles := s.heater.deltaCycles) == s.heater
  {
    s.(heater := SortedPhase(s.heater))
  }

  /** Every table a step has is sorted by delta, as the delta-cycle lookup assumes of all three phases. */
  predicate TablesSorted(s: ProgramStep) {
    (s.heater.deltaCycles.Some? ==> SortedByDelta(s.heater.deltaCycles.value)) &&
    (s.fan.deltaCycles.Some? ==> SortedByDelta(s.fan.deltaCycles.value)) &&
    (s.humidifier.deltaCycles.Some? ==> SortedByDelta(s.humidifier.deltaCycles.value))
  }

  /** As written, a fan table out of order is still out of order after `Validate`. */
  lemma FanTableStaysUnsorted()
    ensures var cycles := [DeltaCycle(10.0, 50, 50), DeltaCycle(0.0, 100, 100)];
      var s := ProgramStep("dry", Heating, 0, SensorRange(0.0, 60.0),
        PsuPhase("heater", 100, None), PsuPhase("fan", 0, Some(cycles)), PsuPhase("humidifier", 0, None));
      !TablesSorted(Sorted(s))
  {
    var cycles := [DeltaCycle(10.0, 50, 50), DeltaCycle(0.0, 100, 100)];
    assert cycles[0].temperatureDelta > cycles[1].temperatureDelta;
  }

  /** The step as the comment "all the cycles are sorted" intends: each phase's own table sorted. */
  function SortedAll(s: ProgramStep): (r: ProgramStep)
    ensures TablesSorted(r)
    ensures r.heater == Sorted(s).heater
    ensures r.fan.deltaCycles.Some? <==> s.fan.deltaCycles.Some?
    ensures r.humidifier.deltaCycles.Some? <==> s.humidifier.deltaCycles.Some?
    ensures s.fan.deltaCycles.Some? ==> multiset(r.fan.deltaCycles.value) == multiset(s.fan.deltaCycles.value)
    ensures s.humidifier.deltaCycles.Some? ==> multiset(r.humidifier.deltaCycles.value) == multiset(s.humidifier.deltaCycles.value)
    ensures r.(heater := s.heater, fan := s.fan, humidifier := s.humidifier) == s
  {
    s.(heater := SortedPhase(s.heater), fan := SortedPhase(s.fan), humidifier := SortedPhase(s.humidifier))
  }

  /** The intended validation leaves a step whose tables are all sorted as it is. */
  lemma SortedAllKeepsSorted(s: ProgramStep)
    requires TablesSorted(s)
    ensures SortedAll(s) == s
  {
    if s.heater.deltaCycles.Some? {
      SortSorted(s.heater.deltaCycles.value);
    }
    if s.fan.deltaCycles.Some? {
      SortSorted(s.fan.deltaCycles.value);
    }
    if s.humidifier.deltaCycles.Some? {
      SortSorted(s.humidifier.deltaCycles.value);
    }
  }

  /** Validating twice is validating once. */
  lemma SortedIdempotent(s: ProgramStep)
    ensures Sorted(Sorted(s)) == Sorted(s)
  {
    if s.heater.deltaCycles.Some? {
      SortSorted(Sorted(s).heater.deltaCycles.value);
    }
  }

  class Program {
    var programName: string
    var defaultStepTime: int
    var programSteps: seq<ProgramStep>

    constructor (programName: string, defaultStepTime: int, programSteps: seq<ProgramStep>)
      ensures this.programName == programName && this.defaultStepTime == defaultStepTime
      ensures this.programSteps == programSteps
    {
      this.programName := programName;
      this.defaultStepTime := defaultStepTime;
      this.programSteps := programSteps;
    }

    /**
     * Sorts each step's heater cycles by delta and returns no error. The fan and humidifier
     * branches sort the heater's cycles too, so their own tables keep their order; sorting an
     * already sorted table again changes nothing.
     */
    method Validate() returns (err: Option<string>)
      modifies this
      ensures err == None
      ensures programName == old(programName) && defaultStepTime == old(defaultStepTime)
      ensures |programSteps| == |old(programSteps)|
      ensures forall i :: 0 <= i < |programSteps| ==> programSteps[i] == Sorted(old(programSteps)[i])
    {
      ghost var original := programSteps;
      var i := 0;
      while i < |programSteps|
        invariant 0 <= i <= |programSteps| == |original|
        invariant forall k :: 0 <= k < i ==> programSteps[k] == Sorted(original[k])
        invariant forall k :: i <= k < |programSteps| ==> programSteps[k] == original[k]
        invariant programName == old(programName) && defaultStepTime == old(defaultStepTime)
      {
        var step := programSteps[i];
        if step.heater.deltaCycles.Some? {
          step := step.(heater := step.heater.(deltaCycles := Some(SortByDelta(step.heater.deltaCycles.value))));
        }
        if step.fan.deltaCycles.Some? && step.heater.deltaCycles.Some? {
          SortSorted(step.heater.deltaCycles.value);
          step := step.(heater := step.heater.(deltaCycles := Some(SortByDelta(step.heater.deltaCycles.value))));
        }
        if step.humidifier.deltaCycles.Some? && step.heater.deltaCycles.Some? {
          SortSorted(step.heater.deltaCycles.value);
          step := step.(heater := step.heater.(deltaCycles := Some(SortByDelta(step.heater.deltaCycles.value))));
        }
        programSteps := programSteps[i := step];
        i := i + 1;
      }
      err := None;
    }
  }
}
