/**
 * The simulated Shelly outputs (simulator/types/cycle.go, simulator/types/power.go). A
 * named cycle is ten ticks of on/off with a percentage of 10 per tick that is on; an output
 * runs one cycle, takes a queued one only at the end of a ten-tick period, and reports the
 * current cycle's name, percentage and tick.
 */
module SimulatorTypesCycle {
  import opened SimulatorEngineCycle

  class Cycle {
    const name: string
    const percentage: int
    const ticks: array<bool>

    /** Ten ticks, and 10 percent for each one that is on. */
    ghost predicate WellFormed()
      reads this, ticks
    {
      ticks.Length == 10 && percentage == 10 * CountOn(ticks[..])
    }

    /** `NewCycle`: the ticks copied as given, and 10 percent for each one that is on. */
    constructor (name: string, ticks: seq<bool>)
      requires |ticks| == 10
      ensures this.name == name && fresh(this.ticks) && this.ticks[..] == ticks
      ensures percentage == 10 * CountOn(ticks) && WellFormed()
    {
      this.name := name;
      var t := new bool[10];
      var p := 0;
      var i := 0;
      while i < 10
        invariant 0 <= i <= 10
        invariant t[..i] == ticks[..i]
        invariant p == 10 * CountOn(ticks[..i])
      {
        t[i] := ticks[i];
        assert ticks[..i + 1][..i] == ticks[..i];
        if ticks[i] {
          p := p + 10;
        }
        i := i + 1;
      }
      assert ticks[..10] == ticks && t[..10] == t[..];
      this.ticks := t;
      percentage := p;
    }
  }

  /** No tick on is 0 percent, all ten on is 100, and any pattern is a multiple of 10 up to 100. */
  lemma {:induction false} CountOnExtremes(ticks: seq<bool>)
    ensures CountOn(ticks) == 0 <==> forall i :: 0 <= i < |ticks| ==> !ticks[i]
    ensures CountOn(ticks) == |ticks| <==> forall i :: 0 <= i < |ticks| ==> ticks[i]
  {
    if ticks != [] {
      var init := ticks[..|ticks| - 1];
      CountOnExtremes(init);
      assert forall i :: 0 <= i < |init| ==> init[i] == ticks[i];
    }
  }

  /**
   * The percentage of a cycle of ten ticks lies in {0, 10, ..., 100}; it is 0 exactly when
   * every tick is off and 100 exactly when every tick is on.
   */
  lemma PercentageRange(ticks: seq<bool>)
    requires |ticks| == 10
    ensures 0 <= 10 * CountOn(ticks) <= 100 && (10 * CountOn(ticks)) % 10 == 0
    ensures 10 * CountOn(ticks) == 0 <==> forall i :: 0 <= i < 10 ==> !ticks[i]
    ensures 10 * CountOn(ticks) == 100 <==> forall i :: 0 <= i < 10 ==> ticks[i]
  {
    CountOnExtremes(ticks);
  }

  /** The engine's pattern for a percentage, given a name here, carries the percentage rounded up to a multiple of 10, at most 100. */
  lemma EngineCycleRoundTrip(ticks: seq<bool>, percentage: Uint8)
    requires |ticks| == 10 && forall i :: 0 <= i < 10 ==> (ticks[i] <==> 10 * i < percentage)
    ensures 10 * CountOn(ticks) == if percentage >= 100 then 100 else 10 * ((percentage + 9) / 10)
    ensures percentage % 10 == 0 && percentage <= 100 ==> 10 * CountOn(ticks) == percentage
  {
    OnPrefixCount(ticks, percentage);
  }
}

module SimulatorTypesPower {
  import opened SimulatorTypesCycle

  class Power {
    var tick: int
    var current: Cycle?
    var upcoming: Cycle?

    /** The tick within the period, and well-formed running and queued cycles. */
    ghost predicate Valid()
      reads this, current, upcoming, (if current == null then {} else {current.ticks}) + (if upcoming == null then {} else {upcoming.ticks})
    {
      0 <= tick <= 9 && (current != null ==> current.WellFormed()) && (upcoming != null ==> upcoming.WellFormed())
    }

    /** `NewPower`: no cycle, at tick 0. */
    constructor ()
      ensures Valid() && tick == 0 && current == null && upcoming == null
    {
      tick := 0;
      current := null;
      upcoming := null;
    }

    /** Runs `cycle` from the start of a period, dropping any queued one. */
    method Start(cycle: Cycle)
      requires cycle.WellFormed()
      modifies this
      ensures Valid() && current == cycle && upcoming == null && tick == 0
    {
      current := cycle;
      upcoming := null;
      tick := 0;
    }

    method Stop()
      modifies this
      ensures Valid() && current == null && upcoming == null && tick == 0
    {
      current := null;
      upcoming := null;
      tick := 0;
    }

    /** An idle output starts `cycle` at once; a running one queues it unless a cycle is already queued. */
    method UpdateCycle(cycle: Cycle)
      requires Valid() && cycle.WellFormed()
      modifies this
      ensures Valid() && tick == old(tick)
      ensures old(current) == null ==> current == cycle && upcoming == old(upcoming)
      ensures old(current) != null && old(upcoming) == null ==> current == old(current) && upcoming == cycle
      ensures old(current) != null && old(upcoming) != null ==> current == old(current) && upcoming == old(upcoming)
    {
      if current == null {
        current := cycle;
        return;
      }
      if upcoming == null {
        upcoming := cycle;
      }
    }

    /** Advances the tick; at the end of a period a queued cycle becomes current and the queue empties. */
    method Tick()
      requires Valid()
      modifies this
      ensures Valid()
      ensures old(current) == null ==> tick == 0 && current == null && upcoming == old(upcoming)
      ensures old(current) != null && old(tick) < 9 ==> tick == old(tick) + 1 && current == old(current) && upcoming == old(upcoming)
      ensures old(current) != null && old(tick) == 9 ==>
        tick == 0 && (old(upcoming) != null ==> current == old(upcoming) && upcoming == null) &&
        (old(upcoming) == null ==> current == old(current) && upcoming == null)
    {
      if current == null {
        tick := 0;
        return;
      }
      if tick < 9 {
        tick := tick + 1;
      } else {
        if upcoming != null {
          current := upcoming;
          upcoming := null;
        }
        tick := 0;
      }
    }

    function IsRunning(): (r: bool)
      reads this
      ensures r <==> current != null
    {
      current != null
    }

    /**
     * "Off", 0 and off when idle; else the current cycle's name, percentage and current tick,
     * so that a tick reported on comes with a percentage of at least 10, and 100 percent
     * reports every tick on.
     */
    function CycleInfo(): (r: (string, int, bool))
      requires Valid()
      reads this, current, upcoming, (if current == null then {} else {current.ticks}) + (if upcoming == null then {} else {upcoming.ticks})
      ensures current == null ==> r == ("Off", 0, false)
      ensures current != null ==> r.0 == current.name && 0 <= r.1 <= 100 && r.1 % 10 == 0
      ensures current != null ==> 0 <= tick < current.ticks.Length && r == (current.name, current.percentage, current.ticks[tick])
      ensures r.2 ==> r.1 >= 10
      ensures r.1 == 100 ==> r.2
    {
      if current == null then ("Off", 0, false)
      else
        PercentageRange(current.ticks[..]);
        assert current.ticks[..][tick] == current.ticks[tick];
        (current.name, current.percentage, current.ticks[tick])
    }
  }
}
