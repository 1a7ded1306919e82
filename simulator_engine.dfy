/**
 * The simulator's on/off power outputs (simulator/engine/cycle.go, simulator/engine/power.go).
 * A duty cycle of `percentage` is ten ticks, the first ones on; a power output switches
 * between on and off only at the end of a ten-tick period, to the value queued for it.
 */
module SimulatorEngineCycle {
  type Uint8 = x: int | 0 <= x < 256

  /** The number of `true` entries. */
  function CountOn(s: seq<bool>): (r: nat)
    ensures r <= |s|
  {
    if s == [] then 0 else (if s[|s| - 1] then 1 else 0) + CountOn(s[..|s| - 1])
  }

  /** How many of the ten ticks a percentage turns on: a tick per started 10 percent, at most ten. */
  function TicksOn(percentage: Uint8): (r: nat)
    ensures r <= 10
    ensures 10 * r >= percentage || r == 10
    ensures r == 0 || 10 * (r - 1) < percentage
  {
    if percentage >= 100 then 10 else (percentage + 9) / 10
  }

  /** A tick pattern: the first `n` of ten ticks on, the rest off. */
  predicate OnPrefix(ticks: seq<bool>, n: nat) {
    |ticks| == 10 && forall i :: 0 <= i < 10 ==> (ticks[i] <==> i < n)
  }

  lemma {:induction false} CountOnPrefix(ticks: seq<bool>, k: nat, n: nat)
    requires |ticks| == 10 && k <= 10 && forall i :: 0 <= i < 10 ==> (ticks[i] <==> i < n)
    ensures CountOn(ticks[..k]) == if n < k then n else k
  {
    if k > 0 {
      CountOnPrefix(ticks, k - 1, n);
      assert ticks[..k][..k - 1] == ticks[..k - 1];
    }
  }

  /** Tick i of a cycle is on exactly when 10·i is below the percentage. */
  lemma OnPrefixCount(ticks: seq<bool>, percentage: Uint8)
    requires |ticks| == 10 && forall i :: 0 <= i < 10 ==> (ticks[i] <==> 10 * i < percentage)
    ensures OnPrefix(ticks, TicksOn(percentage))
    ensures CountOn(ticks) == TicksOn(percentage)
  {
    var n := TicksOn(percentage);
    forall i | 0 <= i < 10 ensures ticks[i] <==> i < n {
    }
    CountOnPrefix(ticks, 10, n);
    assert ticks[..10] == ticks;
  }

  class Cycle {
    const percentage: Uint8
    const ticks: array<bool>

    /** `NewCycle`: the percentage as given, and tick i on exactly when 10·i is below it. */
    constructor (percentage: Uint8)
      ensures this.percentage == percentage && fresh(ticks) && ticks.Length == 10
      ensures forall i :: 0 <= i < 10 ==> ticks[i] == (10 * i < percentage)
      ensures OnPrefix(ticks[..], TicksOn(percentage)) && CountOn(ticks[..]) == TicksOn(percentage)
    {
      this.percentage := percentage;
      var t := new bool[10];
      var i := 0;
      while i < 10
        invariant 0 <= i <= 10
        invariant forall k :: 0 <= k < i ==> t[k] == (10 * k < percentage)
      {
        t[i] := 10 * i < percentage;
        i := i + 1;
      }
      ticks := t;
      new;
      OnPrefixCount(ticks[..], percentage);
    }
  }
}

module SimulatorEnginePower {
  /** The fields of `Power`: the tick within the period, and the current and queued outputs. */
  datatype PowerState = PowerState(tick: int, running: bool, current: bool, upcoming: bool)

  const Stopped := PowerState(0, false, false, false)

  /** One `Tick`: stopped forces the output off; otherwise the tick advances, and after the tenth the queued output takes over. */
  function Advance(s: PowerState): (r: PowerState)
    requires 0 <= s.tick <= 9
    ensures 0 <= r.tick <= 9
    ensures r.running == s.running && r.upcoming == s.upcoming
    ensures !s.running ==> r.tick == 0 && !r.current
    ensures s.running && s.tick < 9 ==> r == s.(tick := s.tick + 1)
    ensures s.running && s.tick == 9 ==> r == s.(tick := 0, current := s.upcoming)
  {
    if !s.running then s.(current := false, tick := 0)
    else if s.tick < 9 then s.(tick := s.tick + 1)
    else s.(current := s.upcoming, tick := 0)
  }

  function AdvanceMany(s: PowerState, n: nat): (r: PowerState)
    requires 0 <= s.tick <= 9
    ensures 0 <= r.tick <= 9
    decreases n
  {
    if n == 0 then s else AdvanceMany(Advance(s), n - 1)
  }

  /**
   * A running output keeps its value until the period ends: after fewer ticks than remain in
   * it nothing but the tick changes, and exactly when it ends the queued value is current.
   */
  lemma {:induction false} PeriodEnd(s: PowerState, n: nat)
    requires 0 <= s.tick <= 9 && s.running && n <= 10 - s.tick
    ensures n < 10 - s.tick ==> AdvanceMany(s, n) == s.(tick := s.tick + n)
    ensures n == 10 - s.tick ==> AdvanceMany(s, n) == s.(tick := 0, current := s.upcoming)
    decreases n
  {
    if n > 0 {
      if s.tick < 9 {
        PeriodEnd(Advance(s), n - 1);
      } else {
        assert AdvanceMany(Advance(s), 0) == Advance(s);
      }
    }
  }

  class Power {
    var tick: int
    var running: bool
    var current: bool
    var upcoming: bool

    ghost function View(): PowerState
      reads this
    {
      PowerState(tick, running, current, upcoming)
    }

    ghost predicate Valid()
      reads this
    {
      0 <= tick <= 9
    }

    /** `NewPower`: stopped, off, at tick 0. */
    constructor ()
      ensures Valid() && View() == Stopped
    {
      tick := 0;
      running := false;
      current := false;
      upcoming := false;
    }

    method Start(initialState: bool)
      modifies this
      ensures Valid() && View() == PowerState(0, true, initialState, false)
    {
      running := true;
      current := initialState;
      upcoming := false;
      tick := 0;
    }

    method Stop()
      modifies this
      ensures Valid() && View() == Stopped
    {
      running := false;
      current := false;
      upcoming := false;
      tick := 0;
    }

    /** Queues the output for the next period; nothing else changes. */
    method SwitchTo(upcoming: bool)
      modifies this
      ensures View() == old(View()).(upcoming := upcoming)
    {
      this.upcoming := upcoming;
    }

    method Tick()
      requires Valid()
      modifies this
      ensures Valid() && View() == Advance(old(View()))
    {
      if !running {
        current := false;
        tick := 0;
        return;
      }
      if tick < 9 {
        tick := tick + 1;
      } else {
        current := upcoming;
        tick := 0;
      }
    }

    method IsRunning() returns (r: bool)
      ensures r == running
    {
      r := running;
    }

    /** Whether the output runs, and whether it is on now. */
    method Info() returns (isRunning: bool, on: bool)
      ensures isRunning == running && on == current
    {
      isRunning, on := running, current;
    }
  }
}
