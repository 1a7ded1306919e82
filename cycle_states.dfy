/**
 * The on/off squares of a power cycle (webapp cycles/States.tsx): the percentage of squares
 * that are on, and the click handler that flips one square in a copy of the states and hands
 * the copy to the editor, if there is one.
 */
module CycleStates {
  import opened Wrappers

  /** The number of squares that are on. */
  function CountOn(states: seq<bool>): (n: nat)
    ensures n <= |states|
  {
    if states == [] then 0
    else CountOn(states[..|states| - 1]) + (if states[|states| - 1] then 1 else 0)
  }

  /**
   * `ratio`: the share of squares that are on, in percent; None for a cycle without squares,
   * where the division by zero gives NaN.
   */
  function Ratio(states: seq<bool>): (r: Option<real>)
    ensures r.None? <==> states == []
    ensures r.Some? ==> 0.0 <= r.value <= 100.0
    ensures r.Some? ==> r.value * (|states| as real) == 100.0 * (CountOn(states) as real)
  {
    if states == [] then None
    else Some((CountOn(states) as real) / (|states| as real) * 100.0)
  }

  /** `handleClick(idx)`'s copy of the states with square `idx` flipped. */
  function Toggle(states: seq<bool>, idx: nat): (r: seq<bool>)
    requires idx < |states|
    ensures |r| == |states| && r[idx] == !states[idx]
    ensures forall i :: 0 <= i < |states| && i != idx ==> r[i] == states[i]
  {
    states[idx := !states[idx]]
  }

  /** A click: the flipped copy handed to the editor, or None when the squares are read-only. */
  function Click(states: seq<bool>, idx: nat, editable: bool): (r: Option<seq<bool>>)
    requires idx < |states|
    ensures r.Some? <==> editable
    ensures r.Some? ==> r.value == Toggle(states, idx)
  {
    if editable then Some(Toggle(states, idx)) else None
  }

  /** Clicking the same square twice gives back the states it started from. */
  lemma ToggleTwice(states: seq<bool>, idx: nat)
    requires idx < |states|
    ensures Toggle(Toggle(states, idx), idx) == states
  {
  }

  /** A click turns exactly one square on or off, so the count of squares that are on moves by one. */
  lemma {:induction false} ToggleCount(states: seq<bool>, idx: nat)
    requires idx < |states|
    ensures CountOn(Toggle(states, idx)) == if states[idx] then CountOn(states) - 1 else CountOn(states) + 1
    decreases |states|
  {
    var t := Toggle(states, idx);
    var last := |states| - 1;
    if idx == last {
      assert t[..last] == states[..last];
    } else {
      assert t[..last] == Toggle(states[..last], idx);
      ToggleCount(states[..last], idx);
    }
  }
}
