/**
 * A non-reentrant mutex (Go's `sync.Mutex`): a path that asks for the mutex while it already
 * holds it waits forever. Used to state what the locking of a code path does.
 */
module Locking {
  import opened Wrappers

  /** The operations on one mutex along a path through the code. */
  datatype LockOp = Acquire | Release

  /** Runs lock operations on a non-reentrant mutex; None when one waits for a mutex its own path holds. */
  function RunLock(ops: seq<LockOp>, held: bool): Option<bool>
  {
    if ops == [] then Some(held)
    else match ops[0]
      case Acquire => if held then None else RunLock(ops[1..], true)
      case Release => RunLock(ops[1..], false)
  }

  /** Taking the mutex a second time before releasing it waits forever, whatever would follow. */
  lemma NestedAcquireWaits(rest: seq<LockOp>)
    ensures RunLock([Acquire, Acquire] + rest, false) == None
  {
    var ops := [Acquire, Acquire] + rest;
    assert ops[1..] == [Acquire] + rest;
  }

  /** A path that takes and then releases the mutex, starting from a free one, ends with it free. */
  lemma {:induction false} PairedLocksRelease(n: nat)
    ensures RunLock(Pairs(n), false) == Some(false)
  {
    if n > 0 {
      assert Pairs(n)[1..][1..] == Pairs(n - 1);
      PairedLocksRelease(n - 1);
    }
  }

  /** `n` take-and-release pairs in a row. */
  function Pairs(n: nat): seq<LockOp> {
    if n == 0 then [] else [Acquire, Release] + Pairs(n - 1)
  }
}
