/**
 * The shop's cart badge: a counter that starts at 3 (a stand-in for a real
 * cart), can be bumped, lowered without going below zero, or cleared.
 */
module Cart {

  /** `(n) => n + 1`. */
  function Added(n: int): (r: int)
    ensures r > n
  {
    n + 1
  }

  /** `(n) => Math.max(0, n - 1)`. */
  function Removed(n: int): (r: int)
    ensures r >= 0
    ensures n > 0 ==> r == n - 1
    ensures n <= 0 ==> r == 0
  {
    if n - 1 > 0 then n - 1 else 0
  }

  class CartCounter {
    /** `cartCount`. */
    var count: int

    /** `useState(3)`. */
    constructor ()
      ensures count == 3
    {
      count := 3;
    }

    /** `setCartCount(n)`: any value, as the context exposes the setter itself. */
    method SetCount(n: int)
      modifies this
      ensures count == n
    {
      count := n;
    }

    /** `addOne()`. */
    method AddOne()
      modifies this
      ensures count == Added(old(count))
    {
      count := count + 1;
    }

    /** `removeOne()`: never below zero. */
    method RemoveOne()
      modifies this
      ensures count == Removed(old(count))
    {
      count := if count - 1 > 0 then count - 1 else 0;
    }

    /** `clear()`. */
    method Clear()
      modifies this
      ensures count == 0
    {
      count := 0;
    }
  }

  // ---------------------------------------------------------------------
  // Properties
  // ---------------------------------------------------------------------

  /** Removing after adding gives a non-negative count back. */
  lemma RemoveUndoesAdd(n: int)
    requires n >= 0
    ensures Removed(Added(n)) == n
  {
  }

  /** Adding after removing gives a positive count back; from zero it gives 1. */
  lemma AddUndoesRemove(n: int)
    requires n >= 0
    ensures Added(Removed(n)) == if n == 0 then 1 else n
  {
  }

  /** Removing `k` times from `n` leaves `max(0, n - k)`. */
  function RemovedTimes(n: int, k: nat): int
  {
    if k == 0 then n else Removed(RemovedTimes(n, k - 1))
  }

  lemma {:induction false} RemoveTimesFloorsAtZero(n: int, k: nat)
    requires n >= 0
    ensures RemovedTimes(n, k) == if n - k > 0 then n - k else 0
  {
    if k > 0 {
      RemoveTimesFloorsAtZero(n, k - 1);
    }
  }
}
