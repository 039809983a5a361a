/**
 * Picking from an array with a `Math.random()` draw: `arr[Math.floor(r * arr.length)]` for a
 * draw `r` in [0, 1). The draws themselves are parameters of the callers.
 */
module Draws {

  lemma ScaledDrawInRange(r: real, n: nat)
    requires 0.0 <= r < 1.0 && n > 0
    ensures 0.0 <= r * n as real < n as real
  {
    assert n as real - r * n as real == (1.0 - r) * n as real;
  }

  /** `Math.floor(r * n)`: always a valid index. */
  function PickIndex(r: real, n: nat): (i: nat)
    requires 0.0 <= r < 1.0 && n > 0
    ensures i < n
  {
    ScaledDrawInRange(r, n);
    var x := r * n as real;
    var i := x.Floor;
    assert x - 1.0 < i as real <= x;
    assert -1.0 < i as real < n as real;
    i
  }

  /** `randomFrom(arr)` */
  function PickFrom<T>(arr: seq<T>, r: real): (x: T)
    requires 0.0 <= r < 1.0 && |arr| > 0
    ensures x in arr
  {
    arr[PickIndex(r, |arr|)]
  }
}
