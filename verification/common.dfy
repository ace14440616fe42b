/** Small value types and numeric helpers shared by the other modules. */
module Common {

  /** A value that may be absent (Python's `None`). */
  datatype Option<+T> = None | Some(value: T)

  /** `max(lo, min(hi, x))`, which is also what `np.clip(x, lo, hi)` computes. */
  function Clamp(lo: real, hi: real, x: real): (r: real)
    requires lo <= hi
    ensures lo <= r <= hi
    ensures lo <= x <= hi ==> r == x
    ensures x < lo ==> r == lo
    ensures hi < x ==> r == hi
  {
    if x < lo then lo else if hi < x then hi else x
  }

  /** True when `y` lies between `x` and `target`, whichever way round. */
  predicate Between(x: real, target: real, y: real) {
    (x <= y <= target) || (target <= y <= x)
  }
}
