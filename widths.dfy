/** `Math.min(Math.max(x, lo), hi)`, the clamp every resize handler applies to
    the pointer position. */
module Widths {

  function Clamp(x: int, lo: int, hi: int): (w: int)
    ensures lo <= hi ==> lo <= w <= hi
    ensures lo <= x <= hi ==> w == x
    ensures x < lo <= hi ==> w == lo
    ensures lo <= hi < x ==> w == hi
  {
    var atLeast := if x > lo then x else lo;
    if atLeast < hi then atLeast else hi
  }

  /** A pointer further right never gives a narrower clamp. */
  lemma ClampMonotone(x: int, y: int, lo: int, hi: int)
    requires x <= y
    ensures Clamp(x, lo, hi) <= Clamp(y, lo, hi)
  {
  }

  /** Clamping a clamped width changes nothing. */
  lemma ClampIdempotent(x: int, lo: int, hi: int)
    requires lo <= hi
    ensures Clamp(Clamp(x, lo, hi), lo, hi) == Clamp(x, lo, hi)
  {
  }
}
