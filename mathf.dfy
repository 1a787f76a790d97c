/** Unity's scalar helpers as the camera uses them, over unbounded reals.
    Clamp checks the lower bound first, so with lo > hi it answers lo below lo
    and hi otherwise; Lerp clamps its parameter into [0, 1]. */
module Mathf {

  /** Mathf.Clamp(value, lo, hi). */
  function Clamp(value: real, lo: real, hi: real): (r: real)
    ensures lo <= hi ==> lo <= r <= hi
    ensures lo <= value <= hi ==> r == value
    ensures value < lo ==> r == lo
    ensures lo <= hi && hi < value ==> r == hi
  {
    if value < lo then lo else if value > hi then hi else value
  }

  /** Mathf.Clamp01(value). */
  function Clamp01(value: real): (r: real)
    ensures 0.0 <= r <= 1.0
    ensures 0.0 <= value <= 1.0 ==> r == value
    ensures value < 0.0 ==> r == 0.0
    ensures 1.0 < value ==> r == 1.0
  {
    if value < 0.0 then 0.0 else if value > 1.0 then 1.0 else value
  }

  /** Mathf.Lerp(a, b, t) = a + (b - a) * Clamp01(t): the result never leaves the
      segment between a and b, and t outside [0, 1] lands on an end point. */
  function Lerp(a: real, b: real, t: real): (r: real)
    ensures a <= b ==> a <= r <= b
    ensures b <= a ==> b <= r <= a
    ensures t <= 0.0 ==> r == a
    ensures 1.0 <= t ==> r == b
  {
    a + Portion(b - a, Clamp01(t))
  }

  /** The fraction c in [0, 1] of a span d: it lies between 0 and d. */
  function Portion(d: real, c: real): (p: real)
    requires 0.0 <= c <= 1.0
    ensures 0.0 <= d ==> 0.0 <= p <= d
    ensures d <= 0.0 ==> d <= p <= 0.0
    ensures c == 0.0 ==> p == 0.0
    ensures c == 1.0 ==> p == d
  {
    ProductSign(d, c);
    ProductSign(d, 1.0 - c);
    assert d * (1.0 - c) == d - d * c;
    d * c
  }

  lemma ProductSign(x: real, y: real)
    requires 0.0 <= y
    ensures 0.0 <= x ==> 0.0 <= x * y
    ensures x <= 0.0 ==> x * y <= 0.0
  {
  }

  /** Clamping twice changes nothing more, as long as the bounds are ordered. */
  lemma ClampIdempotent(value: real, lo: real, hi: real)
    requires lo <= hi
    ensures Clamp(Clamp(value, lo, hi), lo, hi) == Clamp(value, lo, hi)
  {
  }

  /** Clamp01 preserves order. */
  lemma Clamp01Monotone(u: real, v: real)
    requires u <= v
    ensures Clamp01(u) <= Clamp01(v)
  {
  }
}
