/** The static class `Math2` of Frame.cs: scalar interpolation and clamping.

    `QuaternionLookRotation` is not modelled here; see `Geometry.LookRotation`. */
module Math2 {

  /** `Math2.Lerp`: `t` scaled by the difference, then shifted by `from`. */
  function Lerp(from: real, to: real, t: real): (r: real)
    ensures t == 0.0 ==> r == from
    ensures t == 1.0 ==> r == to
    ensures 0.0 <= t <= 1.0 && from <= to ==> from <= r <= to
    ensures 0.0 <= t <= 1.0 && to <= from ==> to <= r <= from
  {
    var diff := to - from;
    if 0.0 <= t <= 1.0 then
      var size := if diff >= 0.0 then diff else -diff;
      NonNegativeProduct(t, size);
      NonNegativeProduct(1.0 - t, size);
      assert to - (t * diff + from) == (1.0 - t) * diff;
      t * diff + from
    else
      t * diff + from
  }

  lemma NonNegativeProduct(a: real, b: real)
    requires a >= 0.0 && b >= 0.0
    ensures a * b >= 0.0
  {
  }

  /** For a rising pair of endpoints the blend grows with the weight. */
  lemma {:induction false} LerpMonotone(from: real, to: real, s: real, t: real)
    requires from <= to
    requires s <= t
    ensures Lerp(from, to, s) <= Lerp(from, to, t)
  {
    assert Lerp(from, to, t) - Lerp(from, to, s) == (t - s) * (to - from);
    NonNegativeProduct(t - s, to - from);
  }

  /** `Math2.Clamp01`: anything above 1 becomes 1, anything below 0 becomes 0. */
  function Clamp01(f: real): (r: real)
    ensures 0.0 <= r <= 1.0
    ensures 0.0 <= f <= 1.0 ==> r == f
    ensures f >= 1.0 ==> r == 1.0
    ensures f <= 0.0 ==> r == 0.0
  {
    if f > 1.0 then 1.0
    else if f < 0.0 then 0.0
    else f
  }

  lemma Clamp01Idempotent(f: real)
    ensures Clamp01(Clamp01(f)) == Clamp01(f)
  {
  }
}
