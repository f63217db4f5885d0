/**
 * The linear map from a domain `[d0, d1]` onto a range `[r0, r1]`, the one
 * formula all three grey-scale renderers use.
 */
module LinearScales {

  /** `r0 + (r1 - r0) * ((v - d0) / (d1 - d0))`; a degenerate domain is excluded. */
  function LinearScale(d0: real, d1: real, r0: real, r1: real, v: real): (r: real)
    requires d0 != d1
    ensures v == d0 ==> r == r0
    ensures v == d1 ==> r == r1
  {
    QuotientOfSelf(d1 - d0);
    r0 + (r1 - r0) * ((v - d0) / (d1 - d0))
  }

  /** The domain's ends go to the range's ends. */
  lemma ScaleEndpoints(d0: real, d1: real, r0: real, r1: real)
    requires d0 != d1
    ensures LinearScale(d0, d1, r0, r1, d0) == r0
    ensures LinearScale(d0, d1, r0, r1, d1) == r1
  {
    assert (d1 - d0) / (d1 - d0) == 1.0;
  }

  /** An increasing domain onto a non-decreasing range gives a non-decreasing map. */
  lemma ScaleMonotone(d0: real, d1: real, r0: real, r1: real, a: real, b: real)
    requires d0 < d1 && r0 <= r1 && a <= b
    ensures LinearScale(d0, d1, r0, r1, a) <= LinearScale(d0, d1, r0, r1, b)
  {
    var w := d1 - d0;
    assert (a - d0) / w <= (b - d0) / w by {
      assert (b - d0) / w - (a - d0) / w == (b - a) / w;
    }
    MulNonNegative(r1 - r0, (b - d0) / w - (a - d0) / w);
    assert (r1 - r0) * ((b - d0) / w) - (r1 - r0) * ((a - d0) / w)
        == (r1 - r0) * ((b - d0) / w - (a - d0) / w);
  }

  /** A value inside the domain maps inside the range. */
  lemma ScaleInto(d0: real, d1: real, r0: real, r1: real, v: real)
    requires d0 < d1 && r0 <= r1 && d0 <= v <= d1
    ensures r0 <= LinearScale(d0, d1, r0, r1, v) <= r1
  {
    ScaleEndpoints(d0, d1, r0, r1);
    ScaleMonotone(d0, d1, r0, r1, d0, v);
    ScaleMonotone(d0, d1, r0, r1, v, d1);
  }

  lemma QuotientOfSelf(w: real)
    requires w != 0.0
    ensures w / w == 1.0 && 0.0 / w == 0.0
  {
  }

  lemma MulNonNegative(a: real, b: real)
    requires a >= 0.0 && b >= 0.0
    ensures a * b >= 0.0
  {
  }
}
