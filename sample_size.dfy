/**
 * The subsampling factor chosen before the real decode of a downloaded image
 * (`compress` inside the fetch task): the viewport falls back to the window
 * size while the view is unmeasured, and the factor is the smallest positive
 * integer that shrinks the source to fit the viewport in both dimensions.
 */
module SampleSize {

  /**
   * The viewport dimension used for the ratio: the view's measured size, or the
   * window's when the view reports a non-positive size (it has not been laid out).
   */
  function Viewport(measured: int, window: int): (d: int)
    requires window > 0
    ensures d > 0
    ensures d == measured || (measured <= 0 && d == window)
  {
    if measured <= 0 then window else measured
  }

  /** `Math.ceil(a * 1.0 / b)` computed exactly: the least `q` with `a <= q * b`. */
  function CeilDiv(a: int, b: int): (q: int)
    requires b > 0
    ensures (q - 1) * b < a <= q * b
  {
    var f := (-a) / b;
    assert -a == f * b + (-a) % b;
    -f
  }

  /** Sampling by `k` brings a `bw` x `bh` source within a `w` x `h` viewport. */
  predicate Fits(k: int, bw: int, bh: int, w: int, h: int) {
    k * w >= bw && k * h >= bh
  }

  /**
   * The factor itself. It stays 1 unless the source is at least as large as the
   * viewport in one dimension; otherwise it is the larger of the two rounded-up
   * ratios. The contract says what that choice means: it is at least 1 (never
   * upsample), it makes the source fit, and no smaller positive factor does.
   */
  function SampleSize(bw: int, bh: int, w: int, h: int): (r: int)
    requires w > 0 && h > 0
    ensures r >= 1
    ensures Fits(r, bw, bh, w, h)
    ensures forall k :: 1 <= k < r ==> !Fits(k, bw, bh, w, h)
    ensures bw < w && bh < h ==> r == 1
  {
    if bw >= w || bh >= h then
      var cw, ch := CeilDiv(bw, w), CeilDiv(bh, h);
      assert cw >= 1 || ch >= 1;
      var r := if cw >= ch then cw else ch;
      assert forall k :: 1 <= k < r ==> !Fits(k, bw, bh, w, h) by {
        forall k | 1 <= k < r ensures !Fits(k, bw, bh, w, h) {
          if cw >= ch {
            BelowCeilDoesNotFit(k, bw, w);
          } else {
            BelowCeilDoesNotFit(k, bh, h);
          }
        }
      }
      r
    else
      1
  }

  lemma BelowCeilDoesNotFit(k: int, a: int, b: int)
    requires b > 0 && k < CeilDiv(a, b)
    ensures k * b < a
  {
    var q := CeilDiv(a, b);
    assert k <= q - 1;
    assert k * b <= (q - 1) * b;
  }

  /** The factor for a decoded bound pair, with the viewport fallback applied first. */
  function DecodeSampleSize(bw: int, bh: int, measuredW: int, measuredH: int,
                            windowW: int, windowH: int): (r: int)
    requires windowW > 0 && windowH > 0
    ensures r == SampleSize(bw, bh, Viewport(measuredW, windowW), Viewport(measuredH, windowH))
    ensures measuredW > 0 && measuredH > 0 ==> r == SampleSize(bw, bh, measuredW, measuredH)
    ensures measuredW <= 0 && measuredH <= 0 ==> r == SampleSize(bw, bh, windowW, windowH)
  {
    SampleSize(bw, bh, Viewport(measuredW, windowW), Viewport(measuredH, windowH))
  }
}
