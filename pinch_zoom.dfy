/**
 * Pinch-to-zoom on the camera view: the pinch offset `d` reported by the gesture library
 * becomes a display scale `1 + d/200`, clamped to [1, 3], and only on mobile devices.
 * Arithmetic is over the reals.
 */
module PinchZoom {

  const MinScale: real := 1.0
  const MaxScale: real := 3.0
  /** Pinch offset that adds 1 to the scale. */
  const OffsetPerUnit: real := 200.0

  function Min(a: real, b: real): real { if a <= b then a else b }
  function Max(a: real, b: real): real { if a >= b then a else b }

  /** `Math.max(minScale, Math.min(maxScale, x))`. */
  function Clamp(x: real): (r: real)
    ensures MinScale <= r <= MaxScale
    ensures MinScale <= x <= MaxScale ==> r == x
    ensures x < MinScale ==> r == MinScale
    ensures x > MaxScale ==> r == MaxScale
  {
    Max(MinScale, Min(MaxScale, x))
  }

  /** The scale set by a pinch with offset `d`. */
  function PinchScale(d: real): (s: real)
    ensures MinScale <= s <= MaxScale
    ensures d <= 0.0 ==> s == MinScale
    ensures 0.0 <= d <= 400.0 ==> s == 1.0 + d / 200.0
    ensures d >= 400.0 ==> s == MaxScale
  {
    Clamp(1.0 + d / OffsetPerUnit)
  }

  /** Clamping twice is clamping once. */
  lemma ClampIdempotent(x: real)
    ensures Clamp(Clamp(x)) == Clamp(x)
  {
  }

  /** A wider pinch never zooms out. */
  lemma PinchScaleMonotone(d1: real, d2: real)
    requires d1 <= d2
    ensures PinchScale(d1) <= PinchScale(d2)
  {
  }

  /** Every reachable scale `s` is produced by the offset `200 * (s - 1)`. */
  lemma PinchScaleReachesEveryScale(s: real)
    requires MinScale <= s <= MaxScale
    ensures PinchScale(OffsetPerUnit * (s - 1.0)) == s
  {
  }

  /**
   * With the pinch configured by `scaleBounds` from 1 to 3, the offset the gesture library
   * hands over is its own scale factor, between 1 and 3; the zoom it gives then stays within
   * half a percent of 1.
   */
  lemma PinchScaleForBoundedOffset(d: real)
    requires MinScale <= d <= MaxScale
    ensures 1.005 <= PinchScale(d) <= 1.015
  {
  }

  /** The zoom state of the camera view. */
  class CameraView {
    var scale: real

    ghost predicate Valid()
      reads this
    {
      MinScale <= scale <= MaxScale
    }

    constructor ()
      ensures Valid() && scale == 1.0
    {
      scale := 1.0;
    }

    /** The `onPinch` handler; `mobile` is the user-agent test. */
    method OnPinch(d: real, mobile: bool)
      requires Valid()
      modifies this
      ensures Valid()
      ensures mobile ==> scale == PinchScale(d)
      ensures !mobile ==> scale == old(scale)
    {
      if !mobile {
        return;
      }
      var newScale := 1.0 + d / OffsetPerUnit;
      newScale := Max(MinScale, Min(MaxScale, newScale));
      scale := newScale;
    }
  }
}
