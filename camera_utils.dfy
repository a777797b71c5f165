/** Mapping a point from camera-image coordinates onto the preview view, following the
    preview's scale type: FIT_CENTER letterboxes the whole image inside the view,
    FILL_CENTER crops it so that it covers the view, and every other scale type falls
    back to the larger scale with no centring offset. */
module CameraUtils {

  /** The scale types of the camera preview view. */
  datatype ScaleType = FillStart | FillCenter | FillEnd | FitStart | FitCenter | FitEnd

  function MinReal(a: real, b: real): real { if a <= b then a else b }
  function MaxReal(a: real, b: real): real { if a >= b then a else b }

  /** The uniform scale factor the transform applies for `scaleType`. */
  function ScaleFor(sourceWidth: int, sourceHeight: int, destWidth: nat, destHeight: nat, scaleType: ScaleType): real
    requires sourceWidth > 0 && sourceHeight > 0
  {
    var scaleX := destWidth as real / sourceWidth as real;
    var scaleY := destHeight as real / sourceHeight as real;
    if scaleType == FitCenter then MinReal(scaleX, scaleY) else MaxReal(scaleX, scaleY)
  }

  /** The centring offset along one axis: half of what is left of the view once the
      scaled image is laid on it (negative when the scaled image overhangs). */
  function CenteringOffset(previewSize: nat, imageSize: int, scale: real): real
  {
    (previewSize as real - imageSize as real * scale) / 2.0
  }

  /** The transformed point: scale, then shift by the centring offsets under the two
      centre modes, or by nothing under any other mode. */
  function TransformCoordinates(sourceWidth: int, sourceHeight: int, destWidth: nat, destHeight: nat,
                                scaleType: ScaleType, x: real, y: real): (r: (real, real))
    requires sourceWidth > 0 && sourceHeight > 0
  {
    var scale := ScaleFor(sourceWidth, sourceHeight, destWidth, destHeight, scaleType);
    if scaleType == FitCenter || scaleType == FillCenter then
      (x * scale + CenteringOffset(destWidth, sourceWidth, scale),
       y * scale + CenteringOffset(destHeight, sourceHeight, scale))
    else
      (x * scale, y * scale)
  }

  /** Multiplying by a non-negative factor keeps the order. */
  lemma MulMonotone(c: real, a: real, b: real)
    requires c >= 0.0 && a <= b
    ensures c * a <= c * b
  {
    assert c * b - c * a == c * (b - a);
  }

  /** Scaling a size by the ratio target/size gives the target back. */
  lemma ScaleByRatio(size: int, target: nat)
    requires size > 0
    ensures size as real * (target as real / size as real) == target as real
  {
  }

  /** Under FIT_CENTER the scale is the smaller of the two axis ratios, so the scaled
      image fits inside the preview on both axes (and exactly fills one of them), and
      both centring offsets are non-negative. */
  lemma FitCenterFitsInside(sourceWidth: int, sourceHeight: int, destWidth: nat, destHeight: nat)
    requires sourceWidth > 0 && sourceHeight > 0
    ensures var s := ScaleFor(sourceWidth, sourceHeight, destWidth, destHeight, FitCenter);
      s >= 0.0 &&
      sourceWidth as real * s <= destWidth as real &&
      sourceHeight as real * s <= destHeight as real &&
      (sourceWidth as real * s == destWidth as real || sourceHeight as real * s == destHeight as real) &&
      CenteringOffset(destWidth, sourceWidth, s) >= 0.0 &&
      CenteringOffset(destHeight, sourceHeight, s) >= 0.0
  {
    var w, h := sourceWidth as real, sourceHeight as real;
    var sx, sy := destWidth as real / w, destHeight as real / h;
    var s := ScaleFor(sourceWidth, sourceHeight, destWidth, destHeight, FitCenter);
    assert s == MinReal(sx, sy);
    ScaleByRatio(sourceWidth, destWidth);
    ScaleByRatio(sourceHeight, destHeight);
    MulMonotone(w, s, sx);
    MulMonotone(h, s, sy);
  }

  /** Under FILL_CENTER the scale is the larger of the two axis ratios, so the scaled
      image covers the preview on both axes (and exactly fills one of them), and both
      centring offsets are non-positive. */
  lemma FillCenterCoversPreview(sourceWidth: int, sourceHeight: int, destWidth: nat, destHeight: nat)
    requires sourceWidth > 0 && sourceHeight > 0
    ensures var s := ScaleFor(sourceWidth, sourceHeight, destWidth, destHeight, FillCenter);
      s >= 0.0 &&
      sourceWidth as real * s >= destWidth as real &&
      sourceHeight as real * s >= destHeight as real &&
      (sourceWidth as real * s == destWidth as real || sourceHeight as real * s == destHeight as real) &&
      CenteringOffset(destWidth, sourceWidth, s) <= 0.0 &&
      CenteringOffset(destHeight, sourceHeight, s) <= 0.0
  {
    var w, h := sourceWidth as real, sourceHeight as real;
    var sx, sy := destWidth as real / w, destHeight as real / h;
    var s := ScaleFor(sourceWidth, sourceHeight, destWidth, destHeight, FillCenter);
    assert s == MaxReal(sx, sy);
    ScaleByRatio(sourceWidth, destWidth);
    ScaleByRatio(sourceHeight, destHeight);
    MulMonotone(w, sx, s);
    MulMonotone(h, sy, s);
  }

  /** Under either centre mode the centre of the image lands on the centre of the preview. */
  lemma CenterMapsToCenter(sourceWidth: int, sourceHeight: int, destWidth: nat, destHeight: nat, scaleType: ScaleType)
    requires sourceWidth > 0 && sourceHeight > 0
    requires scaleType == FitCenter || scaleType == FillCenter
    ensures TransformCoordinates(sourceWidth, sourceHeight, destWidth, destHeight, scaleType,
                                 sourceWidth as real / 2.0, sourceHeight as real / 2.0)
            == (destWidth as real / 2.0, destHeight as real / 2.0)
  {
    var s := ScaleFor(sourceWidth, sourceHeight, destWidth, destHeight, scaleType);
    HalfOfCentre(destWidth, sourceWidth, s);
    HalfOfCentre(destHeight, sourceHeight, s);
  }

  /** Along one axis, the scaled middle of the image plus the centring offset is the
      middle of the preview. */
  lemma HalfOfCentre(previewSize: nat, imageSize: int, scale: real)
    ensures (imageSize as real / 2.0) * scale + CenteringOffset(previewSize, imageSize, scale) == previewSize as real / 2.0
  {
    var m := imageSize as real * scale;
    assert (imageSize as real / 2.0) * scale == m / 2.0;
  }

  /** The ratio of two positive sizes is positive. */
  lemma RatioPositive(target: nat, size: int)
    requires target > 0 && size > 0
    ensures target as real / size as real > 0.0
  {
  }

  /** Every scale type scales displacements uniformly: moving a point by (dx, dy) in
      the image moves its image on the preview by (s * dx, s * dy), with the one scale
      `s` of that scale type on both axes, so shapes keep their aspect ratio and only
      the offset depends on the mode. */
  lemma TransformScalesUniformly(sourceWidth: int, sourceHeight: int, destWidth: nat, destHeight: nat,
                                 scaleType: ScaleType, x1: real, y1: real, x2: real, y2: real)
    requires sourceWidth > 0 && sourceHeight > 0
    ensures var s := ScaleFor(sourceWidth, sourceHeight, destWidth, destHeight, scaleType);
      var p := TransformCoordinates(sourceWidth, sourceHeight, destWidth, destHeight, scaleType, x1, y1);
      var q := TransformCoordinates(sourceWidth, sourceHeight, destWidth, destHeight, scaleType, x2, y2);
      q.0 - p.0 == s * (x2 - x1) && q.1 - p.1 == s * (y2 - y1)
  {
    var s := ScaleFor(sourceWidth, sourceHeight, destWidth, destHeight, scaleType);
    assert x2 * s - x1 * s == s * (x2 - x1);
    assert y2 * s - y1 * s == s * (y2 - y1);
  }

  /** With a non-empty preview every scale type maps points in the same order along
      both axes: the transform is strictly increasing in x and in y. */
  lemma TransformStrictlyIncreasing(sourceWidth: int, sourceHeight: int, destWidth: nat, destHeight: nat,
                                    scaleType: ScaleType, x1: real, y1: real, x2: real, y2: real)
    requires sourceWidth > 0 && sourceHeight > 0 && destWidth > 0 && destHeight > 0
    requires x1 < x2 && y1 < y2
    ensures TransformCoordinates(sourceWidth, sourceHeight, destWidth, destHeight, scaleType, x1, y1).0
          < TransformCoordinates(sourceWidth, sourceHeight, destWidth, destHeight, scaleType, x2, y2).0
    ensures TransformCoordinates(sourceWidth, sourceHeight, destWidth, destHeight, scaleType, x1, y1).1
          < TransformCoordinates(sourceWidth, sourceHeight, destWidth, destHeight, scaleType, x2, y2).1
  {
    ScalePositive(sourceWidth, sourceHeight, destWidth, destHeight, scaleType);
    TransformScalesUniformly(sourceWidth, sourceHeight, destWidth, destHeight, scaleType, x1, y1, x2, y2);
    var s := ScaleFor(sourceWidth, sourceHeight, destWidth, destHeight, scaleType);
    var p := TransformCoordinates(sourceWidth, sourceHeight, destWidth, destHeight, scaleType, x1, y1);
    var q := TransformCoordinates(sourceWidth, sourceHeight, destWidth, destHeight, scaleType, x2, y2);
    PositiveProduct(s, x2 - x1);
    PositiveProduct(s, y2 - y1);
    assert q.0 - p.0 == s * (x2 - x1) && q.1 - p.1 == s * (y2 - y1);
  }

  /** The product of two positive reals is positive. */
  lemma PositiveProduct(a: real, b: real)
    requires a > 0.0 && b > 0.0
    ensures a * b > 0.0
  {
    MulMonotone(a, 0.0, b);
    assert a * b != 0.0;
  }

  /** A non-empty preview gives a positive scale under every scale type. */
  lemma ScalePositive(sourceWidth: int, sourceHeight: int, destWidth: nat, destHeight: nat, scaleType: ScaleType)
    requires sourceWidth > 0 && sourceHeight > 0 && destWidth > 0 && destHeight > 0
    ensures ScaleFor(sourceWidth, sourceHeight, destWidth, destHeight, scaleType) > 0.0
  {
    RatioPositive(destWidth, sourceWidth);
    RatioPositive(destHeight, sourceHeight);
  }

  /** Any scale type other than the two centre modes uses the larger ratio and no
      offset, so the image origin stays at the preview origin. */
  lemma OtherScaleTypesKeepOrigin(sourceWidth: int, sourceHeight: int, destWidth: nat, destHeight: nat, scaleType: ScaleType)
    requires sourceWidth > 0 && sourceHeight > 0
    requires scaleType != FitCenter && scaleType != FillCenter
    ensures ScaleFor(sourceWidth, sourceHeight, destWidth, destHeight, scaleType)
            == ScaleFor(sourceWidth, sourceHeight, destWidth, destHeight, FillCenter)
    ensures TransformCoordinates(sourceWidth, sourceHeight, destWidth, destHeight, scaleType, 0.0, 0.0) == (0.0, 0.0)
  {
  }
}
