/** The per-frame analysis that every view-model repeats inline before its own state
    machine runs: the bounding extent of the confidently detected landmarks, its
    mapping onto the canvas (mirrored for the front camera), the short-circuiting
    check that every critical joint is confidently detected, the centred-and-sized
    test of the person's box, and the arm, hip and knee angles. */
module FrameAnalysis {
  import opened PoseModel
  import opened PoseUtils

  /** 2 to the power n, exactly. */
  function Pow2(n: nat): (r: real)
    ensures r >= 1.0
  {
    if n == 0 then 1.0 else 2.0 * Pow2(n - 1)
  }

  /** The largest finite single-precision float, (2^24 - 1) * 2^104. */
  const FloatMaxValue: real := (Pow2(24) - 1.0) * Pow2(104)

  /** The smallest POSITIVE single-precision float, 2^-149 (not the most negative one). */
  const FloatMinValue: real := 1.0 / Pow2(149)

  /** Running bounds of the landmark positions seen so far, and whether any landmark
      passed the likelihood threshold at all. */
  datatype Extent = Extent(minX: real, minY: real, maxX: real, maxY: real, found: bool)

  /** The bounds start from the largest float for the minima and from the smallest
      positive float for the maxima. */
  const InitialExtent: Extent := Extent(FloatMaxValue, FloatMaxValue, FloatMinValue, FloatMinValue, false)

  /** The likelihood a landmark needs to widen the person's box in the calibration and
      exercise screens. */
  const MinLikelihoodForBoundingBox: real := 0.3

  predicate Confident(l: PoseLandmark, threshold: real)
  {
    l.inFrameLikelihood >= threshold
  }

  /** One step of the bounding loop: a confident landmark widens the bounds. */
  function AddToExtent(e: Extent, l: PoseLandmark, threshold: real): Extent
  {
    if Confident(l, threshold) then
      Extent(Min(e.minX, l.x), Min(e.minY, l.y), Max(e.maxX, l.x), Max(e.maxY, l.y), true)
    else e
  }

  /** The bounds after the loop has visited every landmark of `ls` in order. */
  function ExtentOf(ls: seq<PoseLandmark>, threshold: real): Extent
  {
    if |ls| == 0 then InitialExtent
    else AddToExtent(ExtentOf(ls[..|ls| - 1], threshold), ls[|ls| - 1], threshold)
  }

  /** The bounding loop over the detector's landmark list. */
  method ComputeExtent(ls: seq<PoseLandmark>, threshold: real) returns (e: Extent)
    ensures e == ExtentOf(ls, threshold)
  {
    var minX, minY := FloatMaxValue, FloatMaxValue;
    var maxX, maxY := FloatMinValue, FloatMinValue;
    var anyDetected := false;
    var i := 0;
    while i < |ls|
      invariant 0 <= i <= |ls|
      invariant Extent(minX, minY, maxX, maxY, anyDetected) == ExtentOf(ls[..i], threshold)
    {
      var landmark := ls[i];
      if landmark.inFrameLikelihood >= threshold {
        minX := Min(minX, landmark.x);
        minY := Min(minY, landmark.y);
        maxX := Max(maxX, landmark.x);
        maxY := Max(maxY, landmark.y);
        anyDetected := true;
      }
      assert ls[..i + 1][..i] == ls[..i];
      i := i + 1;
    }
    assert ls[..i] == ls;
    e := Extent(minX, minY, maxX, maxY, anyDetected);
  }

  /** Some landmark was confident exactly when the extent reports one, and every
      confident landmark lies inside the extent. */
  lemma {:induction false} ExtentContainsConfident(ls: seq<PoseLandmark>, threshold: real)
    ensures ExtentOf(ls, threshold).found <==> exists i :: 0 <= i < |ls| && Confident(ls[i], threshold)
    ensures forall i :: 0 <= i < |ls| && Confident(ls[i], threshold) ==>
      ExtentOf(ls, threshold).minX <= ls[i].x <= ExtentOf(ls, threshold).maxX &&
      ExtentOf(ls, threshold).minY <= ls[i].y <= ExtentOf(ls, threshold).maxY
  {
    if |ls| > 0 {
      var init := ls[..|ls| - 1];
      ExtentContainsConfident(init, threshold);
      assert forall i :: 0 <= i < |init| ==> init[i] == ls[i];
    }
  }

  /** Each bound is either its starting value or the coordinate of some confident
      landmark. In particular, when every confident x is at most 0 the right edge
      stays at the smallest positive float instead of the largest x. */
  lemma {:induction false} ExtentAttained(ls: seq<PoseLandmark>, threshold: real)
    ensures var e := ExtentOf(ls, threshold);
      (e.minX == FloatMaxValue || exists i :: 0 <= i < |ls| && Confident(ls[i], threshold) && ls[i].x == e.minX) &&
      (e.minY == FloatMaxValue || exists i :: 0 <= i < |ls| && Confident(ls[i], threshold) && ls[i].y == e.minY) &&
      (e.maxX == FloatMinValue || exists i :: 0 <= i < |ls| && Confident(ls[i], threshold) && ls[i].x == e.maxX) &&
      (e.maxY == FloatMinValue || exists i :: 0 <= i < |ls| && Confident(ls[i], threshold) && ls[i].y == e.maxY)
  {
    if |ls| > 0 {
      var init := ls[..|ls| - 1];
      ExtentAttained(init, threshold);
      assert forall i :: 0 <= i < |init| ==> init[i] == ls[i];
    }
  }

  /** When some landmark was confident the extent is a proper interval on both axes. */
  lemma ExtentOrdered(ls: seq<PoseLandmark>, threshold: real)
    requires ExtentOf(ls, threshold).found
    ensures ExtentOf(ls, threshold).minX <= ExtentOf(ls, threshold).maxX
    ensures ExtentOf(ls, threshold).minY <= ExtentOf(ls, threshold).maxY
  {
    ExtentContainsConfident(ls, threshold);
    var i :| 0 <= i < |ls| && Confident(ls[i], threshold);
  }

  /** A joint counts when the detector reports it with at least the required likelihood. */
  predicate JointConfident(pose: Pose, t: LandmarkType, minLikelihood: real)
  {
    GetPoseLandmark(pose, t).Some? && GetPoseLandmark(pose, t).value.inFrameLikelihood >= minLikelihood
  }

  predicate AllJointsConfident(pose: Pose, joints: seq<LandmarkType>, minLikelihood: real)
  {
    forall k :: 0 <= k < |joints| ==> JointConfident(pose, joints[k], minLikelihood)
  }

  /** The critical-joint loop: it stops at the first joint that is missing or below
      the likelihood threshold. */
  method CheckJointsConfident(pose: Pose, joints: seq<LandmarkType>, minLikelihood: real) returns (allConfident: bool)
    ensures allConfident <==> AllJointsConfident(pose, joints, minLikelihood)
  {
    allConfident := true;
    var k := 0;
    while k < |joints|
      invariant 0 <= k <= |joints|
      invariant allConfident
      invariant forall j :: 0 <= j < k ==> JointConfident(pose, joints[j], minLikelihood)
    {
      var landmark := GetPoseLandmark(pose, joints[k]);
      if landmark.None? || landmark.value.inFrameLikelihood < minLikelihood {
        allConfident := false;
        break;
      }
      k := k + 1;
    }
  }

  /** The padding and size ratios a view-model demands of the person's box. */
  datatype ZoneConfig = ZoneConfig(
    paddingX: real, paddingY: real,
    minWidthRatio: real, maxWidthRatio: real,
    minHeightRatio: real, maxHeightRatio: real)

  /** The box exists, keeps the padding on all four sides and has a width and a
      height within the configured ratios of the canvas. */
  predicate IsCenteredAndSized(box: Option<Rect>, canvasWidth: real, canvasHeight: real, zone: ZoneConfig)
  {
    box.Some? &&
    box.value.left >= canvasWidth * zone.paddingX &&
    box.value.right <= canvasWidth * (1.0 - zone.paddingX) &&
    box.value.top >= canvasHeight * zone.paddingY &&
    box.value.bottom <= canvasHeight * (1.0 - zone.paddingY) &&
    box.value.Width() >= canvasWidth * zone.minWidthRatio &&
    box.value.Width() <= canvasWidth * zone.maxWidthRatio &&
    box.value.Height() >= canvasHeight * zone.minHeightRatio &&
    box.value.Height() <= canvasHeight * zone.maxHeightRatio
  }

  /** How the box is scaled onto the canvas: by the smaller ratio (the whole image is
      visible) or by the larger ratio (the image covers the canvas). */
  datatype BoxFit = ScaleToFit | ScaleToFill

  function BoxScale(fit: BoxFit, f: Frame): real
    requires f.WellSized()
  {
    var scaleX := f.canvasWidth / f.imageWidth as real;
    var scaleY := f.canvasHeight / f.imageHeight as real;
    if fit == ScaleToFit then Min(scaleX, scaleY) else Max(scaleX, scaleY)
  }

  /** The raw box before mirroring: the extent scaled by `s` and centred on the canvas. */
  function ScaledBox(e: Extent, s: real, f: Frame): Rect
  {
    var offsetX := (f.canvasWidth - f.imageWidth as real * s) / 2.0;
    var offsetY := (f.canvasHeight - f.imageHeight as real * s) / 2.0;
    Rect(e.minX * s + offsetX, e.minY * s + offsetY, e.maxX * s + offsetX, e.maxY * s + offsetY)
  }

  function UnmirroredBox(e: Extent, fit: BoxFit, f: Frame): Rect
    requires f.WellSized()
  {
    ScaledBox(e, BoxScale(fit, f), f)
  }

  /** Reflects a box about the vertical axis of a canvas of width `canvasWidth`. */
  function Mirror(r: Rect, canvasWidth: real): Rect
  {
    Rect(canvasWidth - r.right, r.top, canvasWidth - r.left, r.bottom)
  }

  /** The person's box on the canvas: absent when no landmark passed the threshold,
      mirrored horizontally for the front camera. */
  function DisplayBox(e: Extent, fit: BoxFit, f: Frame): Option<Rect>
    requires f.WellSized()
  {
    if !e.found then None
    else
      var raw := UnmirroredBox(e, fit, f);
      if f.lensFacing == Front then Some(Mirror(raw, f.canvasWidth)) else Some(raw)
  }

  /** The person's box of a frame with a pose, from the landmarks above the box threshold. */
  function PersonBox(pose: Pose, f: Frame, fit: BoxFit): Option<Rect>
    requires f.WellSized()
  {
    DisplayBox(ExtentOf(pose.allPoseLandmarks, MinLikelihoodForBoundingBox), fit, f)
  }

  /** What a screen demands for its green zone: how its box is scaled, which joints
      must be confidently detected and how the box must sit on the canvas. */
  datatype ZoneRules = ZoneRules(fit: BoxFit, joints: seq<LandmarkType>, minJointLikelihood: real, zone: ZoneConfig)

  /** Every critical joint confidently detected and the box centred and sized. */
  predicate InGreenZone(pose: Pose, f: Frame, rules: ZoneRules)
    requires f.WellSized()
  {
    AllJointsConfident(pose, rules.joints, rules.minJointLikelihood) &&
    IsCenteredAndSized(PersonBox(pose, f, rules.fit), f.canvasWidth, f.canvasHeight, rules.zone)
  }

  /** The box and green-zone part of a frame with a pose, as every callback computes
      it: the bounding loop, the box mapping, the critical-joint loop and the zone test. */
  method AnalyseFrame(pose: Pose, f: Frame, rules: ZoneRules) returns (personDisplayBoundingBox: Option<Rect>, isInGreenZone: bool)
    requires f.WellSized()
    ensures personDisplayBoundingBox == PersonBox(pose, f, rules.fit)
    ensures isInGreenZone == InGreenZone(pose, f, rules)
  {
    var extent := ComputeExtent(pose.allPoseLandmarks, MinLikelihoodForBoundingBox);
    personDisplayBoundingBox := DisplayBox(extent, rules.fit, f);
    var allCriticalJointsConfident := CheckJointsConfident(pose, rules.joints, rules.minJointLikelihood);
    var isPersonCenteredAndSized := IsCenteredAndSized(personDisplayBoundingBox, f.canvasWidth, f.canvasHeight, rules.zone);
    isInGreenZone := allCriticalJointsConfident && isPersonCenteredAndSized;
  }

  /** Mirroring keeps the box's width, height and vertical position, swaps the
      horizontal edges about the canvas, keeps a proper box proper, and undoes itself. */
  lemma MirrorProperties(r: Rect, canvasWidth: real)
    ensures Mirror(r, canvasWidth).Width() == r.Width()
    ensures Mirror(r, canvasWidth).Height() == r.Height()
    ensures Mirror(r, canvasWidth).left == canvasWidth - r.right
    ensures Mirror(r, canvasWidth).right == canvasWidth - r.left
    ensures r.left <= r.right ==> Mirror(r, canvasWidth).left <= Mirror(r, canvasWidth).right
    ensures Mirror(Mirror(r, canvasWidth), canvasWidth) == r
  {
  }

  /** An affine map with a non-negative factor keeps the order. */
  lemma AffineMonotone(a: real, b: real, c: real, offset: real)
    requires c >= 0.0 && a <= b
    ensures a * c + offset <= b * c + offset
  {
    assert b * c - a * c == (b - a) * c;
  }

  /** The scale of a well-sized frame is never negative. */
  lemma BoxScaleNonNegative(fit: BoxFit, f: Frame)
    requires f.WellSized()
    ensures BoxScale(fit, f) >= 0.0
  {
  }

  /** An extent that is a proper interval maps to a proper box under a non-negative scale. */
  lemma ScaledBoxProper(e: Extent, s: real, f: Frame)
    requires s >= 0.0
    requires e.minX <= e.maxX && e.minY <= e.maxY
    ensures ScaledBox(e, s, f).left <= ScaledBox(e, s, f).right
    ensures ScaledBox(e, s, f).top <= ScaledBox(e, s, f).bottom
  {
    AffineMonotone(e.minX, e.maxX, s, (f.canvasWidth - f.imageWidth as real * s) / 2.0);
    AffineMonotone(e.minY, e.maxY, s, (f.canvasHeight - f.imageHeight as real * s) / 2.0);
  }

  /** The box of a frame with a confident landmark is present and proper (left <= right
      and top <= bottom) for either lens, with the same width for both lenses. */
  lemma DisplayBoxProper(ls: seq<PoseLandmark>, threshold: real, fit: BoxFit, f: Frame)
    requires f.WellSized()
    requires ExtentOf(ls, threshold).found
    ensures DisplayBox(ExtentOf(ls, threshold), fit, f).Some?
    ensures DisplayBox(ExtentOf(ls, threshold), fit, f).value.left <= DisplayBox(ExtentOf(ls, threshold), fit, f).value.right
    ensures DisplayBox(ExtentOf(ls, threshold), fit, f).value.top <= DisplayBox(ExtentOf(ls, threshold), fit, f).value.bottom
    ensures DisplayBox(ExtentOf(ls, threshold), fit, f).value.Width() == UnmirroredBox(ExtentOf(ls, threshold), fit, f).Width()
  {
    var e := ExtentOf(ls, threshold);
    ExtentOrdered(ls, threshold);
    BoxScaleNonNegative(fit, f);
    ScaledBoxProper(e, BoxScale(fit, f), f);
    MirrorProperties(UnmirroredBox(e, fit, f), f.canvasWidth);
  }

  /** The angle between the vertical and the ray from the first landmark to the
      second, when both are present. The function is not part of this model, so
      callers supply it. */
  type VerticalAngle = (Pose, LandmarkType, LandmarkType) -> Option<real>

  /** The mean of the two arm angles when both are known, otherwise the one that is. */
  function AverageArmAngle(left: Option<real>, right: Option<real>): (r: Option<real>)
    ensures r.None? <==> left.None? && right.None?
    ensures left.Some? && right.Some? ==>
      Min(left.value, right.value) <= r.value <= Max(left.value, right.value) &&
      r.value - left.value == right.value - r.value
    ensures left.Some? && right.None? ==> r == left
    ensures left.None? && right.Some? ==> r == right
  {
    if left.Some? && right.Some? then Some((left.value + right.value) / 2.0)
    else if left.Some? then left
    else right
  }

  /** The arm angle of a pose: the shoulder-to-wrist angles of both arms, averaged. */
  function ArmAngle(pose: Pose, verticalAngle: VerticalAngle): Option<real>
  {
    AverageArmAngle(verticalAngle(pose, LeftShoulder, LeftWrist), verticalAngle(pose, RightShoulder, RightWrist))
  }

  /** Some landmark of the triple (a, b, c) is missing from the pose. */
  predicate TripleMissing(pose: Pose, a: LandmarkType, b: LandmarkType, c: LandmarkType)
  {
    GetPoseLandmark(pose, a).None? || GetPoseLandmark(pose, b).None? || GetPoseLandmark(pose, c).None?
  }

  /** The angle at the vertex of the left triple, or of the right triple when the
      left one cannot be measured. */
  function LeftOrRightAngle(pose: Pose, left: (LandmarkType, LandmarkType, LandmarkType),
                            right: (LandmarkType, LandmarkType, LandmarkType), bearing: Bearing): Option<real>
  {
    var l := CalculateAngle(pose, left.0, left.1, left.2, bearing);
    if l.Some? then l else CalculateAngle(pose, right.0, right.1, right.2, bearing)
  }

  /** The right side is used exactly when some landmark of the left triple is
      missing, and no angle comes out only when both triples miss a landmark. */
  lemma LeftOrRightFallback(pose: Pose, left: (LandmarkType, LandmarkType, LandmarkType),
                            right: (LandmarkType, LandmarkType, LandmarkType), bearing: Bearing)
    ensures LeftOrRightAngle(pose, left, right, bearing).None? <==>
      TripleMissing(pose, left.0, left.1, left.2) && TripleMissing(pose, right.0, right.1, right.2)
    ensures !TripleMissing(pose, left.0, left.1, left.2) ==>
      LeftOrRightAngle(pose, left, right, bearing) == CalculateAngle(pose, left.0, left.1, left.2, bearing)
    ensures TripleMissing(pose, left.0, left.1, left.2) ==>
      LeftOrRightAngle(pose, left, right, bearing) == CalculateAngle(pose, right.0, right.1, right.2, bearing)
  {
  }

  /** The hip angle: knee-hip-shoulder on the left side, else on the right. */
  function HipAngle(pose: Pose, bearing: Bearing): Option<real>
  {
    LeftOrRightAngle(pose, (LeftKnee, LeftHip, LeftShoulder), (RightKnee, RightHip, RightShoulder), bearing)
  }

  /** The knee angle: hip-knee-ankle on the left side, else on the right. */
  function KneeAngle(pose: Pose, bearing: Bearing): Option<real>
  {
    LeftOrRightAngle(pose, (LeftHip, LeftKnee, LeftAnkle), (RightHip, RightKnee, RightAnkle), bearing)
  }

  /** With a genuine bearing a measured side angle lies in [0, 360). */
  lemma LeftOrRightAngleInRange(pose: Pose, left: (LandmarkType, LandmarkType, LandmarkType),
                                right: (LandmarkType, LandmarkType, LandmarkType), bearing: Bearing)
    requires IsBearing(bearing)
    ensures LeftOrRightAngle(pose, left, right, bearing).Some? ==>
      0.0 <= LeftOrRightAngle(pose, left, right, bearing).value < 360.0
  {
    CalculateAngleInRange(pose, left.0, left.1, left.2, bearing);
    CalculateAngleInRange(pose, right.0, right.1, right.2, bearing);
  }
}
