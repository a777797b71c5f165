/** The joint-angle helper: the angle at a vertex landmark between the rays to two
    other landmarks, normalised into [0, 360) degrees. */
module PoseUtils {
  import opened PoseModel

  /** The direction of the ray (dx, dy) in degrees, that is atan2(dy, dx) converted to
      degrees. Trigonometry is not part of this model, so callers supply it. */
  type Bearing = (real, real) -> real

  /** The range atan2 guarantees, converted to degrees: (-180, 180]. */
  ghost predicate IsBearing(bearing: Bearing)
  {
    forall dx: real, dy: real :: -180.0 < bearing(dx, dy) <= 180.0
  }

  /** Folds a raw angle difference into [0, 360): a negative angle gets 360 added. */
  function NormalizeDegrees(angle: real): real
  {
    if angle < 0.0 then angle + 360.0 else angle
  }

  /** Difference of the bearings of the rays vertex->third and vertex->first. */
  function RawVertexAngle(first: PoseLandmark, vertex: PoseLandmark, third: PoseLandmark, bearing: Bearing): real
  {
    bearing(third.x - vertex.x, third.y - vertex.y) - bearing(first.x - vertex.x, first.y - vertex.y)
  }

  /** The angle at landmark `t2` between the rays to `t1` and `t3`, or None when any of
      the three landmarks is missing. */
  function CalculateAngle(pose: Pose, t1: LandmarkType, t2: LandmarkType, t3: LandmarkType, bearing: Bearing): (r: Option<real>)
    ensures r.None? <==> GetPoseLandmark(pose, t1).None? || GetPoseLandmark(pose, t2).None? || GetPoseLandmark(pose, t3).None?
  {
    var l1 := GetPoseLandmark(pose, t1);
    var l2 := GetPoseLandmark(pose, t2);
    var l3 := GetPoseLandmark(pose, t3);
    if l1.None? || l2.None? || l3.None? then None
    else Some(NormalizeDegrees(RawVertexAngle(l1.value, l2.value, l3.value, bearing)))
  }

  /** With a genuine bearing every computed angle lies in [0, 360). */
  lemma CalculateAngleInRange(pose: Pose, t1: LandmarkType, t2: LandmarkType, t3: LandmarkType, bearing: Bearing)
    requires IsBearing(bearing)
    ensures CalculateAngle(pose, t1, t2, t3, bearing).Some? ==> 0.0 <= CalculateAngle(pose, t1, t2, t3, bearing).value < 360.0
  {
    var l1 := GetPoseLandmark(pose, t1);
    var l2 := GetPoseLandmark(pose, t2);
    var l3 := GetPoseLandmark(pose, t3);
    if l1.Some? && l2.Some? && l3.Some? {
      RawVertexAngleBounds(l1.value, l2.value, l3.value, bearing);
    }
  }

  /** Normalisation adds exactly 360 to a negative angle and keeps the others; any angle
      strictly between -360 and 360 lands in [0, 360) and keeps its value modulo 360. */
  lemma NormalizeDegreesRange(angle: real)
    requires -360.0 < angle < 360.0
    ensures 0.0 <= NormalizeDegrees(angle) < 360.0
    ensures NormalizeDegrees(angle) == angle || NormalizeDegrees(angle) == angle + 360.0
    ensures NormalizeDegrees(angle) == angle <==> angle >= 0.0
  {
  }

  /** Negating a difference strictly inside (-360, 360) gives the complementary
      normalised angle, or zero again when the difference is zero. */
  lemma NormalizeDegreesNegated(d: real)
    requires -360.0 < d < 360.0
    ensures ComplementaryAngles(NormalizeDegrees(d), NormalizeDegrees(-d))
  {
  }

  /** Swapping the two outer landmarks measures the same pair of rays from the other
      side: whenever one order yields an angle the other does too, and the two are
      complementary (summing to 360) or both zero. */
  lemma CalculateAngleSwapped(pose: Pose, t1: LandmarkType, t2: LandmarkType, t3: LandmarkType, bearing: Bearing)
    requires IsBearing(bearing)
    ensures CalculateAngle(pose, t1, t2, t3, bearing).Some? ==>
      CalculateAngle(pose, t3, t2, t1, bearing).Some? &&
      ComplementaryAngles(CalculateAngle(pose, t1, t2, t3, bearing).value, CalculateAngle(pose, t3, t2, t1, bearing).value)
  {
    var l1 := GetPoseLandmark(pose, t1);
    var l2 := GetPoseLandmark(pose, t2);
    var l3 := GetPoseLandmark(pose, t3);
    if l1.Some? && l2.Some? && l3.Some? {
      var forward := RawVertexAngle(l1.value, l2.value, l3.value, bearing);
      var backward := RawVertexAngle(l3.value, l2.value, l1.value, bearing);
      assert CalculateAngle(pose, t1, t2, t3, bearing) == Some(NormalizeDegrees(forward));
      assert CalculateAngle(pose, t3, t2, t1, bearing) == Some(NormalizeDegrees(backward));
      RawVertexAngleBounds(l1.value, l2.value, l3.value, bearing);
      NormalizeDegreesNegated(forward);
    }
  }

  /** Two normalised angles that measure the same pair of rays from opposite sides. */
  predicate ComplementaryAngles(a: real, b: real)
  {
    (a == 0.0 && b == 0.0) || a + b == 360.0
  }

  /** Under a genuine bearing the raw difference lies strictly inside (-360, 360), and
      swapping the outer landmarks negates it. */
  lemma RawVertexAngleBounds(first: PoseLandmark, vertex: PoseLandmark, third: PoseLandmark, bearing: Bearing)
    requires IsBearing(bearing)
    ensures -360.0 < RawVertexAngle(first, vertex, third, bearing) < 360.0
    ensures RawVertexAngle(third, vertex, first, bearing) == -RawVertexAngle(first, vertex, third, bearing)
  {
    var p := bearing(third.x - vertex.x, third.y - vertex.y);
    var q := bearing(first.x - vertex.x, first.y - vertex.y);
    assert -180.0 < p <= 180.0 && -180.0 < q <= 180.0;
  }

  /** Two poses that list the same landmarks at the same positions. */
  ghost predicate SamePositions(p: Pose, q: Pose)
  {
    |p.allPoseLandmarks| == |q.allPoseLandmarks| &&
    forall i :: 0 <= i < |p.allPoseLandmarks| ==>
      p.allPoseLandmarks[i].landmarkType == q.allPoseLandmarks[i].landmarkType &&
      p.allPoseLandmarks[i].x == q.allPoseLandmarks[i].x &&
      p.allPoseLandmarks[i].y == q.allPoseLandmarks[i].y
  }

  lemma {:induction false} FindLandmarkSamePositions(ls: seq<PoseLandmark>, ms: seq<PoseLandmark>, t: LandmarkType)
    requires |ls| == |ms|
    requires forall i :: 0 <= i < |ls| ==>
      ls[i].landmarkType == ms[i].landmarkType && ls[i].x == ms[i].x && ls[i].y == ms[i].y
    ensures FindLandmark(ls, t).Some? <==> FindLandmark(ms, t).Some?
    ensures FindLandmark(ls, t).Some? ==>
      FindLandmark(ls, t).value.x == FindLandmark(ms, t).value.x &&
      FindLandmark(ls, t).value.y == FindLandmark(ms, t).value.y
  {
    if |ls| > 0 && ls[0].landmarkType != t {
      FindLandmarkSamePositions(ls[1..], ms[1..], t);
    }
  }

  /** The angle depends only on where the landmarks are, never on their likelihoods. */
  lemma CalculateAngleIgnoresLikelihood(p: Pose, q: Pose, t1: LandmarkType, t2: LandmarkType, t3: LandmarkType, bearing: Bearing)
    requires SamePositions(p, q)
    ensures CalculateAngle(p, t1, t2, t3, bearing) == CalculateAngle(q, t1, t2, t3, bearing)
  {
    FindLandmarkSamePositions(p.allPoseLandmarks, q.allPoseLandmarks, t1);
    FindLandmarkSamePositions(p.allPoseLandmarks, q.allPoseLandmarks, t2);
    FindLandmarkSamePositions(p.allPoseLandmarks, q.allPoseLandmarks, t3);
  }

  /** The square root. It is not part of this model, so callers supply it; only its
      stated range matters here. */
  type SquareRoot = real -> real

  /** The stated range of the square root: non-negative on non-negative input, and
      zero at zero. */
  ghost predicate IsSquareRoot(sqrt: SquareRoot)
  {
    sqrt(0.0) == 0.0 && forall v: real :: v >= 0.0 ==> sqrt(v) >= 0.0
  }

  function SquaredDistance(x1: real, y1: real, x2: real, y2: real): real
  {
    (x2 - x1) * (x2 - x1) + (y2 - y1) * (y2 - y1)
  }

  /** Euclidean distance between (x1, y1) and (x2, y2). */
  function Distance(x1: real, y1: real, x2: real, y2: real, sqrt: SquareRoot): real
  {
    sqrt(SquaredDistance(x1, y1, x2, y2))
  }

  lemma SquareNonNegative(a: real)
    ensures a * a >= 0.0
  {
    if a < 0.0 {
      assert a * a == (-a) * (-a);
    }
  }

  lemma SquareOfNegation(a: real, b: real)
    ensures (b - a) * (b - a) == (a - b) * (a - b)
  {
    assert b - a == -(a - b);
  }

  /** The distance is non-negative, symmetric in its two points, and zero between a
      point and itself. */
  lemma DistanceProperties(x1: real, y1: real, x2: real, y2: real, sqrt: SquareRoot)
    requires IsSquareRoot(sqrt)
    ensures Distance(x1, y1, x2, y2, sqrt) >= 0.0
    ensures Distance(x1, y1, x2, y2, sqrt) == Distance(x2, y2, x1, y1, sqrt)
    ensures Distance(x1, y1, x1, y1, sqrt) == 0.0
  {
    SquareNonNegative(x2 - x1);
    SquareNonNegative(y2 - y1);
    SquareOfNegation(x1, x2);
    SquareOfNegation(y1, y2);
    assert SquaredDistance(x1, y1, x1, y1) == 0.0;
  }
}
