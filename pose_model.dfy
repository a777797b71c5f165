/** Shared vocabulary of the pose pipeline: the pose detector's per-frame output,
    the two-valued boundary status, the bounding rectangle and the snapshot that
    every view-model publishes to its screen once per processed frame. */
module PoseModel {

  datatype Option<+T> = None | Some(value: T)

  /** The 33 body landmarks the pose detector reports. */
  datatype LandmarkType =
    | Nose
    | LeftEyeInner | LeftEye | LeftEyeOuter
    | RightEyeInner | RightEye | RightEyeOuter
    | LeftEar | RightEar
    | LeftMouth | RightMouth
    | LeftShoulder | RightShoulder
    | LeftElbow | RightElbow
    | LeftWrist | RightWrist
    | LeftPinky | RightPinky
    | LeftIndex | RightIndex
    | LeftThumb | RightThumb
    | LeftHip | RightHip
    | LeftKnee | RightKnee
    | LeftAnkle | RightAnkle
    | LeftHeel | RightHeel
    | LeftFootIndex | RightFootIndex

  /** One detected landmark: its position in image coordinates and the detector's
      confidence that it lies inside the frame. */
  datatype PoseLandmark = PoseLandmark(landmarkType: LandmarkType, x: real, y: real, inFrameLikelihood: real)

  /** A detected pose: its landmarks in the order the detector lists them. */
  datatype Pose = Pose(allPoseLandmarks: seq<PoseLandmark>)

  /** Looks up the first landmark of type `t` in `ls`. */
  function FindLandmark(ls: seq<PoseLandmark>, t: LandmarkType): Option<PoseLandmark>
  {
    if |ls| == 0 then None
    else if ls[0].landmarkType == t then Some(ls[0])
    else FindLandmark(ls[1..], t)
  }

  /** The lookup finds a landmark of the requested type that the list holds, and comes
      back empty exactly when the list holds none of that type. */
  lemma {:induction false} FindLandmarkSound(ls: seq<PoseLandmark>, t: LandmarkType)
    ensures FindLandmark(ls, t).Some? ==> FindLandmark(ls, t).value in ls && FindLandmark(ls, t).value.landmarkType == t
    ensures FindLandmark(ls, t).None? <==> forall l :: l in ls ==> l.landmarkType != t
  {
    if |ls| > 0 && ls[0].landmarkType != t {
      FindLandmarkSound(ls[1..], t);
      assert ls == [ls[0]] + ls[1..];
    }
  }

  /** The detector's lookup of a landmark by type; absent when the pose has none. */
  function GetPoseLandmark(pose: Pose, t: LandmarkType): Option<PoseLandmark>
  {
    FindLandmark(pose.allPoseLandmarks, t)
  }

  /** A frame carries a usable pose when the detector returned one with at least one landmark. */
  predicate PosePresent(detected: Option<Pose>)
  {
    detected.Some? && |detected.value.allPoseLandmarks| > 0
  }

  datatype BoundaryStatus = Green | Red

  datatype LensFacing = Front | Back

  /** An axis-aligned rectangle in canvas coordinates. */
  datatype Rect = Rect(left: real, top: real, right: real, bottom: real)
  {
    function Width(): real { right - left }
    function Height(): real { bottom - top }
  }

  /** The snapshot a view-model publishes to its screen after each frame. */
  datatype PoseUiState = PoseUiState(
    pose: Option<Pose>,
    imageWidth: int,
    imageHeight: int,
    jointAngles: map<string, Option<real>>,
    boundaryStatus: BoundaryStatus,
    personBoundingBox: Option<Rect>)

  const InitialPoseUiState: PoseUiState := PoseUiState(None, 0, 0, map[], Red, None)

  /** Everything one camera frame hands to a view-model: the detector's answer
      (None for "no pose" or a failed detection), the image size, the lens in use,
      the size of the canvas the box is mapped onto and the wall-clock time in ms. */
  datatype Frame = Frame(
    detected: Option<Pose>,
    imageWidth: int,
    imageHeight: int,
    lensFacing: LensFacing,
    canvasWidth: real,
    canvasHeight: real,
    now: int)
  {
    /** Camera images always have a positive size and a laid-out canvas never a negative one. */
    predicate WellSized() { imageWidth > 0 && imageHeight > 0 && canvasWidth >= 0.0 && canvasHeight >= 0.0 }
  }

  function Min(a: real, b: real): real { if a <= b then a else b }
  function Max(a: real, b: real): real { if a >= b then a else b }
  function Abs(a: real): real { if a < 0.0 then -a else a }
}
