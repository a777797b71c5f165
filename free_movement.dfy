/** The free-movement tracking view-model: no calibration and no counting. A frame
    with the whole body confidently visible latches the green zone; from then on
    only the lower body has to stay visible, and on every such frame the view-model
    publishes eight joint angles, each exponentially smoothed with the previous
    value published under the same name. */
module FreeMovement {
  import opened PoseModel
  import opened PoseUtils
  import opened FrameAnalysis

  /** Every landmark except the mouth, inner and outer eye corners and the hand
      landmarks: 21 joints. */
  const CriticalInitialJoints: seq<LandmarkType> :=
    [Nose, LeftEye, RightEye, LeftEar, RightEar, LeftShoulder, RightShoulder, LeftElbow, RightElbow,
     LeftWrist, RightWrist, LeftHip, RightHip, LeftKnee, RightKnee, LeftAnkle, RightAnkle,
     LeftHeel, RightHeel, LeftFootIndex, RightFootIndex]

  /** Hips, knees and ankles. */
  const CriticalLowerJoints: seq<LandmarkType> := [LeftHip, RightHip, LeftKnee, RightKnee, LeftAnkle, RightAnkle]

  const MinInitialFullBodyLikelihood: real := 0.85
  const MinOngoingLowerBodyLikelihood: real := 0.2
  const SmoothingFactor: real := 0.3

  /** A tracked joint: the name it is published under and the landmark triple whose
      middle landmark is the vertex of the angle. */
  datatype TrackedJoint = TrackedJoint(name: string, first: LandmarkType, vertex: LandmarkType, third: LandmarkType)

  const JointsToTrack: seq<TrackedJoint> := [
    TrackedJoint("Left Elbow", LeftShoulder, LeftElbow, LeftWrist),
    TrackedJoint("Right Elbow", RightShoulder, RightElbow, RightWrist),
    TrackedJoint("Left Shoulder", LeftElbow, LeftShoulder, LeftHip),
    TrackedJoint("Right Shoulder", RightElbow, RightShoulder, RightHip),
    TrackedJoint("Left Knee", LeftHip, LeftKnee, LeftAnkle),
    TrackedJoint("Right Knee", RightHip, RightKnee, RightAnkle),
    TrackedJoint("Left Hip", LeftKnee, LeftHip, LeftShoulder),
    TrackedJoint("Right Hip", RightKnee, RightHip, RightShoulder)]

  function Names(joints: seq<TrackedJoint>): seq<string>
  {
    seq(|joints|, i requires 0 <= i < |joints| => joints[i].name)
  }

  const TrackedNames: seq<string> := Names(JointsToTrack)

  predicate Distinct(names: seq<string>)
  {
    forall i, j :: 0 <= i < j < |names| ==> names[i] != names[j]
  }

  /** The eight tracked names are pairwise different, so every joint gets its own entry. */
  lemma TrackedNamesDistinct()
    ensures |TrackedNames| == 8
    ensures Distinct(TrackedNames)
  {
    var n := TrackedNames;
    assert n == ["Left Elbow", "Right Elbow", "Left Shoulder", "Right Shoulder", "Left Knee", "Right Knee", "Left Hip", "Right Hip"];
    assert n[0][0] == 'L' && n[2][0] == 'L' && n[4][0] == 'L' && n[6][0] == 'L';
    assert n[1][0] == 'R' && n[3][0] == 'R' && n[5][0] == 'R' && n[7][0] == 'R';
    assert n[0][5] == 'E' && n[2][5] == 'S' && n[4][5] == 'K' && n[6][5] == 'H';
    assert n[1][6] == 'E' && n[3][6] == 'S' && n[5][6] == 'K' && n[7][6] == 'H';
  }

  /** Everything the view-model holds: the latch, the smoothed angle per name, the raw
      angles of the last frame that measured them, and the published snapshot. */
  datatype Tracking = Tracking(
    hasAchievedGreenZone: bool,
    smoothedAngles: map<string, real>,
    newRawAngles: map<string, Option<real>>,
    poseUiState: PoseUiState)

  const InitialTracking: Tracking := Tracking(false, map[], map[], InitialPoseUiState)

  function Lookup(m: map<string, real>, name: string): Option<real>
  {
    if name in m then Some(m[name]) else None
  }

  function RawAngleOf(raw: map<string, Option<real>>, name: string): Option<real>
  {
    if name in raw then raw[name] else None
  }

  /** One smoothing step: the first sample for a name is taken as it is, later ones
      are blended with the previous smoothed value. */
  function SmoothedSample(previous: Option<real>, rawAngle: real): real
  {
    if previous.None? then rawAngle else SmoothingFactor * rawAngle + (1.0 - SmoothingFactor) * previous.value
  }

  /** A smoothed value never overshoots: it lies between the previous value and the
      new sample, and a first sample is kept exactly. */
  lemma SmoothedSampleBetween(previous: Option<real>, rawAngle: real)
    ensures previous.None? ==> SmoothedSample(previous, rawAngle) == rawAngle
    ensures previous.Some? ==>
      Min(previous.value, rawAngle) <= SmoothedSample(previous, rawAngle) <= Max(previous.value, rawAngle)
    ensures previous.Some? ==>
      SmoothedSample(previous, rawAngle) - previous.value == SmoothingFactor * (rawAngle - previous.value)
  {
  }

  /** A tracked joint's angle, measured at its vertex. */
  function JointAngle(j: TrackedJoint, pose: Pose, bearing: Bearing): Option<real>
  {
    CalculateAngle(pose, j.first, j.vertex, j.third, bearing)
  }

  /** The raw angles of the tracked joints, entered in order (a later entry for the
      same name would replace an earlier one). */
  function RawAngles(joints: seq<TrackedJoint>, pose: Pose, bearing: Bearing): map<string, Option<real>>
    decreases |joints|
  {
    if |joints| == 0 then map[]
    else
      var j := joints[|joints| - 1];
      RawAngles(joints[..|joints| - 1], pose, bearing)[j.name := JointAngle(j, pose, bearing)]
  }

  /** With distinct names the raw map has exactly the tracked names as keys and holds
      each joint's own angle (absent when one of its landmarks is). */
  lemma {:induction false} RawAnglesContents(joints: seq<TrackedJoint>, pose: Pose, bearing: Bearing)
    requires Distinct(Names(joints))
    ensures forall k :: k in RawAngles(joints, pose, bearing) <==> k in Names(joints)
    ensures forall i :: 0 <= i < |joints| ==>
      RawAngleOf(RawAngles(joints, pose, bearing), joints[i].name) == JointAngle(joints[i], pose, bearing)
    decreases |joints|
  {
    if |joints| > 0 {
      var n := |joints| - 1;
      var prefix := joints[..n];
      var last := joints[n];
      assert Names(joints) == Names(prefix) + [last.name];
      assert Distinct(Names(prefix)) by {
        forall i, j | 0 <= i < j < n
          ensures Names(prefix)[i] != Names(prefix)[j]
        {
          assert Names(prefix)[i] == Names(joints)[i] && Names(prefix)[j] == Names(joints)[j];
        }
      }
      RawAnglesContents(prefix, pose, bearing);
      var p := RawAngles(prefix, pose, bearing);
      assert RawAngles(joints, pose, bearing) == p[last.name := JointAngle(last, pose, bearing)];
      forall i | 0 <= i < |joints|
        ensures RawAngleOf(RawAngles(joints, pose, bearing), joints[i].name) == JointAngle(joints[i], pose, bearing)
      {
        if i < n {
          assert Names(joints)[i] == joints[i].name && Names(joints)[n] == last.name;
          assert prefix[i] == joints[i];
        }
      }
    }
  }

  /** What the smoothing pass produces: the new smoothed map and the published angles. */
  datatype Smoothing = Smoothing(smoothed: map<string, real>, published: map<string, Option<real>>)

  /** The smoothing pass for one name. */
  function SmoothOne(acc: Smoothing, raw: map<string, Option<real>>, name: string): Smoothing
  {
    var rawAngle := RawAngleOf(raw, name);
    if rawAngle.Some? then
      var smoothed := SmoothedSample(Lookup(acc.smoothed, name), rawAngle.value);
      Smoothing(acc.smoothed[name := smoothed], acc.published[name := Some(smoothed)])
    else
      Smoothing(acc.smoothed, acc.published[name := None])
  }

  /** The smoothing pass over the names in order, starting from the stored smoothed map. */
  function SmoothNames(names: seq<string>, raw: map<string, Option<real>>, smoothed: map<string, real>): Smoothing
    decreases |names|
  {
    if |names| == 0 then Smoothing(smoothed, map[])
    else SmoothOne(SmoothNames(names[..|names| - 1], raw, smoothed), raw, names[|names| - 1])
  }

  /** The value published for `name`: the smoothed sample, or nothing when the raw
      angle is missing. */
  function SmoothedAngle(raw: map<string, Option<real>>, smoothed: map<string, real>, name: string): Option<real>
  {
    var rawAngle := RawAngleOf(raw, name);
    if rawAngle.Some? then Some(SmoothedSample(Lookup(smoothed, name), rawAngle.value)) else None
  }

  /** With distinct names, the pass publishes every name exactly once, each with its
      value computed from the smoothed map as it was before the pass; it stores every
      published value and leaves the stored value of every other name alone
      (including names whose raw angle is missing). */
  lemma {:induction false} SmoothNamesContents(names: seq<string>, raw: map<string, Option<real>>, smoothed: map<string, real>)
    requires Distinct(names)
    ensures SmoothNames(names, raw, smoothed).published.Keys == set k | k in names
    ensures forall k :: k in names ==> SmoothNames(names, raw, smoothed).published[k] == SmoothedAngle(raw, smoothed, k)
    ensures forall k :: k in names && RawAngleOf(raw, k).Some? ==>
      Lookup(SmoothNames(names, raw, smoothed).smoothed, k) == SmoothedAngle(raw, smoothed, k)
    ensures forall k :: !(k in names && RawAngleOf(raw, k).Some?) ==>
      Lookup(SmoothNames(names, raw, smoothed).smoothed, k) == Lookup(smoothed, k)
    decreases |names|
  {
    if |names| > 0 {
      var n := |names| - 1;
      var prefix := names[..n];
      var last := names[n];
      assert Distinct(prefix);
      SmoothNamesContents(prefix, raw, smoothed);
      assert last !in prefix;
      assert forall k :: k in names <==> k in prefix || k == last;
      var acc := SmoothNames(prefix, raw, smoothed);
      var r := SmoothNames(names, raw, smoothed);
      assert r == SmoothOne(acc, raw, last);
      assert Lookup(acc.smoothed, last) == Lookup(smoothed, last);
      if RawAngleOf(raw, last).Some? {
        var v := SmoothedSample(Lookup(smoothed, last), RawAngleOf(raw, last).value);
        assert SmoothedAngle(raw, smoothed, last) == Some(v);
        assert r == Smoothing(acc.smoothed[last := v], acc.published[last := Some(v)]);
      } else {
        assert r == Smoothing(acc.smoothed, acc.published[last := None]);
      }
    }
  }

  /** The lower body still counts as visible when every lower joint is detected with
      at least the (low) ongoing likelihood. */
  predicate LowerBodyVisible(pose: Pose)
  {
    AllJointsConfident(pose, CriticalLowerJoints, MinOngoingLowerBodyLikelihood)
  }

  predicate FullBodyVisible(pose: Pose)
  {
    AllJointsConfident(pose, CriticalInitialJoints, MinInitialFullBodyLikelihood)
  }

  /** The snapshot published after a frame: the pose only when GREEN, never a box. */
  function TrackingUiState(status: BoundaryStatus, f: Frame, jointAngles: map<string, Option<real>>): PoseUiState
  {
    PoseUiState(if status == Green then f.detected else None, f.imageWidth, f.imageHeight, jointAngles, status, None)
  }

  /** One processed camera frame. */
  function FrameStep(t: Tracking, f: Frame, bearing: Bearing): Tracking
  {
    if !PosePresent(f.detected) then
      t.(smoothedAngles := map[], newRawAngles := map[], poseUiState := TrackingUiState(Red, f, map[]))
    else
      var pose := f.detected.value;
      if !t.hasAchievedGreenZone then
        if FullBodyVisible(pose) then
          t.(hasAchievedGreenZone := true, newRawAngles := map[], poseUiState := TrackingUiState(Green, f, map[]))
        else
          t.(newRawAngles := map[], poseUiState := TrackingUiState(Red, f, map[]))
      else if LowerBodyVisible(pose) then
        var raw := RawAngles(JointsToTrack, pose, bearing);
        var s := SmoothNames(Names(JointsToTrack), raw, t.smoothedAngles);
        t.(smoothedAngles := s.smoothed, newRawAngles := raw, poseUiState := TrackingUiState(Green, f, s.published))
      else
        t.(smoothedAngles := map[], newRawAngles := map[], poseUiState := TrackingUiState(Red, f, map[]))
  }

  /** Resetting drops the latch, the smoothed angles and the published snapshot; the
      raw angles of the last frame stay until the next frame clears them. */
  function ResetTrackingStep(t: Tracking): Tracking
  {
    t.(hasAchievedGreenZone := false, smoothedAngles := map[], poseUiState := InitialPoseUiState)
  }

  /** What every reachable state satisfies: nothing is smoothed before the latch is
      set, only tracked names are ever stored or published, the pose is published
      exactly on GREEN frames, and the box is never published. */
  predicate TrackingInvariant(t: Tracking)
  {
    (!t.hasAchievedGreenZone ==> t.smoothedAngles == map[]) &&
    t.smoothedAngles.Keys <= (set k | k in TrackedNames) &&
    t.poseUiState.jointAngles.Keys <= (set k | k in TrackedNames) &&
    (t.poseUiState.pose.Some? <==> t.poseUiState.boundaryStatus == Green) &&
    t.poseUiState.personBoundingBox.None?
  }

  lemma InitialTrackingInvariant()
    ensures TrackingInvariant(InitialTracking)
  {
  }

  /** Every frame and every reset keeps the invariant. */
  lemma OperationsPreserveInvariant(t: Tracking, f: Frame, bearing: Bearing)
    requires TrackingInvariant(t)
    ensures TrackingInvariant(FrameStep(t, f, bearing))
    ensures TrackingInvariant(ResetTrackingStep(t))
  {
    if PosePresent(f.detected) && t.hasAchievedGreenZone && LowerBodyVisible(f.detected.value) {
      TrackedNamesDistinct();
      var raw := RawAngles(JointsToTrack, f.detected.value, bearing);
      SmoothNamesContents(TrackedNames, raw, t.smoothedAngles);
    }
  }

  /** Before the latch, a frame with a pose is GREEN and sets the latch exactly when
      the whole body is confidently visible; such a frame publishes no angles and
      smooths nothing. */
  lemma EntryRule(t: Tracking, f: Frame, bearing: Bearing)
    requires !t.hasAchievedGreenZone && PosePresent(f.detected)
    ensures var r := FrameStep(t, f, bearing);
      (r.poseUiState.boundaryStatus == Green <==> FullBodyVisible(f.detected.value)) &&
      (r.hasAchievedGreenZone <==> FullBodyVisible(f.detected.value)) &&
      r.poseUiState.jointAngles == map[] && r.smoothedAngles == t.smoothedAngles
  {
  }

  /** The latch is sticky: once set no frame clears it, only a reset does. After the
      latch a frame with a pose is GREEN exactly when the lower body is visible, so a
      frame that loses the lower body is RED and the next good frame is GREEN again
      without a new full-body check. */
  lemma OngoingRule(t: Tracking, f: Frame, bearing: Bearing)
    requires t.hasAchievedGreenZone
    ensures FrameStep(t, f, bearing).hasAchievedGreenZone
    ensures !ResetTrackingStep(t).hasAchievedGreenZone
    ensures PosePresent(f.detected) ==>
      (FrameStep(t, f, bearing).poseUiState.boundaryStatus == Green <==> LowerBodyVisible(f.detected.value))
  {
  }

  /** A frame without a pose, or a latched frame that loses the lower body, is RED,
      publishes no pose and no angles, and forgets every smoothed angle. */
  lemma LosingTrackClears(t: Tracking, f: Frame, bearing: Bearing)
    requires !PosePresent(f.detected) || (t.hasAchievedGreenZone && !LowerBodyVisible(f.detected.value))
    ensures var r := FrameStep(t, f, bearing);
      r.poseUiState.boundaryStatus == Red && r.poseUiState.pose.None? &&
      r.poseUiState.jointAngles == map[] && r.smoothedAngles == map[] &&
      r.hasAchievedGreenZone == t.hasAchievedGreenZone
  {
  }

  /** On a latched GREEN frame the published angles have exactly the eight tracked
      names as keys. For each name: a missing raw angle publishes nothing and keeps
      the stored value; a first sample is published and stored as it is; a later
      sample publishes and stores a value between the stored one and the sample. */
  lemma TrackedFrame(t: Tracking, f: Frame, bearing: Bearing, name: string)
    requires t.hasAchievedGreenZone && PosePresent(f.detected) && LowerBodyVisible(f.detected.value)
    requires name in TrackedNames
    ensures var r := FrameStep(t, f, bearing);
      var rawAngle := RawAngleOf(RawAngles(JointsToTrack, f.detected.value, bearing), name);
      var previous := Lookup(t.smoothedAngles, name);
      r.poseUiState.jointAngles.Keys == (set k | k in TrackedNames) &&
      (rawAngle.None? ==> r.poseUiState.jointAngles[name].None? && Lookup(r.smoothedAngles, name) == previous) &&
      (rawAngle.Some? && previous.None? ==>
        r.poseUiState.jointAngles[name] == rawAngle && Lookup(r.smoothedAngles, name) == rawAngle) &&
      (rawAngle.Some? && previous.Some? ==>
        r.poseUiState.jointAngles[name] == Lookup(r.smoothedAngles, name) && Lookup(r.smoothedAngles, name).Some? &&
        Min(previous.value, rawAngle.value) <= Lookup(r.smoothedAngles, name).value <= Max(previous.value, rawAngle.value))
  {
    TrackedNamesDistinct();
    var raw := RawAngles(JointsToTrack, f.detected.value, bearing);
    SmoothNamesContents(TrackedNames, raw, t.smoothedAngles);
    if RawAngleOf(raw, name).Some? {
      SmoothedSampleBetween(Lookup(t.smoothedAngles, name), RawAngleOf(raw, name).value);
    }
  }

  /** The raw angle a latched GREEN frame smooths for a tracked joint is that joint's
      own angle, measured at its vertex. */
  lemma TrackedRawAngle(pose: Pose, bearing: Bearing, i: int)
    requires 0 <= i < |JointsToTrack|
    ensures RawAngleOf(RawAngles(JointsToTrack, pose, bearing), JointsToTrack[i].name) ==
      CalculateAngle(pose, JointsToTrack[i].first, JointsToTrack[i].vertex, JointsToTrack[i].third, bearing)
  {
    TrackedNamesDistinct();
    RawAnglesContents(JointsToTrack, pose, bearing);
  }

  class FreeMovementViewModel {
    var smoothedAnglesMap: map<string, real>
    var poseUiState: PoseUiState
    var hasAchievedGreenZone: bool
    var newRawAngles: map<string, Option<real>>

    function Snapshot(): Tracking
      reads this
    {
      Tracking(hasAchievedGreenZone, smoothedAnglesMap, newRawAngles, poseUiState)
    }

    ghost predicate Valid()
      reads this
    {
      TrackingInvariant(Snapshot())
    }

    constructor ()
      ensures Snapshot() == InitialTracking && Valid()
    {
      smoothedAnglesMap := map[];
      poseUiState := InitialPoseUiState;
      hasAchievedGreenZone := false;
      newRawAngles := map[];
    }

    /** The raw angle of every tracked joint, entered into `newRawAngles` in order. */
    method ComputeRawAngles(pose: Pose, bearing: Bearing)
      requires newRawAngles == map[]
      modifies this
      ensures newRawAngles == RawAngles(JointsToTrack, pose, bearing)
      ensures smoothedAnglesMap == old(smoothedAnglesMap) && poseUiState == old(poseUiState)
      ensures hasAchievedGreenZone == old(hasAchievedGreenZone)
    {
      var i := 0;
      while i < |JointsToTrack|
        invariant 0 <= i <= |JointsToTrack|
        invariant newRawAngles == RawAngles(JointsToTrack[..i], pose, bearing)
        invariant smoothedAnglesMap == old(smoothedAnglesMap) && poseUiState == old(poseUiState)
        invariant hasAchievedGreenZone == old(hasAchievedGreenZone)
      {
        var joint := JointsToTrack[i];
        assert JointsToTrack[..i + 1][..i] == JointsToTrack[..i];
        newRawAngles := newRawAngles[joint.name := JointAngle(joint, pose, bearing)];
        i := i + 1;
      }
      assert JointsToTrack[..i] == JointsToTrack;
    }

    /** The smoothing pass over the raw angles, in the order they were entered: it
        updates `smoothedAnglesMap` and returns the angles to publish. */
    method SmoothAngles() returns (currentJointAngles: map<string, Option<real>>)
      modifies this
      ensures Smoothing(smoothedAnglesMap, currentJointAngles) ==
        SmoothNames(TrackedNames, newRawAngles, old(smoothedAnglesMap))
      ensures newRawAngles == old(newRawAngles) && poseUiState == old(poseUiState)
      ensures hasAchievedGreenZone == old(hasAchievedGreenZone)
    {
      currentJointAngles := map[];
      var i := 0;
      while i < |TrackedNames|
        invariant 0 <= i <= |TrackedNames|
        invariant Smoothing(smoothedAnglesMap, currentJointAngles) ==
          SmoothNames(TrackedNames[..i], newRawAngles, old(smoothedAnglesMap))
        invariant newRawAngles == old(newRawAngles) && poseUiState == old(poseUiState)
        invariant hasAchievedGreenZone == old(hasAchievedGreenZone)
      {
        var jointName := TrackedNames[i];
        assert TrackedNames[..i + 1][..i] == TrackedNames[..i];
        var rawAngle := if jointName in newRawAngles then newRawAngles[jointName] else None;
        if rawAngle.Some? {
          var currentSmoothed := if jointName in smoothedAnglesMap then Some(smoothedAnglesMap[jointName]) else None;
          var smoothed: real;
          if currentSmoothed.None? {
            smoothed := rawAngle.value;
          } else {
            smoothed := SmoothingFactor * rawAngle.value + (1.0 - SmoothingFactor) * currentSmoothed.value;
          }
          smoothedAnglesMap := smoothedAnglesMap[jointName := smoothed];
          currentJointAngles := currentJointAngles[jointName := Some(smoothed)];
        } else {
          currentJointAngles := currentJointAngles[jointName := None];
        }
        i := i + 1;
      }
      assert TrackedNames[..i] == TrackedNames;
    }

    /** The detector callback for one camera frame. */
    method ProcessImageProxy(f: Frame, bearing: Bearing)
      requires Valid()
      modifies this
      ensures Snapshot() == FrameStep(old(Snapshot()), f, bearing)
      ensures Valid()
    {
      ghost var before := Snapshot();
      newRawAngles := map[];
      var currentBoundaryStatus := Red;
      var currentJointAngles: map<string, Option<real>> := map[];
      if f.detected.Some? && |f.detected.value.allPoseLandmarks| > 0 {
        var pose := f.detected.value;
        if !hasAchievedGreenZone {
          var allInitialJointsConfident := CheckJointsConfident(pose, CriticalInitialJoints, MinInitialFullBodyLikelihood);
          if allInitialJointsConfident {
            currentBoundaryStatus := Green;
            hasAchievedGreenZone := true;
          } else {
            currentBoundaryStatus := Red;
          }
        } else {
          var lowerBodyVisible := CheckJointsConfident(pose, CriticalLowerJoints, MinOngoingLowerBodyLikelihood);
          if lowerBodyVisible {
            currentBoundaryStatus := Green;
            ComputeRawAngles(pose, bearing);
            currentJointAngles := SmoothAngles();
          } else {
            currentBoundaryStatus := Red;
            smoothedAnglesMap := map[];
            currentJointAngles := map[];
          }
        }
      } else {
        currentBoundaryStatus := Red;
        smoothedAnglesMap := map[];
        currentJointAngles := map[];
      }
      poseUiState := TrackingUiState(currentBoundaryStatus, f, currentJointAngles);
      OperationsPreserveInvariant(before, f, bearing);
    }

    method ResetTracking()
      requires Valid()
      modifies this
      ensures Snapshot() == ResetTrackingStep(old(Snapshot()))
      ensures Valid()
    {
      hasAchievedGreenZone := false;
      smoothedAnglesMap := map[];
      poseUiState := InitialPoseUiState;
      OperationsPreserveInvariant(old(Snapshot()), Frame(None, 0, 0, Back, 0.0, 0.0, 0), (_, _) => 0.0);
    }
  }
}
