/** The sit-to-stand exercise view-model: while the exercise timer runs and the
    person stands in the green zone, it counts a repetition each time the hip angle,
    having dropped to the calibrated sitting angle or below, comes back up to the
    calibrated standing angle or above. */
module SitToStandExercise {
  import opened PoseModel
  import opened PoseUtils
  import opened FrameAnalysis
  import Runs
  import SitToStandCalibration

  datatype ExerciseStatus = Standing | Sitting

  /** Hips, knees, ankles, shoulders and the nose. */
  const CriticalExerciseJoints: seq<LandmarkType> :=
    [LeftHip, RightHip, LeftKnee, RightKnee, LeftAnkle, RightAnkle, LeftShoulder, RightShoulder, Nose]

  const ExerciseMinJointLikelihood: real := 0.60

  const ExerciseZone: ZoneConfig := ZoneConfig(0.20, 0.15, 0.08, 0.98, 0.25, 0.99)

  /** The exercise green zone; the box is scaled so that the whole image is visible. */
  const ExerciseZoneRules: ZoneRules := ZoneRules(ScaleToFit, CriticalExerciseJoints, ExerciseMinJointLikelihood, ExerciseZone)

  const PreparationSeconds: int := 3
  const ExerciseSeconds: int := 30

  predicate IsStanding(hipAngle: real, standingAngle: real)
  {
    hipAngle >= standingAngle
  }

  predicate IsSitting(hipAngle: real, sittingAngle: real)
  {
    hipAngle <= sittingAngle
  }

  /** Everything the view-model holds besides the two calibrated angles it was built with. */
  datatype Exercise = Exercise(
    repCount: int,
    exerciseStatus: ExerciseStatus,
    countdownTime: int,
    isTimerRunning: bool,
    preparationTime: int,
    poseUiState: PoseUiState)

  const InitialExercise: Exercise := Exercise(0, Standing, ExerciseSeconds, false, PreparationSeconds, InitialPoseUiState)

  /** The repetition machine on one counted frame with hip angle `hipAngle`. */
  function RepStep(e: Exercise, standingAngle: real, sittingAngle: real, hipAngle: real): Exercise
  {
    match e.exerciseStatus
    case Standing =>
      if IsSitting(hipAngle, sittingAngle) then e.(exerciseStatus := Sitting) else e
    case Sitting =>
      if IsStanding(hipAngle, standingAngle) then e.(repCount := e.repCount + 1, exerciseStatus := Standing) else e
  }

  /** The joint angles a frame with a pose publishes: each of "Hip" and "Knee" only
      when that angle came out. */
  function PublishedAngles(hipAngle: Option<real>, kneeAngle: Option<real>): map<string, Option<real>>
  {
    var withHip: map<string, Option<real>> := if hipAngle.Some? then map["Hip" := hipAngle] else map[];
    if kneeAngle.Some? then withHip["Knee" := kneeAngle] else withHip
  }

  /** A frame's repetitions are counted only when it is GREEN, the exercise timer runs
      and a hip angle came out. */
  predicate Counted(e: Exercise, green: bool, hipAngle: Option<real>)
  {
    green && e.isTimerRunning && hipAngle.Some?
  }

  /** One processed camera frame. The boundary status has no hysteresis: it is GREEN
      exactly on frames in the green zone. */
  function FrameStep(e: Exercise, standingAngle: real, sittingAngle: real, f: Frame, bearing: Bearing): Exercise
    requires f.WellSized()
  {
    if PosePresent(f.detected) then
      var pose := f.detected.value;
      var green := InGreenZone(pose, f, ExerciseZoneRules);
      var hipAngle := HipAngle(pose, bearing);
      var counted := if Counted(e, green, hipAngle) then RepStep(e, standingAngle, sittingAngle, hipAngle.value) else e;
      counted.(poseUiState := PoseUiState(f.detected, f.imageWidth, f.imageHeight, PublishedAngles(hipAngle, KneeAngle(pose, bearing)),
                                          if green then Green else Red, PersonBox(pose, f, ExerciseZoneRules.fit)))
    else
      e.(poseUiState := PoseUiState(f.detected, f.imageWidth, f.imageHeight, map[], Red, None))
  }

  function StartPreparationStep(e: Exercise): Exercise
  {
    e.(preparationTime := PreparationSeconds, isTimerRunning := false)
  }

  function StartExerciseStep(e: Exercise): Exercise
  {
    e.(isTimerRunning := true, countdownTime := ExerciseSeconds)
  }

  function DecrementPreparationStep(e: Exercise): Exercise
  {
    if e.preparationTime > 0 then e.(preparationTime := e.preparationTime - 1) else e
  }

  function DecrementCountdownStep(e: Exercise): Exercise
  {
    if e.countdownTime > 0 then e.(countdownTime := e.countdownTime - 1) else e.(isTimerRunning := false)
  }

  /** What every reachable state satisfies: no timer and no count is negative. */
  predicate ExerciseInvariant(e: Exercise)
  {
    e.repCount >= 0 && e.countdownTime >= 0 && e.preparationTime >= 0
  }

  lemma InitialExerciseInvariant()
    ensures ExerciseInvariant(InitialExercise)
  {
  }

  /** Every operation keeps the invariant. */
  lemma OperationsPreserveInvariant(e: Exercise, standingAngle: real, sittingAngle: real, f: Frame, bearing: Bearing)
    requires ExerciseInvariant(e)
    requires f.WellSized()
    ensures ExerciseInvariant(FrameStep(e, standingAngle, sittingAngle, f, bearing))
    ensures ExerciseInvariant(StartPreparationStep(e))
    ensures ExerciseInvariant(StartExerciseStep(e))
    ensures ExerciseInvariant(DecrementPreparationStep(e))
    ensures ExerciseInvariant(DecrementCountdownStep(e))
  {
  }

  /** Some hip angle counts as both standing and sitting exactly when the sitting
      angle is not below the standing angle; so with the calibration's acceptance
      rule (standing more than 10 degrees above sitting) the two never hold together. */
  lemma PositionsOverlapIff(standingAngle: real, sittingAngle: real)
    ensures (exists h :: IsStanding(h, standingAngle) && IsSitting(h, sittingAngle)) <==> standingAngle <= sittingAngle
  {
    if standingAngle <= sittingAngle {
      assert IsStanding(standingAngle, standingAngle) && IsSitting(standingAngle, sittingAngle);
    }
  }

  /** The angles of a completed sit-to-stand calibration never make a hip angle both
      standing and sitting. */
  lemma CalibratedPositionsExclusive(c: SitToStandCalibration.Calibration, hipAngle: real)
    requires SitToStandCalibration.CalibrationInvariant(c)
    requires SitToStandCalibration.CanStartExercise(c.calibrationState)
    ensures !(IsStanding(hipAngle, c.standingAngle) && IsSitting(hipAngle, c.sittingAngle))
  {
    SitToStandCalibration.StartExerciseNeedsSeparatedAngles(c);
    PositionsOverlapIff(c.standingAngle, c.sittingAngle);
  }

  /** The count only ever goes up, by exactly one, and only when a sitting person
      reaches the standing angle; that move returns the status to Standing. Sitting
      down only changes the status. */
  lemma RepCountOnlyOnStandUp(e: Exercise, standingAngle: real, sittingAngle: real, hipAngle: real)
    ensures var r := RepStep(e, standingAngle, sittingAngle, hipAngle);
      r.repCount == e.repCount + (if e.exerciseStatus == Sitting && IsStanding(hipAngle, standingAngle) then 1 else 0) &&
      (r.repCount != e.repCount ==> r.exerciseStatus == Standing) &&
      (e.exerciseStatus == Standing ==>
        r.repCount == e.repCount && (r.exerciseStatus == Sitting <==> IsSitting(hipAngle, sittingAngle)))
    ensures var r := RepStep(e, standingAngle, sittingAngle, hipAngle);
      r.countdownTime == e.countdownTime && r.isTimerRunning == e.isTimerRunning &&
      r.preparationTime == e.preparationTime && r.poseUiState == e.poseUiState
  {
  }

  /** Repetitions are counted only on frames that are GREEN while the timer runs and
      a hip angle comes out; every other frame leaves the count and the status as
      they were. */
  lemma FrameGating(e: Exercise, standingAngle: real, sittingAngle: real, f: Frame, bearing: Bearing)
    requires f.WellSized()
    ensures var r := FrameStep(e, standingAngle, sittingAngle, f, bearing);
      (r.repCount != e.repCount || r.exerciseStatus != e.exerciseStatus) ==>
        PosePresent(f.detected) && r.poseUiState.boundaryStatus == Green && e.isTimerRunning &&
        HipAngle(f.detected.value, bearing).Some?
    ensures var r := FrameStep(e, standingAngle, sittingAngle, f, bearing);
      r.countdownTime == e.countdownTime && r.isTimerRunning == e.isTimerRunning && r.preparationTime == e.preparationTime
  {
  }

  /** The published angles hold "Hip" and "Knee" exactly when those angles came out,
      with their values, and nothing else. */
  lemma PublishedAnglesContents(hipAngle: Option<real>, kneeAngle: Option<real>)
    ensures var m := PublishedAngles(hipAngle, kneeAngle);
      ("Hip" in m <==> hipAngle.Some?) && ("Knee" in m <==> kneeAngle.Some?) &&
      ("Hip" in m ==> m["Hip"] == hipAngle) && ("Knee" in m ==> m["Knee"] == kneeAngle) &&
      m.Keys <= {"Hip", "Knee"}
  {
  }

  /** What a frame publishes: the detector's pose as it came, GREEN exactly when the
      frame has a pose in the green zone, the hip and knee angles that came out, and no
      angle and no box for a frame without a pose. */
  lemma FramePublishes(e: Exercise, standingAngle: real, sittingAngle: real, f: Frame, bearing: Bearing)
    requires f.WellSized()
    ensures var u := FrameStep(e, standingAngle, sittingAngle, f, bearing).poseUiState;
      u.pose == f.detected && u.imageWidth == f.imageWidth && u.imageHeight == f.imageHeight &&
      (u.boundaryStatus == Green <==> PosePresent(f.detected) && InGreenZone(f.detected.value, f, ExerciseZoneRules)) &&
      (PosePresent(f.detected) ==>
        u.jointAngles == PublishedAngles(HipAngle(f.detected.value, bearing), KneeAngle(f.detected.value, bearing))) &&
      (!PosePresent(f.detected) ==> u.jointAngles == map[] && u.personBoundingBox.None?)
  {
  }

  /** Neither timer ever goes below zero; a running countdown counts down by one
      second per tick and the tick at zero stops the timer; starting the exercise
      touches neither the count nor the status. */
  lemma TimerTicks(e: Exercise)
    ensures e.preparationTime >= 0 ==> DecrementPreparationStep(e).preparationTime >= 0
    ensures e.countdownTime >= 0 ==> DecrementCountdownStep(e).countdownTime >= 0
    ensures e.preparationTime > 0 ==> DecrementPreparationStep(e).preparationTime == e.preparationTime - 1
    ensures e.countdownTime > 0 ==>
      DecrementCountdownStep(e).countdownTime == e.countdownTime - 1 &&
      DecrementCountdownStep(e).isTimerRunning == e.isTimerRunning
    ensures e.countdownTime <= 0 ==> !DecrementCountdownStep(e).isTimerRunning
    ensures StartExerciseStep(e).isTimerRunning && StartExerciseStep(e).countdownTime == 30 &&
      StartExerciseStep(e).repCount == e.repCount && StartExerciseStep(e).exerciseStatus == e.exerciseStatus
  {
  }

  /** Once the countdown has run out, the tick stops the timer and no later frame
      counts a repetition. */
  lemma NoCountAfterTimeUp(e: Exercise, standingAngle: real, sittingAngle: real, f: Frame, bearing: Bearing)
    requires f.WellSized()
    requires e.countdownTime == 0
    ensures FrameStep(DecrementCountdownStep(e), standingAngle, sittingAngle, f, bearing).repCount == e.repCount
  {
  }

  /** The machine run over the hip angles of consecutive counted frames. */
  function RunAngles(e: Exercise, standingAngle: real, sittingAngle: real, angles: seq<real>): Exercise
  {
    Runs.Run(RepMachine(standingAngle, sittingAngle), e, angles)
  }

  /** The repetition machine at fixed calibrated angles, as a step function of one
      frame's angle. */
  function RepMachine(standingAngle: real, sittingAngle: real): (Exercise, real) -> Exercise
  {
    (e: Exercise, angle: real) => RepStep(e, standingAngle, sittingAngle, angle)
  }
  /** The first frame of a run is one step of the repetition machine. */
  lemma RunAnglesFirst(e: Exercise, standingAngle: real, sittingAngle: real, angles: seq<real>)
    requires |angles| > 0
    ensures RunAngles(e, standingAngle, sittingAngle, angles) == RunAngles(RepStep(e, standingAngle, sittingAngle, angles[0]), standingAngle, sittingAngle, angles[1..])
  {
    assert RepMachine(standingAngle, sittingAngle)(e, angles[0]) == RepStep(e, standingAngle, sittingAngle, angles[0]);
  }



  /** From the initial Standing status, standing, sitting, standing again at the
      calibrated angles counts one repetition, and standing alone counts none; with
      calibrated angles the person ends up Standing. */
  lemma OneSitToStand(standingAngle: real, sittingAngle: real)
    ensures RunAngles(InitialExercise, standingAngle, sittingAngle, [standingAngle, sittingAngle, standingAngle]).repCount == 1
    ensures RunAngles(InitialExercise, standingAngle, sittingAngle, [standingAngle]).repCount == 0
    ensures standingAngle > sittingAngle ==>
      RunAngles(InitialExercise, standingAngle, sittingAngle, [standingAngle, sittingAngle, standingAngle]).exerciseStatus == Standing
  {
    var a := [standingAngle, sittingAngle, standingAngle];
    assert a[1..] == [sittingAngle, standingAngle] && a[1..][1..] == [standingAngle] && [standingAngle][1..] == [];
    var e1 := RepStep(InitialExercise, standingAngle, sittingAngle, standingAngle);
    var e2 := RepStep(e1, standingAngle, sittingAngle, sittingAngle);
    var e3 := RepStep(e2, standingAngle, sittingAngle, standingAngle);
    RunAnglesFirst(e2, standingAngle, sittingAngle, [standingAngle]);
    RunAnglesFirst(e1, standingAngle, sittingAngle, [sittingAngle, standingAngle]);
    RunAnglesFirst(InitialExercise, standingAngle, sittingAngle, a);
    RunAnglesFirst(InitialExercise, standingAngle, sittingAngle, [standingAngle]);
    assert RunAngles(e2, standingAngle, sittingAngle, [standingAngle]) == e3;
    assert RunAngles(e1, standingAngle, sittingAngle, [sittingAngle, standingAngle]) == e3;
    assert RunAngles(InitialExercise, standingAngle, sittingAngle, a) == e3;
  }

  /** `n` full sit-to-stands: sitting, then standing, at the calibrated angles. */
  function SitToStands(standingAngle: real, sittingAngle: real, n: nat): seq<real>
  {
    if n == 0 then [] else [sittingAngle, standingAngle] + SitToStands(standingAngle, sittingAngle, n - 1)
  }


  /** From Standing, `n` full sit-to-stands count exactly `n` repetitions and end
      Standing. */
  lemma {:induction false} SitToStandsCount(e: Exercise, standingAngle: real, sittingAngle: real, n: nat)
    requires e.exerciseStatus == Standing
    ensures RunAngles(e, standingAngle, sittingAngle, SitToStands(standingAngle, sittingAngle, n)).repCount == e.repCount + n
    ensures RunAngles(e, standingAngle, sittingAngle, SitToStands(standingAngle, sittingAngle, n)).exerciseStatus == Standing
    decreases n
  {
    if n > 0 {
      var down := RepStep(e, standingAngle, sittingAngle, sittingAngle);
      var once := RepStep(down, standingAngle, sittingAngle, standingAngle);
      assert [sittingAngle, standingAngle][1..] == [standingAngle] && [standingAngle][1..] == [];
      RunAnglesFirst(down, standingAngle, sittingAngle, [standingAngle]);
      RunAnglesFirst(e, standingAngle, sittingAngle, [sittingAngle, standingAngle]);
      assert RunAngles(down, standingAngle, sittingAngle, [standingAngle]) == once;
      assert RunAngles(e, standingAngle, sittingAngle, [sittingAngle, standingAngle]) == once;
      Runs.RunAppend(RepMachine(standingAngle, sittingAngle), e, [sittingAngle, standingAngle], SitToStands(standingAngle, sittingAngle, n - 1));
      SitToStandsCount(once, standingAngle, sittingAngle, n - 1);
    }
  }

  /** The count never goes down over any run of frames. */
  lemma {:induction false} RunNeverDecreases(e: Exercise, standingAngle: real, sittingAngle: real, angles: seq<real>)
    ensures RunAngles(e, standingAngle, sittingAngle, angles).repCount >= e.repCount
    decreases |angles|
  {
    if |angles| > 0 {
      RepCountOnlyOnStandUp(e, standingAngle, sittingAngle, angles[0]);
      RunNeverDecreases(RepStep(e, standingAngle, sittingAngle, angles[0]), standingAngle, sittingAngle, angles[1..]);
    }
  }


  /** With calibrated (exclusive) thresholds, staying at one hip angle counts at most
      one repetition, however many frames pass. */
  lemma {:induction false} HoldingStillCountsAtMostOne(e: Exercise, standingAngle: real, sittingAngle: real, hipAngle: real, n: nat)
    requires standingAngle > sittingAngle
    ensures RunAngles(e, standingAngle, sittingAngle, seq(n, _ => hipAngle)).repCount <= e.repCount + 1
  {
    if n > 0 {
      var r := RepStep(e, standingAngle, sittingAngle, hipAngle);
      RepCountOnlyOnStandUp(e, standingAngle, sittingAngle, hipAngle);
      PositionsOverlapIff(standingAngle, sittingAngle);
      assert RepStep(r, standingAngle, sittingAngle, hipAngle) == r;
      assert seq(n, _ => hipAngle)[1..] == seq(n - 1, _ => hipAngle);
      Runs.SettledRunStays(RepMachine(standingAngle, sittingAngle), r, hipAngle, n - 1);
    }
  }

  class SitToStandExerciseViewModel {
    const standingAngle: real
    const sittingAngle: real
    var poseUiState: PoseUiState
    var repCount: int
    var exerciseStatus: ExerciseStatus
    var countdownTime: int
    var isTimerRunning: bool
    var preparationTime: int

    function Snapshot(): Exercise
      reads this
    {
      Exercise(repCount, exerciseStatus, countdownTime, isTimerRunning, preparationTime, poseUiState)
    }

    ghost predicate Valid()
      reads this
    {
      ExerciseInvariant(Snapshot())
    }

    constructor (standingAngle: real, sittingAngle: real)
      ensures this.standingAngle == standingAngle && this.sittingAngle == sittingAngle
      ensures Snapshot() == InitialExercise && Valid()
    {
      this.standingAngle := standingAngle;
      this.sittingAngle := sittingAngle;
      poseUiState := InitialPoseUiState;
      repCount := 0;
      exerciseStatus := Standing;
      countdownTime := ExerciseSeconds;
      isTimerRunning := false;
      preparationTime := PreparationSeconds;
    }

    method StartPreparationTimer()
      requires Valid()
      modifies this
      ensures Snapshot() == StartPreparationStep(old(Snapshot())) && Valid()
    {
      preparationTime := PreparationSeconds;
      isTimerRunning := false;
    }

    method StartExerciseTimer()
      requires Valid()
      modifies this
      ensures Snapshot() == StartExerciseStep(old(Snapshot())) && Valid()
    {
      isTimerRunning := true;
      countdownTime := ExerciseSeconds;
    }

    method DecrementPreparationTime()
      requires Valid()
      modifies this
      ensures Snapshot() == DecrementPreparationStep(old(Snapshot())) && Valid()
    {
      if preparationTime > 0 {
        preparationTime := preparationTime - 1;
      }
    }

    method DecrementCountdown()
      requires Valid()
      modifies this
      ensures Snapshot() == DecrementCountdownStep(old(Snapshot())) && Valid()
    {
      if countdownTime > 0 {
        countdownTime := countdownTime - 1;
      } else {
        isTimerRunning := false;
      }
    }

    /** The repetition machine on a counted frame. */
    method CountRepetition(hipAngle: real)
      modifies this
      ensures Snapshot() == RepStep(old(Snapshot()), standingAngle, sittingAngle, hipAngle)
    {
      var isStanding := hipAngle >= standingAngle;
      var isSitting := hipAngle <= sittingAngle;
      match exerciseStatus
      case Standing =>
        if isSitting {
          exerciseStatus := Sitting;
        }
      case Sitting =>
        if isStanding {
          repCount := repCount + 1;
          exerciseStatus := Standing;
        }
    }

    /** The detector callback for one camera frame. */
    method ProcessImageProxy(f: Frame, bearing: Bearing)
      requires Valid() && f.WellSized()
      modifies this
      ensures Snapshot() == FrameStep(old(Snapshot()), standingAngle, sittingAngle, f, bearing)
      ensures Valid()
    {
      ghost var before := Snapshot();
      var currentBoundaryStatus := Red;
      var personDisplayBoundingBox: Option<Rect> := None;
      var newAngles: map<string, Option<real>> := map[];
      if f.detected.Some? && |f.detected.value.allPoseLandmarks| > 0 {
        var pose := f.detected.value;
        var isInGreenZone;
        personDisplayBoundingBox, isInGreenZone := AnalyseFrame(pose, f, ExerciseZoneRules);
        if isInGreenZone {
          currentBoundaryStatus := Green;
        }
        var hipAngle := HipAngle(pose, bearing);
        var kneeAngle := KneeAngle(pose, bearing);
        if hipAngle.Some? {
          newAngles := newAngles["Hip" := hipAngle];
        }
        if kneeAngle.Some? {
          newAngles := newAngles["Knee" := kneeAngle];
        }
        if currentBoundaryStatus == Green && isTimerRunning {
          if hipAngle.Some? {
            CountRepetition(hipAngle.value);
          }
        }
      } else {
        currentBoundaryStatus := Red;
      }
      poseUiState := PoseUiState(f.detected, f.imageWidth, f.imageHeight, newAngles, currentBoundaryStatus, personDisplayBoundingBox);
      OperationsPreserveInvariant(before, standingAngle, sittingAngle, f, bearing);
    }
  }
}
