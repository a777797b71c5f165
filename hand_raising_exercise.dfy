/** The hand-raising exercise view-model: while the exercise timer runs and the
    person stands in the green zone, it counts a repetition each time the averaged
    arm angle goes from the hands-up zone back into the hands-down zone. Both zones
    are the calibrated angles widened by 20 degrees either way. */
module HandRaisingExercise {
  import opened PoseModel
  import opened FrameAnalysis
  import Runs
  import HandRaisingCalibration

  datatype HandRaisingExerciseStatus = ArmsDown | ArmsUp

  /** Where the repetition machine is: not started, arms seen down, arms seen up. */
  datatype RepState = RepIdle | RepArmsDown | RepArmsUp

  const ThresholdTolerance: real := 20.0

  /** Shoulders, wrists, hips and the nose. */
  const CriticalExerciseJoints: seq<LandmarkType> :=
    [LeftShoulder, RightShoulder, LeftWrist, RightWrist, LeftHip, RightHip, Nose]

  const ExerciseMinJointLikelihood: real := 0.60

  const ExerciseZone: ZoneConfig := ZoneConfig(0.20, 0.15, 0.08, 0.98, 0.25, 0.99)

  /** The exercise green zone; the box is scaled so that the image fills the canvas. */
  const ExerciseZoneRules: ZoneRules := ZoneRules(ScaleToFill, CriticalExerciseJoints, ExerciseMinJointLikelihood, ExerciseZone)

  const PreparationSeconds: int := 3
  const ExerciseSeconds: int := 30

  /** The closed zone around a calibrated angle. */
  predicate InZone(angle: real, calibratedAngle: real)
  {
    calibratedAngle - ThresholdTolerance <= angle <= calibratedAngle + ThresholdTolerance
  }

  /** Everything the view-model holds besides the two calibrated angles it was built with. */
  datatype Exercise = Exercise(
    repCount: int,
    exerciseStatus: HandRaisingExerciseStatus,
    countdownTime: int,
    isTimerRunning: bool,
    preparationTime: int,
    repState: RepState,
    poseUiState: PoseUiState)

  const InitialExercise: Exercise :=
    Exercise(0, ArmsDown, ExerciseSeconds, false, PreparationSeconds, RepIdle, InitialPoseUiState)

  /** The repetition machine on one counted frame with arm angle `angle`. */
  function RepStep(e: Exercise, handDownAngle: real, handUpAngle: real, angle: real): Exercise
  {
    match e.repState
    case RepArmsDown =>
      if InZone(angle, handUpAngle) then e.(repState := RepArmsUp, exerciseStatus := ArmsUp) else e
    case RepArmsUp =>
      if InZone(angle, handDownAngle) then
        e.(repCount := e.repCount + 1, repState := RepArmsDown, exerciseStatus := ArmsDown)
      else e
    case RepIdle =>
      if InZone(angle, handDownAngle) then e.(repState := RepArmsDown, exerciseStatus := ArmsDown) else e
  }

  /** A frame's repetitions are counted only when it is GREEN, the exercise timer runs
      and an arm angle came out. */
  predicate Counted(e: Exercise, green: bool, angle: Option<real>)
  {
    green && e.isTimerRunning && angle.Some?
  }

  /** One processed camera frame. The boundary status has no hysteresis: it is GREEN
      exactly on frames in the green zone. */
  function FrameStep(e: Exercise, handDownAngle: real, handUpAngle: real, f: Frame, verticalAngle: VerticalAngle): Exercise
    requires f.WellSized()
  {
    if PosePresent(f.detected) then
      var pose := f.detected.value;
      var green := InGreenZone(pose, f, ExerciseZoneRules);
      var angle := ArmAngle(pose, verticalAngle);
      var counted := if Counted(e, green, angle) then RepStep(e, handDownAngle, handUpAngle, angle.value) else e;
      counted.(poseUiState := PoseUiState(f.detected, f.imageWidth, f.imageHeight, map["Arm" := angle],
                                          if green then Green else Red, PersonBox(pose, f, ExerciseZoneRules.fit)))
    else
      e.(poseUiState := PoseUiState(f.detected, f.imageWidth, f.imageHeight, map[], Red, None))
  }

  function StartPreparationStep(e: Exercise): Exercise
  {
    e.(preparationTime := PreparationSeconds, isTimerRunning := false)
  }

  function StartExerciseStep(e: Exercise): Exercise
  {
    e.(isTimerRunning := true, countdownTime := ExerciseSeconds, repState := RepArmsDown)
  }

  function DecrementPreparationStep(e: Exercise): Exercise
  {
    if e.preparationTime > 0 then e.(preparationTime := e.preparationTime - 1) else e
  }

  function DecrementCountdownStep(e: Exercise): Exercise
  {
    if e.countdownTime > 0 then e.(countdownTime := e.countdownTime - 1) else e.(isTimerRunning := false)
  }

  /** What every reachable state satisfies: no timer and no count is negative, and
      the machine is only in the arms-up state while the status says so. */
  predicate ExerciseInvariant(e: Exercise)
  {
    e.repCount >= 0 && e.countdownTime >= 0 && e.preparationTime >= 0 &&
    (e.repState == RepArmsUp ==> e.exerciseStatus == ArmsUp)
  }

  lemma InitialExerciseInvariant()
    ensures ExerciseInvariant(InitialExercise)
  {
  }

  /** Every operation keeps the invariant. */
  lemma OperationsPreserveInvariant(e: Exercise, handDownAngle: real, handUpAngle: real, f: Frame, verticalAngle: VerticalAngle)
    requires ExerciseInvariant(e)
    requires f.WellSized()
    ensures ExerciseInvariant(FrameStep(e, handDownAngle, handUpAngle, f, verticalAngle))
    ensures ExerciseInvariant(StartPreparationStep(e))
    ensures ExerciseInvariant(StartExerciseStep(e))
    ensures ExerciseInvariant(DecrementPreparationStep(e))
    ensures ExerciseInvariant(DecrementCountdownStep(e))
  {
  }

  /** Two zones share an angle exactly when the calibrated angles are at most 40
      degrees apart; so the calibration's acceptance rule (more than 40 apart) is
      exactly what keeps the zones disjoint. */
  lemma ZonesOverlapIff(handDownAngle: real, handUpAngle: real)
    ensures (exists a :: InZone(a, handDownAngle) && InZone(a, handUpAngle)) <==>
      Abs(handDownAngle - handUpAngle) <= 2.0 * ThresholdTolerance
  {
    if Abs(handDownAngle - handUpAngle) <= 2.0 * ThresholdTolerance {
      var mid := (handDownAngle + handUpAngle) / 2.0;
      assert InZone(mid, handDownAngle) && InZone(mid, handUpAngle);
    }
  }

  /** The angles of a completed hand-raising calibration give disjoint zones. */
  lemma CalibratedZonesDisjoint(c: HandRaisingCalibration.Calibration, angle: real)
    requires HandRaisingCalibration.CalibrationInvariant(c)
    requires HandRaisingCalibration.CanStartExercise(c.calibrationState)
    ensures !(InZone(angle, c.handDownAngle) && InZone(angle, c.handUpAngle))
  {
    HandRaisingCalibration.StartExerciseNeedsSeparatedAngles(c);
    ZonesOverlapIff(c.handDownAngle, c.handUpAngle);
  }

  /** The count only ever goes up, by exactly one, and only when arms seen up come
      back into the hands-down zone; that move returns the machine to arms down. */
  lemma RepCountOnlyOnReturn(e: Exercise, handDownAngle: real, handUpAngle: real, angle: real)
    ensures var r := RepStep(e, handDownAngle, handUpAngle, angle);
      r.repCount == e.repCount + (if e.repState == RepArmsUp && InZone(angle, handDownAngle) then 1 else 0) &&
      (r.repCount != e.repCount ==> r.repState == RepArmsDown && r.exerciseStatus == ArmsDown)
  {
  }

  /** The machine moves up only from arms down and only into the hands-up zone; it
      leaves the idle state only for the hands-down zone (a hands-up angle there does
      nothing); and the step never touches the timers or the published frame. */
  lemma RepTransitions(e: Exercise, handDownAngle: real, handUpAngle: real, angle: real)
    ensures var r := RepStep(e, handDownAngle, handUpAngle, angle);
      (r.repState == RepArmsUp && e.repState != RepArmsUp <==> e.repState == RepArmsDown && InZone(angle, handUpAngle)) &&
      (e.repState == RepIdle ==> (r.repState != RepIdle <==> InZone(angle, handDownAngle))) &&
      (e.repState == RepIdle && InZone(angle, handUpAngle) && !InZone(angle, handDownAngle) ==> r == e) &&
      r.countdownTime == e.countdownTime && r.isTimerRunning == e.isTimerRunning &&
      r.preparationTime == e.preparationTime && r.poseUiState == e.poseUiState
  {
  }

  /** Repetitions are counted only on frames that are GREEN while the timer runs and
      an arm angle comes out; every other frame leaves the count, the status and the
      machine as they were (losing the person does not reset the machine). */
  lemma FrameGating(e: Exercise, handDownAngle: real, handUpAngle: real, f: Frame, verticalAngle: VerticalAngle)
    requires f.WellSized()
    ensures var r := FrameStep(e, handDownAngle, handUpAngle, f, verticalAngle);
      (r.repCount != e.repCount || r.repState != e.repState || r.exerciseStatus != e.exerciseStatus) ==>
        PosePresent(f.detected) && r.poseUiState.boundaryStatus == Green && e.isTimerRunning &&
        ArmAngle(f.detected.value, verticalAngle).Some?
    ensures var r := FrameStep(e, handDownAngle, handUpAngle, f, verticalAngle);
      r.countdownTime == e.countdownTime && r.isTimerRunning == e.isTimerRunning && r.preparationTime == e.preparationTime
  {
  }

  /** What a frame publishes: the detector's pose as it came, GREEN exactly when the
      frame has a pose in the green zone, the arm angle (possibly absent) under "Arm"
      on frames with a pose and no angle at all otherwise, and a box only for a pose. */
  lemma FramePublishes(e: Exercise, handDownAngle: real, handUpAngle: real, f: Frame, verticalAngle: VerticalAngle)
    requires f.WellSized()
    ensures var u := FrameStep(e, handDownAngle, handUpAngle, f, verticalAngle).poseUiState;
      u.pose == f.detected && u.imageWidth == f.imageWidth && u.imageHeight == f.imageHeight &&
      (u.boundaryStatus == Green <==> PosePresent(f.detected) && InGreenZone(f.detected.value, f, ExerciseZoneRules)) &&
      (PosePresent(f.detected) ==>
        u.jointAngles.Keys == {"Arm"} && u.jointAngles["Arm"] == ArmAngle(f.detected.value, verticalAngle)) &&
      (!PosePresent(f.detected) ==> u.jointAngles == map[] && u.personBoundingBox.None?)
  {
  }

  /** Neither timer ever goes below zero; a running countdown counts down by one
      second per tick, and the tick at zero stops the timer instead. */
  lemma TimerTicks(e: Exercise)
    ensures e.preparationTime >= 0 ==> DecrementPreparationStep(e).preparationTime >= 0
    ensures e.countdownTime >= 0 ==> DecrementCountdownStep(e).countdownTime >= 0
    ensures e.preparationTime > 0 ==> DecrementPreparationStep(e).preparationTime == e.preparationTime - 1
    ensures e.countdownTime > 0 ==>
      DecrementCountdownStep(e).countdownTime == e.countdownTime - 1 &&
      DecrementCountdownStep(e).isTimerRunning == e.isTimerRunning
    ensures e.countdownTime <= 0 ==> !DecrementCountdownStep(e).isTimerRunning
  {
  }

  /** Once the countdown has run out, the tick stops the timer and no later frame
      counts a repetition. */
  lemma NoCountAfterTimeUp(e: Exercise, handDownAngle: real, handUpAngle: real, f: Frame, verticalAngle: VerticalAngle)
    requires f.WellSized()
    requires e.countdownTime == 0
    ensures FrameStep(DecrementCountdownStep(e), handDownAngle, handUpAngle, f, verticalAngle).repCount == e.repCount
  {
  }

  /** Starting the exercise arms the machine in the arms-down state with a running
      30-second timer, without touching the count. */
  lemma StartExercise(e: Exercise)
    ensures var r := StartExerciseStep(e);
      r.isTimerRunning && r.countdownTime == 30 && r.repState == RepArmsDown && r.repCount == e.repCount
  {
  }

  /** The machine run over the arm angles of consecutive counted frames. */
  function RunAngles(e: Exercise, handDownAngle: real, handUpAngle: real, angles: seq<real>): Exercise
  {
    Runs.Run(RepMachine(handDownAngle, handUpAngle), e, angles)
  }

  /** The repetition machine at fixed calibrated angles, as a step function of one
      frame's angle. */
  function RepMachine(handDownAngle: real, handUpAngle: real): (Exercise, real) -> Exercise
  {
    (e: Exercise, angle: real) => RepStep(e, handDownAngle, handUpAngle, angle)
  }
  /** The first frame of a run is one step of the repetition machine. */
  lemma RunAnglesFirst(e: Exercise, handDownAngle: real, handUpAngle: real, angles: seq<real>)
    requires |angles| > 0
    ensures RunAngles(e, handDownAngle, handUpAngle, angles) == RunAngles(RepStep(e, handDownAngle, handUpAngle, angles[0]), handDownAngle, handUpAngle, angles[1..])
  {
    assert RepMachine(handDownAngle, handUpAngle)(e, angles[0]) == RepStep(e, handDownAngle, handUpAngle, angles[0]);
  }



  /** `n` full raises: hands up, then hands down, at the calibrated angles. */
  function Raises(handDownAngle: real, handUpAngle: real, n: nat): seq<real>
  {
    if n == 0 then [] else [handUpAngle, handDownAngle] + Raises(handDownAngle, handUpAngle, n - 1)
  }


  /** From arms down, `n` full raises count exactly `n` repetitions and end with the
      arms down again. */
  lemma {:induction false} RaisesCount(e: Exercise, handDownAngle: real, handUpAngle: real, n: nat)
    requires e.repState == RepArmsDown
    ensures RunAngles(e, handDownAngle, handUpAngle, Raises(handDownAngle, handUpAngle, n)).repCount == e.repCount + n
    ensures RunAngles(e, handDownAngle, handUpAngle, Raises(handDownAngle, handUpAngle, n)).repState == RepArmsDown
    decreases n
  {
    if n > 0 {
      var up := RepStep(e, handDownAngle, handUpAngle, handUpAngle);
      var once := RepStep(up, handDownAngle, handUpAngle, handDownAngle);
      assert [handUpAngle, handDownAngle][1..] == [handDownAngle] && [handDownAngle][1..] == [];
      RunAnglesFirst(up, handDownAngle, handUpAngle, [handDownAngle]);
      RunAnglesFirst(e, handDownAngle, handUpAngle, [handUpAngle, handDownAngle]);
      assert RunAngles(up, handDownAngle, handUpAngle, [handDownAngle]) == once;
      assert RunAngles(e, handDownAngle, handUpAngle, [handUpAngle, handDownAngle]) == once;
      Runs.RunAppend(RepMachine(handDownAngle, handUpAngle), e, [handUpAngle, handDownAngle], Raises(handDownAngle, handUpAngle, n - 1));
      RaisesCount(once, handDownAngle, handUpAngle, n - 1);
    }
  }

  /** The count never goes down over any run of frames. */
  lemma {:induction false} RunNeverDecreases(e: Exercise, handDownAngle: real, handUpAngle: real, angles: seq<real>)
    ensures RunAngles(e, handDownAngle, handUpAngle, angles).repCount >= e.repCount
    decreases |angles|
  {
    if |angles| > 0 {
      var next := RepStep(e, handDownAngle, handUpAngle, angles[0]);
      RepCountOnlyOnReturn(e, handDownAngle, handUpAngle, angles[0]);
      RunNeverDecreases(next, handDownAngle, handUpAngle, angles[1..]);
    }
  }

  /** With disjoint zones one frame's angle settles the machine: seeing the same angle
      again changes nothing. */
  lemma RepStepSettles(e: Exercise, handDownAngle: real, handUpAngle: real, angle: real)
    requires Abs(handDownAngle - handUpAngle) > 2.0 * ThresholdTolerance
    ensures var r := RepStep(e, handDownAngle, handUpAngle, angle);
      RepStep(r, handDownAngle, handUpAngle, angle) == r
  {
    ZonesOverlapIff(handDownAngle, handUpAngle);
  }

  /** With calibrated (disjoint) zones, holding the arms still counts at most one
      repetition, however many frames pass. */
  lemma {:induction false} HoldingStillCountsAtMostOne(e: Exercise, handDownAngle: real, handUpAngle: real, angle: real, n: nat)
    requires Abs(handDownAngle - handUpAngle) > 2.0 * ThresholdTolerance
    ensures RunAngles(e, handDownAngle, handUpAngle, seq(n, _ => angle)).repCount <= e.repCount + 1
  {
    if n > 0 {
      var r := RepStep(e, handDownAngle, handUpAngle, angle);
      RepCountOnlyOnReturn(e, handDownAngle, handUpAngle, angle);
      assert seq(n, _ => angle)[1..] == seq(n - 1, _ => angle);
      Runs.SettledRunStays(RepMachine(handDownAngle, handUpAngle), r, angle, n - 1);
    }
  }


  class HandRaisingExerciseViewModel {
    const handDownAngle: real
    const handUpAngle: real
    var poseUiState: PoseUiState
    var repCount: int
    var exerciseStatus: HandRaisingExerciseStatus
    var countdownTime: int
    var isTimerRunning: bool
    var preparationTime: int
    var repState: RepState

    function Snapshot(): Exercise
      reads this
    {
      Exercise(repCount, exerciseStatus, countdownTime, isTimerRunning, preparationTime, repState, poseUiState)
    }

    ghost predicate Valid()
      reads this
    {
      ExerciseInvariant(Snapshot())
    }

    constructor (handDownAngle: real, handUpAngle: real)
      ensures this.handDownAngle == handDownAngle && this.handUpAngle == handUpAngle
      ensures Snapshot() == InitialExercise && Valid()
    {
      this.handDownAngle := handDownAngle;
      this.handUpAngle := handUpAngle;
      poseUiState := InitialPoseUiState;
      repCount := 0;
      exerciseStatus := ArmsDown;
      countdownTime := ExerciseSeconds;
      isTimerRunning := false;
      preparationTime := PreparationSeconds;
      repState := RepIdle;
    }

    method StartPreparationTimer()
      requires Valid()
      modifies this
      ensures Snapshot() == StartPreparationStep(old(Snapshot())) && Valid()
    {
      preparationTime := PreparationSeconds;
      isTimerRunning := false;
    }

    method StartExerciseTimer()
      requires Valid()
      modifies this
      ensures Snapshot() == StartExerciseStep(old(Snapshot())) && Valid()
    {
      isTimerRunning := true;
      countdownTime := ExerciseSeconds;
      repState := RepArmsDown;
    }

    method DecrementPreparationTime()
      requires Valid()
      modifies this
      ensures Snapshot() == DecrementPreparationStep(old(Snapshot())) && Valid()
    {
      if preparationTime > 0 {
        preparationTime := preparationTime - 1;
      }
    }

    method DecrementCountdown()
      requires Valid()
      modifies this
      ensures Snapshot() == DecrementCountdownStep(old(Snapshot())) && Valid()
    {
      if countdownTime > 0 {
        countdownTime := countdownTime - 1;
      } else {
        isTimerRunning := false;
      }
    }

    /** The repetition machine on a counted frame. */
    method CountRepetition(averageArmAngle: real)
      modifies this
      ensures Snapshot() == RepStep(old(Snapshot()), handDownAngle, handUpAngle, averageArmAngle)
    {
      match repState
      case RepArmsDown =>
        if InZone(averageArmAngle, handUpAngle) {
          repState := RepArmsUp;
          exerciseStatus := ArmsUp;
        }
      case RepArmsUp =>
        if InZone(averageArmAngle, handDownAngle) {
          repCount := repCount + 1;
          repState := RepArmsDown;
          exerciseStatus := ArmsDown;
        }
      case RepIdle =>
        if InZone(averageArmAngle, handDownAngle) {
          repState := RepArmsDown;
          exerciseStatus := ArmsDown;
        }
    }

    /** The detector callback for one camera frame. */
    method ProcessImageProxy(f: Frame, verticalAngle: VerticalAngle)
      requires Valid() && f.WellSized()
      modifies this
      ensures Snapshot() == FrameStep(old(Snapshot()), handDownAngle, handUpAngle, f, verticalAngle)
      ensures Valid()
    {
      ghost var before := Snapshot();
      var currentBoundaryStatus := Red;
      var personDisplayBoundingBox: Option<Rect> := None;
      var newAngles: map<string, Option<real>> := map[];
      if f.detected.Some? && |f.detected.value.allPoseLandmarks| > 0 {
        var pose := f.detected.value;
        var isInGreenZone;
        personDisplayBoundingBox, isInGreenZone := AnalyseFrame(pose, f, ExerciseZoneRules);
        if isInGreenZone {
          currentBoundaryStatus := Green;
        }
        var averageArmAngle := ArmAngle(pose, verticalAngle);
        newAngles := newAngles["Arm" := averageArmAngle];
        if currentBoundaryStatus == Green && isTimerRunning {
          if averageArmAngle.Some? {
            CountRepetition(averageArmAngle.value);
          }
        }
      } else {
        currentBoundaryStatus := Red;
      }
      poseUiState := PoseUiState(f.detected, f.imageWidth, f.imageHeight, newAngles, currentBoundaryStatus, personDisplayBoundingBox);
      OperationsPreserveInvariant(before, handDownAngle, handUpAngle, f, verticalAngle);
    }
  }
}
