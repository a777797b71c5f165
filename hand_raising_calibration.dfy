/** The hand-raising calibration view-model: with the person held in the green zone
    for the full hold time it records the arm angle with the hands down, then with
    the hands up, and accepts the second only when the two differ by more than 40
    degrees. */
module HandRaisingCalibration {
  import opened PoseModel
  import opened FrameAnalysis
  import opened CalibrationHold

  datatype HandRaisingCalibrationStage = HandDown | HandUp

  datatype HandRaisingCalibrationState =
    | Idle
    | CalibratingHandDown(countdownSec: int)
    | CalibratingHandUp(countdownSec: int)
    | HandDownCalibrated
    | HandUpCalibrated
    | Failed(message: string)

  const MinCalibrationAngleDiff: real := 40.0

  /** Nose, shoulders, elbows, wrists and hips. */
  const CriticalInitialJoints: seq<LandmarkType> :=
    [Nose, LeftShoulder, RightShoulder, LeftElbow, RightElbow, LeftWrist, RightWrist, LeftHip, RightHip]

  const CalibrationMinJointLikelihood: real := 0.50

  const CalibrationZone: ZoneConfig := ZoneConfig(0.10, 0.10, 0.05, 0.98, 0.25, 0.99)

  /** The instructions the view-model shows; `InstructionText` gives their wording. */
  datatype Instruction =
    | MsgBegin | MsgInterrupted | MsgHandsDownHold | MsgHandsDownCalibrated | MsgHandsDownMissing
    | MsgHandsUpHold | MsgCalibrationComplete | MsgDifferenceTooSmall | MsgHandsUpMissing | MsgNoPerson

  function InstructionText(m: Instruction): string
  {
    match m
    case MsgBegin => "Press 'Calibrate Hands Down' to begin."
    case MsgInterrupted => "Calibration interrupted! Keep your body fully in frame and stable."
    case MsgHandsDownHold => "HANDS DOWN & STILL for calibration."
    case MsgHandsDownCalibrated => "Hands Down Calibrated! Now Calibrate Hands Up."
    case MsgHandsDownMissing => "Could not calculate arm angle for hands down. Please adjust position."
    case MsgHandsUpHold => "HANDS UP & STILL for calibration."
    case MsgCalibrationComplete => "Calibration Complete! Ready for Exercise."
    case MsgDifferenceTooSmall => "Hands Up calibration failed. Angle difference is too small. Ensure arms are fully raised."
    case MsgHandsUpMissing => "Could not calculate arm angle for hands up. Please adjust position."
    case MsgNoPerson => "No person detected. Ensure good lighting and move into the camera's view."
  }

  /** Everything the view-model holds: the calibration state and instruction it
      publishes, the two recorded angles, the hold fields and the published pose. */
  datatype Calibration = Calibration(
    calibrationState: HandRaisingCalibrationState,
    instructionMessage: Instruction,
    handDownAngle: real,
    handUpAngle: real,
    hold: Hold,
    poseUiState: PoseUiState)

  const InitialCalibration: Calibration := Calibration(Idle, MsgBegin, 0.0, 0.0, ClearedHold, InitialPoseUiState)

  predicate IsCalibrating(s: HandRaisingCalibrationState)
  {
    s.CalibratingHandDown? || s.CalibratingHandUp?
  }

  /** The calibration green zone; the box is scaled so that the image fills the canvas. */
  const GreenZoneRules: ZoneRules := ZoneRules(ScaleToFill, CriticalInitialJoints, CalibrationMinJointLikelihood, CalibrationZone)

  /** The capture part of a frame with a pose, after the hold fields were updated. */
  function CaptureStep(c: Calibration, now: int, armAngle: Option<real>): Calibration
  {
    match c.calibrationState
    case CalibratingHandDown(_) =>
      if !CaptureDue(c.hold, now) then c.(instructionMessage := MsgHandsDownHold)
      else if armAngle.Some? then
        c.(calibrationState := HandDownCalibrated, instructionMessage := MsgHandsDownCalibrated,
           handDownAngle := armAngle.value, hold := ClearedHold)
      else
        c.(calibrationState := Idle, instructionMessage := MsgHandsDownMissing, hold := ClearedHold)
    case CalibratingHandUp(_) =>
      if !CaptureDue(c.hold, now) then c.(instructionMessage := MsgHandsUpHold)
      else if armAngle.Some? then
        if Abs(c.handDownAngle - armAngle.value) > MinCalibrationAngleDiff then
          c.(calibrationState := HandUpCalibrated, instructionMessage := MsgCalibrationComplete,
             handUpAngle := armAngle.value, hold := ClearedHold)
        else
          c.(calibrationState := HandDownCalibrated, instructionMessage := MsgDifferenceTooSmall,
             handUpAngle := armAngle.value, hold := ClearedHold)
      else
        c.(calibrationState := HandDownCalibrated, instructionMessage := MsgHandsUpMissing, hold := ClearedHold)
    case _ => c
  }

  /** The hold part of a frame with a pose: the hysteresis, and the "interrupted"
      instruction when the grace period runs out during a calibration. */
  function HoldFrame(c: Calibration, inGreenZone: bool, now: int): Calibration
  {
    var o := HoldStep(c.hold, inGreenZone, now);
    c.(hold := o.hold,
       instructionMessage := if o.graceExpired && IsCalibrating(c.calibrationState) then MsgInterrupted else c.instructionMessage)
  }

  /** One processed camera frame. */
  function FrameStep(c: Calibration, f: Frame, verticalAngle: VerticalAngle): Calibration
    requires f.WellSized()
  {
    if PosePresent(f.detected) then
      var pose := f.detected.value;
      var inGreenZone := InGreenZone(pose, f, GreenZoneRules);
      var status := HoldStep(c.hold, inGreenZone, f.now).status;
      var captured := CaptureStep(HoldFrame(c, inGreenZone, f.now), f.now, ArmAngle(pose, verticalAngle));
      captured.(poseUiState := CalibrationUiState(status, f, PersonBox(pose, f, GreenZoneRules.fit)))
    else
      c.(hold := ClearedHold,
         instructionMessage := if IsCalibrating(c.calibrationState) then MsgNoPerson else c.instructionMessage,
         poseUiState := CalibrationUiState(Red, f, None))
  }

  /** Starting a stage shows a countdown of 2000 / 1000 = 2 seconds and drops any hold. */
  function StartCalibrationStep(c: Calibration, stage: HandRaisingCalibrationStage): Calibration
  {
    var seconds := CalibrationHoldTimeMs / 1000;
    c.(calibrationState := if stage == HandDown then CalibratingHandDown(seconds) else CalibratingHandUp(seconds),
       hold := ClearedHold)
  }

  function ResetCalibrationStep(c: Calibration): Calibration
  {
    c.(calibrationState := Idle, instructionMessage := MsgBegin, handDownAngle := 0.0, handUpAngle := 0.0,
       hold := ClearedHold)
  }

  function UpdateCountdownStep(c: Calibration, newCountdown: int): Calibration
  {
    match c.calibrationState
    case CalibratingHandDown(_) => c.(calibrationState := CalibratingHandDown(newCountdown))
    case CalibratingHandUp(_) => c.(calibrationState := CalibratingHandUp(newCountdown))
    case _ => c
  }

  /** The enabled guards of the screen's buttons. */
  predicate CanCalibrateHandsDown(s: HandRaisingCalibrationState)
  {
    s.Idle? || s.Failed? || s.HandDownCalibrated?
  }

  predicate CanCalibrateHandsUp(s: HandRaisingCalibrationState)
  {
    s.HandDownCalibrated?
  }

  predicate CanStartExercise(s: HandRaisingCalibrationState)
  {
    s.HandUpCalibrated?
  }

  /** What every reachable state satisfies: nothing ever enters Failed, a completed
      calibration has angles more than 40 degrees apart, timers are only set during a
      hold, and the "interrupted" instruction is never the one left published. */
  predicate CalibrationInvariant(c: Calibration)
  {
    !c.calibrationState.Failed? &&
    (c.calibrationState.HandUpCalibrated? ==> Abs(c.handDownAngle - c.handUpAngle) > MinCalibrationAngleDiff) &&
    HoldWellFormed(c.hold) &&
    c.instructionMessage != MsgInterrupted
  }

  lemma InitialCalibrationInvariant()
    ensures CalibrationInvariant(InitialCalibration)
  {
  }

  /** The invariant halfway through a frame, after the hysteresis: the "interrupted"
      instruction may be set, but only during a calibration. */
  predicate InvariantDuringFrame(c: Calibration)
  {
    CalibrationInvariant(c.(instructionMessage := MsgBegin)) &&
    (c.instructionMessage == MsgInterrupted ==> IsCalibrating(c.calibrationState))
  }

  /** The hysteresis part of a frame can only set the "interrupted" instruction
      during a calibration, and keeps the rest of the invariant. */
  lemma HoldFrameKeepsInvariant(c: Calibration, inGreenZone: bool, now: int)
    requires CalibrationInvariant(c)
    ensures InvariantDuringFrame(HoldFrame(c, inGreenZone, now))
  {
    HoldStepWellFormed(c.hold, inGreenZone, now);
  }

  /** A capture attempt restores the whole invariant, whatever angle the frame
      measured: during a calibration it always replaces the instruction. */
  lemma CaptureStepRestoresInvariant(c: Calibration, now: int, armAngle: Option<real>)
    requires InvariantDuringFrame(c)
    ensures CalibrationInvariant(CaptureStep(c, now, armAngle))
  {
  }

  /** Every processed frame keeps the invariant. */
  lemma FrameStepPreservesInvariant(c: Calibration, f: Frame, verticalAngle: VerticalAngle)
    requires CalibrationInvariant(c)
    requires f.WellSized()
    ensures CalibrationInvariant(FrameStep(c, f, verticalAngle))
  {
    if PosePresent(f.detected) {
      var pose := f.detected.value;
      var inGreenZone := InGreenZone(pose, f, GreenZoneRules);
      HoldFrameKeepsInvariant(c, inGreenZone, f.now);
      CaptureStepRestoresInvariant(HoldFrame(c, inGreenZone, f.now), f.now, ArmAngle(pose, verticalAngle));
    }
  }

  /** The button operations keep the invariant. */
  lemma ButtonsPreserveInvariant(c: Calibration, stage: HandRaisingCalibrationStage, newCountdown: int)
    requires CalibrationInvariant(c)
    ensures CalibrationInvariant(StartCalibrationStep(c, stage))
    ensures CalibrationInvariant(ResetCalibrationStep(c))
    ensures CalibrationInvariant(UpdateCountdownStep(c, newCountdown))
  {
  }

  /** The exercise can only be started with two recorded angles more than 40 degrees
      apart. */
  lemma StartExerciseNeedsSeparatedAngles(c: Calibration)
    requires CalibrationInvariant(c)
    requires CanStartExercise(c.calibrationState)
    ensures Abs(c.handDownAngle - c.handUpAngle) > 40.0
  {
  }

  /** Once the calibration is complete only the exercise button is enabled: a new
      hands-down or hands-up calibration first needs a reset. */
  lemma GuardsAfterCompletion(s: HandRaisingCalibrationState)
    requires CanStartExercise(s)
    ensures !CanCalibrateHandsDown(s) && !CanCalibrateHandsUp(s)
  {
  }

  /** A frame without a usable pose publishes RED with no pose and no box, drops the
      hold whatever it was, leaves the calibration state and both angles alone, and
      asks for the person only while calibrating. */
  lemma NoPoseFrame(c: Calibration, f: Frame, verticalAngle: VerticalAngle)
    requires f.WellSized()
    requires !PosePresent(f.detected)
    ensures var r := FrameStep(c, f, verticalAngle);
      r.poseUiState.boundaryStatus == Red && r.poseUiState.pose.None? && r.poseUiState.personBoundingBox.None? &&
      r.hold == ClearedHold &&
      r.calibrationState == c.calibrationState &&
      r.handDownAngle == c.handDownAngle && r.handUpAngle == c.handUpAngle &&
      r.instructionMessage == (if IsCalibrating(c.calibrationState) then MsgNoPerson else c.instructionMessage)
  {
  }

  /** Outside the two calibrating states a frame changes neither the state, the
      angles nor the instruction; only the hold and the published pose move. */
  lemma FramesOutsideCalibrationKeepState(c: Calibration, f: Frame, verticalAngle: VerticalAngle)
    requires f.WellSized()
    requires !IsCalibrating(c.calibrationState)
    ensures var r := FrameStep(c, f, verticalAngle);
      r.calibrationState == c.calibrationState && r.instructionMessage == c.instructionMessage &&
      r.handDownAngle == c.handDownAngle && r.handUpAngle == c.handUpAngle
  {
  }

  /** The state or an angle changes on a frame only by a capture: the frame has a
      pose, the hold (after this frame's hysteresis) has lasted the full 2000 ms, and
      the frame is published GREEN. Every capture drops the hold. */
  lemma CaptureNeedsFullHold(c: Calibration, f: Frame, verticalAngle: VerticalAngle)
    requires f.WellSized()
    ensures var r := FrameStep(c, f, verticalAngle);
      (r.calibrationState != c.calibrationState || r.handDownAngle != c.handDownAngle || r.handUpAngle != c.handUpAngle) ==>
        PosePresent(f.detected) && IsCalibrating(c.calibrationState) &&
        CaptureDue(HoldStep(c.hold, InGreenZone(f.detected.value, f, GreenZoneRules), f.now).hold, f.now) &&
        r.poseUiState.boundaryStatus == Green &&
        r.hold == ClearedHold
  {
    if PosePresent(f.detected) {
      NoCaptureOnExpiry(c.hold, InGreenZone(f.detected.value, f, GreenZoneRules), f.now);
    }
  }

  /** A due hands-down capture records the averaged arm angle and asks for the hands
      up; with no arm angle it returns to Idle. The hands-up angle is not touched. */
  lemma HandsDownCapture(c: Calibration, now: int, armAngle: Option<real>)
    requires c.calibrationState.CalibratingHandDown?
    requires CaptureDue(c.hold, now)
    ensures var r := CaptureStep(c, now, armAngle);
      r.hold == ClearedHold && r.handUpAngle == c.handUpAngle &&
      (armAngle.Some? ==> r.calibrationState == HandDownCalibrated && r.handDownAngle == armAngle.value) &&
      (armAngle.None? ==> r.calibrationState == Idle && r.handDownAngle == c.handDownAngle)
  {
  }

  /** A due hands-up capture always records a measured angle as the hands-up angle,
      and completes the calibration exactly when it differs from the hands-down angle
      by more than 40 degrees; otherwise, or with no arm angle, the state falls back
      to HandDownCalibrated. The hands-down angle is never touched. */
  lemma HandsUpCapture(c: Calibration, now: int, armAngle: Option<real>)
    requires c.calibrationState.CalibratingHandUp?
    requires CaptureDue(c.hold, now)
    ensures var r := CaptureStep(c, now, armAngle);
      r.hold == ClearedHold && r.handDownAngle == c.handDownAngle &&
      (armAngle.Some? ==>
        (r.handUpAngle == armAngle.value &&
         (r.calibrationState == HandUpCalibrated <==> Abs(c.handDownAngle - armAngle.value) > 40.0) &&
         (r.calibrationState == HandUpCalibrated || r.calibrationState == HandDownCalibrated))) &&
      (armAngle.None? ==> r.calibrationState == HandDownCalibrated && r.handUpAngle == c.handUpAngle)
  {
  }

  /** Before the hold is complete a calibrating frame only shows the stage's
      instruction. */
  lemma CaptureNotDue(c: Calibration, now: int, armAngle: Option<real>)
    requires IsCalibrating(c.calibrationState)
    requires !CaptureDue(c.hold, now)
    ensures var r := CaptureStep(c, now, armAngle);
      r == c.(instructionMessage := if c.calibrationState.CalibratingHandDown? then MsgHandsDownHold else MsgHandsUpHold)
  {
  }

  /** Starting either stage shows 2 seconds and drops the hold; a reset returns to
      Idle with both angles 0; a countdown update only changes a calibrating state. */
  lemma ButtonOperations(c: Calibration, stage: HandRaisingCalibrationStage, newCountdown: int)
    ensures StartCalibrationStep(c, stage).calibrationState ==
      (if stage == HandDown then CalibratingHandDown(2) else CalibratingHandUp(2))
    ensures StartCalibrationStep(c, stage).hold == ClearedHold
    ensures ResetCalibrationStep(c).calibrationState == Idle
    ensures ResetCalibrationStep(c).handDownAngle == 0.0 && ResetCalibrationStep(c).handUpAngle == 0.0
    ensures IsCalibrating(c.calibrationState) ==>
      IsCalibrating(UpdateCountdownStep(c, newCountdown).calibrationState) &&
      UpdateCountdownStep(c, newCountdown).calibrationState.countdownSec == newCountdown
    ensures !IsCalibrating(c.calibrationState) ==> UpdateCountdownStep(c, newCountdown) == c
  {
  }

  class HandRaisingCalibrationViewModel {
    var poseUiState: PoseUiState
    var calibrationState: HandRaisingCalibrationState
    var instructionMessage: Instruction
    var handDownAngle: real
    var handUpAngle: real
    var hasAchievedGreenZoneForHold: bool
    var greenZoneHoldStartTime: int
    var greenZoneExitTime: int

    function Snapshot(): Calibration
      reads this
    {
      Calibration(calibrationState, instructionMessage, handDownAngle, handUpAngle,
                  Hold(hasAchievedGreenZoneForHold, greenZoneHoldStartTime, greenZoneExitTime), poseUiState)
    }

    ghost predicate Valid()
      reads this
    {
      CalibrationInvariant(Snapshot())
    }

    constructor ()
      ensures Snapshot() == InitialCalibration && Valid()
    {
      poseUiState := InitialPoseUiState;
      calibrationState := Idle;
      instructionMessage := MsgBegin;
      handDownAngle, handUpAngle := 0.0, 0.0;
      hasAchievedGreenZoneForHold := false;
      greenZoneHoldStartTime, greenZoneExitTime := 0, 0;
    }

    /** The hysteresis on the three hold fields; returns the boundary status. */
    method UpdateHold(isInGreenZone: bool, currentTime: int) returns (status: BoundaryStatus)
      modifies this
      ensures Snapshot() == HoldFrame(old(Snapshot()), isInGreenZone, currentTime)
      ensures status == HoldStep(old(Snapshot()).hold, isInGreenZone, currentTime).status
    {
      if isInGreenZone {
        if !hasAchievedGreenZoneForHold {
          hasAchievedGreenZoneForHold := true;
          greenZoneHoldStartTime := currentTime;
          greenZoneExitTime := 0;
        }
        status := Green;
      } else if hasAchievedGreenZoneForHold {
        if greenZoneExitTime == 0 {
          greenZoneExitTime := currentTime;
        }
        if currentTime - greenZoneExitTime > GreenZoneGracePeriodMs {
          hasAchievedGreenZoneForHold := false;
          greenZoneHoldStartTime := 0;
          greenZoneExitTime := 0;
          if calibrationState.CalibratingHandDown? || calibrationState.CalibratingHandUp? {
            instructionMessage := MsgInterrupted;
          }
          status := Red;
        } else {
          status := Green;
        }
      } else {
        status := Red;
        greenZoneHoldStartTime := 0;
        greenZoneExitTime := 0;
      }
    }

    /** The capture part of a frame with a pose. */
    method CaptureIfDue(pose: Pose, currentTime: int, verticalAngle: VerticalAngle)
      modifies this
      ensures Snapshot() == CaptureStep(old(Snapshot()), currentTime, ArmAngle(pose, verticalAngle))
    {
      match calibrationState
      case CalibratingHandDown(_) => CaptureHandsDown(pose, currentTime, verticalAngle);
      case CalibratingHandUp(_) => CaptureHandsUp(pose, currentTime, verticalAngle);
      case _ =>
    }

    method CaptureHandsDown(pose: Pose, currentTime: int, verticalAngle: VerticalAngle)
      requires calibrationState.CalibratingHandDown?
      modifies this
      ensures Snapshot() == CaptureStep(old(Snapshot()), currentTime, ArmAngle(pose, verticalAngle))
    {
      var due := hasAchievedGreenZoneForHold && currentTime - greenZoneHoldStartTime >= CalibrationHoldTimeMs;
      instructionMessage := MsgHandsDownHold;
      if due {
        var averageAngle := ArmAngle(pose, verticalAngle);
        if averageAngle.Some? {
          handDownAngle := averageAngle.value;
          calibrationState := HandDownCalibrated;
          instructionMessage := MsgHandsDownCalibrated;
        } else {
          instructionMessage := MsgHandsDownMissing;
          calibrationState := Idle;
        }
        hasAchievedGreenZoneForHold := false;
        greenZoneHoldStartTime := 0;
        greenZoneExitTime := 0;
      }
    }

    method CaptureHandsUp(pose: Pose, currentTime: int, verticalAngle: VerticalAngle)
      requires calibrationState.CalibratingHandUp?
      modifies this
      ensures Snapshot() == CaptureStep(old(Snapshot()), currentTime, ArmAngle(pose, verticalAngle))
    {
      var due := hasAchievedGreenZoneForHold && currentTime - greenZoneHoldStartTime >= CalibrationHoldTimeMs;
      instructionMessage := MsgHandsUpHold;
      if due {
        var averageAngle := ArmAngle(pose, verticalAngle);
        if averageAngle.Some? {
          handUpAngle := averageAngle.value;
          if Abs(handDownAngle - handUpAngle) > MinCalibrationAngleDiff {
            calibrationState := HandUpCalibrated;
            instructionMessage := MsgCalibrationComplete;
          } else {
            instructionMessage := MsgDifferenceTooSmall;
            calibrationState := HandDownCalibrated;
          }
        } else {
          instructionMessage := MsgHandsUpMissing;
          calibrationState := HandDownCalibrated;
        }
        hasAchievedGreenZoneForHold := false;
        greenZoneHoldStartTime := 0;
        greenZoneExitTime := 0;
      }
    }

    /** The detector callback for one camera frame. */
    method ProcessImageProxy(f: Frame, verticalAngle: VerticalAngle)
      requires Valid() && f.WellSized()
      modifies this
      ensures Snapshot() == FrameStep(old(Snapshot()), f, verticalAngle)
      ensures Valid()
    {
      ghost var before := Snapshot();
      var currentBoundaryStatus := Red;
      var personDisplayBoundingBox: Option<Rect> := None;
      if f.detected.Some? && |f.detected.value.allPoseLandmarks| > 0 {
        var pose := f.detected.value;
        var isInGreenZone;
        personDisplayBoundingBox, isInGreenZone := AnalyseFrame(pose, f, GreenZoneRules);
        currentBoundaryStatus := UpdateHold(isInGreenZone, f.now);
        CaptureIfDue(pose, f.now, verticalAngle);
      } else {
        currentBoundaryStatus := Red;
        hasAchievedGreenZoneForHold := false;
        greenZoneHoldStartTime := 0;
        greenZoneExitTime := 0;
        if calibrationState.CalibratingHandDown? || calibrationState.CalibratingHandUp? {
          instructionMessage := MsgNoPerson;
        }
      }
      poseUiState := CalibrationUiState(currentBoundaryStatus, f, personDisplayBoundingBox);
      FrameStepPreservesInvariant(before, f, verticalAngle);
    }

    method StartCalibration(stage: HandRaisingCalibrationStage)
      requires Valid()
      modifies this
      ensures Snapshot() == StartCalibrationStep(old(Snapshot()), stage)
      ensures Valid()
    {
      calibrationState := match stage
        case HandDown => CalibratingHandDown(CalibrationHoldTimeMs / 1000)
        case HandUp => CalibratingHandUp(CalibrationHoldTimeMs / 1000);
      hasAchievedGreenZoneForHold := false;
      greenZoneHoldStartTime := 0;
      greenZoneExitTime := 0;
    }

    method ResetCalibration()
      requires Valid()
      modifies this
      ensures Snapshot() == ResetCalibrationStep(old(Snapshot()))
      ensures Valid()
    {
      calibrationState := Idle;
      instructionMessage := MsgBegin;
      handDownAngle := 0.0;
      handUpAngle := 0.0;
      hasAchievedGreenZoneForHold := false;
      greenZoneHoldStartTime := 0;
      greenZoneExitTime := 0;
    }

    method UpdateCalibrationCountdown(newCountdown: int)
      requires Valid()
      modifies this
      ensures Snapshot() == UpdateCountdownStep(old(Snapshot()), newCountdown)
      ensures Valid()
    {
      match calibrationState
      case CalibratingHandDown(_) => calibrationState := CalibratingHandDown(newCountdown);
      case CalibratingHandUp(_) => calibrationState := CalibratingHandUp(newCountdown);
      case _ =>
    }

    /** One tick of the screen's countdown while a calibration is held GREEN: the
        screen's formula, the remaining whole seconds plus one (see
        `CountdownAsWrittenBounds`). */
    method CountdownTick(elapsedMs: int)
      requires Valid()
      modifies this
      ensures Snapshot() == UpdateCountdownStep(old(Snapshot()), CountdownSecondsAsWritten(elapsedMs))
      ensures Valid()
    {
      UpdateCalibrationCountdown(CountdownSecondsAsWritten(elapsedMs));
    }
  }
}
