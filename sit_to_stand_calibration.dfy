/** The sit-to-stand calibration view-model: with the person held in the green zone
    for the full hold time it records the hip angle standing, then sitting, and
    accepts the sitting angle only when a standing angle was recorded and exceeds it
    by more than 10 degrees. */
module SitToStandCalibration {
  import opened PoseModel
  import opened PoseUtils
  import opened FrameAnalysis
  import opened CalibrationHold

  datatype CalibrationStage = Standing | Sitting

  datatype CalibrationState =
    | Idle
    | CalibratingStanding(countdownSec: int)
    | CalibratingSitting(countdownSec: int)
    | StandingCalibrated
    | SittingCalibrated
    | Failed(message: string)

  const MinCalibrationAngleDiff: real := 10.0

  /** The whole body: face, arms, hips, legs and feet. */
  const CriticalInitialJoints: seq<LandmarkType> :=
    [Nose, LeftEye, RightEye, LeftEar, RightEar,
     LeftShoulder, RightShoulder, LeftElbow, RightElbow, LeftWrist, RightWrist,
     LeftHip, RightHip, LeftKnee, RightKnee, LeftAnkle, RightAnkle,
     LeftHeel, RightHeel, LeftFootIndex, RightFootIndex]

  const CalibrationMinJointLikelihood: real := 0.60

  const CalibrationZone: ZoneConfig := ZoneConfig(0.20, 0.15, 0.08, 0.98, 0.25, 0.99)

  /** The instructions the view-model shows; `InstructionText` gives their wording. */
  datatype Instruction =
    | MsgBegin | MsgInterrupted | MsgStandingHold | MsgStandingCalibrated | MsgStandingMissing
    | MsgSittingHold | MsgCalibrationComplete | MsgDifferenceTooSmall | MsgSittingMissing | MsgNoPerson

  function InstructionText(m: Instruction): string
  {
    match m
    case MsgBegin => "Press 'Calibrate Standing' to begin."
    case MsgInterrupted => "Calibration interrupted! Keep your body fully in frame and stable."
    case MsgStandingHold => "STAND TALL & STILL for calibration."
    case MsgStandingCalibrated => "Standing Position Calibrated Successfully! Now Calibrate Sitting."
    case MsgStandingMissing => "Could not calculate hip angle for standing. Please adjust position."
    case MsgSittingHold => "SIT DOWN & STILL for calibration."
    case MsgCalibrationComplete => "Calibration Complete! Ready for Exercise."
    case MsgDifferenceTooSmall => "Sitting calibration failed. Angle difference is too small. Try again."
    case MsgSittingMissing => "Could not calculate hip angle for sitting. Please adjust position."
    case MsgNoPerson => "No person detected. Ensure good lighting and move into the camera's view."
  }

  /** Everything the view-model holds: the calibration state and instruction it
      publishes, the two recorded angles, the hold fields and the published pose. */
  datatype Calibration = Calibration(
    calibrationState: CalibrationState,
    instructionMessage: Instruction,
    standingAngle: real,
    sittingAngle: real,
    hold: Hold,
    poseUiState: PoseUiState)

  const InitialCalibration: Calibration := Calibration(Idle, MsgBegin, 0.0, 0.0, ClearedHold, InitialPoseUiState)

  predicate IsCalibrating(s: CalibrationState)
  {
    s.CalibratingStanding? || s.CalibratingSitting?
  }

  /** The calibration green zone; the box is scaled so that the whole image is visible. */
  const GreenZoneRules: ZoneRules := ZoneRules(ScaleToFit, CriticalInitialJoints, CalibrationMinJointLikelihood, CalibrationZone)

  /** The capture part of a frame with a pose, after the hold fields were updated. */
  function CaptureStep(c: Calibration, now: int, hipAngle: Option<real>): Calibration
  {
    match c.calibrationState
    case CalibratingStanding(_) =>
      if !CaptureDue(c.hold, now) then c.(instructionMessage := MsgStandingHold)
      else if hipAngle.Some? then
        c.(calibrationState := StandingCalibrated, instructionMessage := MsgStandingCalibrated,
           standingAngle := hipAngle.value, hold := ClearedHold)
      else
        c.(calibrationState := Idle, instructionMessage := MsgStandingMissing, hold := ClearedHold)
    case CalibratingSitting(_) =>
      if !CaptureDue(c.hold, now) then c.(instructionMessage := MsgSittingHold)
      else if hipAngle.Some? then
        if SittingAccepted(c.standingAngle, hipAngle.value) then
          c.(calibrationState := SittingCalibrated, instructionMessage := MsgCalibrationComplete,
             sittingAngle := hipAngle.value, hold := ClearedHold)
        else
          c.(calibrationState := StandingCalibrated, instructionMessage := MsgDifferenceTooSmall,
             sittingAngle := hipAngle.value, hold := ClearedHold)
      else
        c.(calibrationState := StandingCalibrated, instructionMessage := MsgSittingMissing, hold := ClearedHold)
    case _ => c
  }

  /** The hold part of a frame with a pose: the hysteresis, and the "interrupted"
      instruction when the grace period runs out during a calibration. */
  function HoldFrame(c: Calibration, inGreenZone: bool, now: int): Calibration
  {
    var o := HoldStep(c.hold, inGreenZone, now);
    c.(hold := o.hold,
       instructionMessage := if o.graceExpired && IsCalibrating(c.calibrationState) then MsgInterrupted else c.instructionMessage)
  }

  /** One processed camera frame. */
  function FrameStep(c: Calibration, f: Frame, bearing: Bearing): Calibration
    requires f.WellSized()
  {
    if PosePresent(f.detected) then
      var pose := f.detected.value;
      var inGreenZone := InGreenZone(pose, f, GreenZoneRules);
      var status := HoldStep(c.hold, inGreenZone, f.now).status;
      var captured := CaptureStep(HoldFrame(c, inGreenZone, f.now), f.now, HipAngle(pose, bearing));
      captured.(poseUiState := CalibrationUiState(status, f, PersonBox(pose, f, GreenZoneRules.fit)))
    else
      c.(hold := ClearedHold,
         instructionMessage := if IsCalibrating(c.calibrationState) then MsgNoPerson else c.instructionMessage,
         poseUiState := CalibrationUiState(Red, f, None))
  }

  /** Starting a stage shows a countdown of 2000 / 1000 = 2 seconds and drops any hold. */
  function StartCalibrationStep(c: Calibration, stage: CalibrationStage): Calibration
  {
    var seconds := CalibrationHoldTimeMs / 1000;
    c.(calibrationState := if stage == Standing then CalibratingStanding(seconds) else CalibratingSitting(seconds),
       hold := ClearedHold)
  }

  function ResetCalibrationStep(c: Calibration): Calibration
  {
    c.(calibrationState := Idle, instructionMessage := MsgBegin, standingAngle := 0.0, sittingAngle := 0.0,
       hold := ClearedHold)
  }

  function UpdateCountdownStep(c: Calibration, newCountdown: int): Calibration
  {
    match c.calibrationState
    case CalibratingStanding(_) => c.(calibrationState := CalibratingStanding(newCountdown))
    case CalibratingSitting(_) => c.(calibrationState := CalibratingSitting(newCountdown))
    case _ => c
  }

  /** The acceptance rule for the sitting angle. */
  predicate SittingAccepted(standingAngle: real, sittingAngle: real)
  {
    standingAngle != 0.0 && standingAngle - sittingAngle > MinCalibrationAngleDiff
  }

  /** The enabled guards of the screen's buttons. */
  predicate CanCalibrateStanding(s: CalibrationState)
  {
    s.Idle? || s.Failed? || s.StandingCalibrated?
  }

  predicate CanCalibrateSitting(s: CalibrationState)
  {
    s.StandingCalibrated?
  }

  predicate CanStartExercise(s: CalibrationState)
  {
    s.SittingCalibrated?
  }

  /** What every reachable state satisfies: nothing ever enters Failed, a completed
      calibration has a recorded standing angle more than 10 degrees above the sitting
      angle, timers are only set during a
      hold, and the "interrupted" instruction is never the one left published. */
  predicate CalibrationInvariant(c: Calibration)
  {
    !c.calibrationState.Failed? &&
    (c.calibrationState.SittingCalibrated? ==> SittingAccepted(c.standingAngle, c.sittingAngle)) &&
    HoldWellFormed(c.hold) &&
    c.instructionMessage != MsgInterrupted
  }

  lemma InitialCalibrationInvariant()
    ensures CalibrationInvariant(InitialCalibration)
  {
  }

  /** The invariant halfway through a frame, after the hysteresis: the "interrupted"
      instruction may be set, but only during a calibration. */
  predicate InvariantDuringFrame(c: Calibration)
  {
    CalibrationInvariant(c.(instructionMessage := MsgBegin)) &&
    (c.instructionMessage == MsgInterrupted ==> IsCalibrating(c.calibrationState))
  }

  /** The hysteresis part of a frame can only set the "interrupted" instruction
      during a calibration, and keeps the rest of the invariant. */
  lemma HoldFrameKeepsInvariant(c: Calibration, inGreenZone: bool, now: int)
    requires CalibrationInvariant(c)
    ensures InvariantDuringFrame(HoldFrame(c, inGreenZone, now))
  {
    HoldStepWellFormed(c.hold, inGreenZone, now);
  }

  /** A capture attempt restores the whole invariant, whatever angle the frame
      measured: during a calibration it always replaces the instruction. */
  lemma CaptureStepRestoresInvariant(c: Calibration, now: int, hipAngle: Option<real>)
    requires InvariantDuringFrame(c)
    ensures CalibrationInvariant(CaptureStep(c, now, hipAngle))
  {
  }

  /** Every processed frame keeps the invariant. */
  lemma FrameStepPreservesInvariant(c: Calibration, f: Frame, bearing: Bearing)
    requires CalibrationInvariant(c)
    requires f.WellSized()
    ensures CalibrationInvariant(FrameStep(c, f, bearing))
  {
    if PosePresent(f.detected) {
      var pose := f.detected.value;
      var inGreenZone := InGreenZone(pose, f, GreenZoneRules);
      HoldFrameKeepsInvariant(c, inGreenZone, f.now);
      CaptureStepRestoresInvariant(HoldFrame(c, inGreenZone, f.now), f.now, HipAngle(pose, bearing));
    }
  }

  /** The button operations keep the invariant. */
  lemma ButtonsPreserveInvariant(c: Calibration, stage: CalibrationStage, newCountdown: int)
    requires CalibrationInvariant(c)
    ensures CalibrationInvariant(StartCalibrationStep(c, stage))
    ensures CalibrationInvariant(ResetCalibrationStep(c))
    ensures CalibrationInvariant(UpdateCountdownStep(c, newCountdown))
  {
  }

  /** The exercise can only be started with a non-zero standing angle more than 10
      degrees above the sitting angle. */
  lemma StartExerciseNeedsSeparatedAngles(c: Calibration)
    requires CalibrationInvariant(c)
    requires CanStartExercise(c.calibrationState)
    ensures c.standingAngle != 0.0 && c.standingAngle - c.sittingAngle > 10.0
  {
  }

  /** Once the calibration is complete only the exercise button is enabled: a new
      standing or sitting calibration first needs a reset. */
  lemma GuardsAfterCompletion(s: CalibrationState)
    requires CanStartExercise(s)
    ensures !CanCalibrateStanding(s) && !CanCalibrateSitting(s)
  {
  }

  /** A frame without a usable pose publishes RED with no pose and no box, drops the
      hold whatever it was, leaves the calibration state and both angles alone, and
      asks for the person only while calibrating. */
  lemma NoPoseFrame(c: Calibration, f: Frame, bearing: Bearing)
    requires f.WellSized()
    requires !PosePresent(f.detected)
    ensures var r := FrameStep(c, f, bearing);
      r.poseUiState.boundaryStatus == Red && r.poseUiState.pose.None? && r.poseUiState.personBoundingBox.None? &&
      r.hold == ClearedHold &&
      r.calibrationState == c.calibrationState &&
      r.standingAngle == c.standingAngle && r.sittingAngle == c.sittingAngle &&
      r.instructionMessage == (if IsCalibrating(c.calibrationState) then MsgNoPerson else c.instructionMessage)
  {
  }

  /** Outside the two calibrating states a frame changes neither the state, the
      angles nor the instruction; only the hold and the published pose move. */
  lemma FramesOutsideCalibrationKeepState(c: Calibration, f: Frame, bearing: Bearing)
    requires f.WellSized()
    requires !IsCalibrating(c.calibrationState)
    ensures var r := FrameStep(c, f, bearing);
      r.calibrationState == c.calibrationState && r.instructionMessage == c.instructionMessage &&
      r.standingAngle == c.standingAngle && r.sittingAngle == c.sittingAngle
  {
  }

  /** The state or an angle changes on a frame only by a capture: the frame has a
      pose, the hold (after this frame's hysteresis) has lasted the full 2000 ms, and
      the frame is published GREEN. Every capture drops the hold. */
  lemma CaptureNeedsFullHold(c: Calibration, f: Frame, bearing: Bearing)
    requires f.WellSized()
    ensures var r := FrameStep(c, f, bearing);
      (r.calibrationState != c.calibrationState || r.standingAngle != c.standingAngle || r.sittingAngle != c.sittingAngle) ==>
        PosePresent(f.detected) && IsCalibrating(c.calibrationState) &&
        CaptureDue(HoldStep(c.hold, InGreenZone(f.detected.value, f, GreenZoneRules), f.now).hold, f.now) &&
        r.poseUiState.boundaryStatus == Green &&
        r.hold == ClearedHold
  {
    if PosePresent(f.detected) {
      NoCaptureOnExpiry(c.hold, InGreenZone(f.detected.value, f, GreenZoneRules), f.now);
    }
  }

  /** A due standing capture records the hip angle and asks for sitting; with no hip
      angle it returns to Idle. The sitting angle is not touched. */
  lemma StandingCapture(c: Calibration, now: int, hipAngle: Option<real>)
    requires c.calibrationState.CalibratingStanding?
    requires CaptureDue(c.hold, now)
    ensures var r := CaptureStep(c, now, hipAngle);
      r.hold == ClearedHold && r.sittingAngle == c.sittingAngle &&
      (hipAngle.Some? ==> r.calibrationState == StandingCalibrated && r.standingAngle == hipAngle.value) &&
      (hipAngle.None? ==> r.calibrationState == Idle && r.standingAngle == c.standingAngle)
  {
  }

  /** A due sitting capture always records a measured hip angle as the sitting angle,
      and completes the calibration exactly when a standing angle was recorded (is
      not 0) and exceeds the new sitting angle by strictly more than 10 degrees (a
      signed difference); otherwise, or with no hip angle, the state falls back to
      StandingCalibrated. The standing angle is never touched, and with no hip angle
      neither angle changes. */
  lemma SittingCapture(c: Calibration, now: int, hipAngle: Option<real>)
    requires c.calibrationState.CalibratingSitting?
    requires CaptureDue(c.hold, now)
    ensures var r := CaptureStep(c, now, hipAngle);
      r.hold == ClearedHold && r.standingAngle == c.standingAngle &&
      (hipAngle.Some? ==>
        (r.sittingAngle == hipAngle.value &&
         (r.calibrationState == SittingCalibrated <==>
           c.standingAngle != 0.0 && c.standingAngle - hipAngle.value > 10.0) &&
         (r.calibrationState == SittingCalibrated || r.calibrationState == StandingCalibrated))) &&
      (hipAngle.None? ==> r.calibrationState == StandingCalibrated && r.sittingAngle == c.sittingAngle)
  {
  }

  /** Before the hold is complete a calibrating frame only shows the stage's
      instruction. */
  lemma CaptureNotDue(c: Calibration, now: int, hipAngle: Option<real>)
    requires IsCalibrating(c.calibrationState)
    requires !CaptureDue(c.hold, now)
    ensures var r := CaptureStep(c, now, hipAngle);
      r == c.(instructionMessage := if c.calibrationState.CalibratingStanding? then MsgStandingHold else MsgSittingHold)
  {
  }

  /** Starting either stage shows 2 seconds and drops the hold; a reset returns to
      Idle with both angles 0; a countdown update only changes a calibrating state. */
  lemma ButtonOperations(c: Calibration, stage: CalibrationStage, newCountdown: int)
    ensures StartCalibrationStep(c, stage).calibrationState ==
      (if stage == Standing then CalibratingStanding(2) else CalibratingSitting(2))
    ensures StartCalibrationStep(c, stage).hold == ClearedHold
    ensures ResetCalibrationStep(c).calibrationState == Idle
    ensures ResetCalibrationStep(c).standingAngle == 0.0 && ResetCalibrationStep(c).sittingAngle == 0.0
    ensures IsCalibrating(c.calibrationState) ==>
      IsCalibrating(UpdateCountdownStep(c, newCountdown).calibrationState) &&
      UpdateCountdownStep(c, newCountdown).calibrationState.countdownSec == newCountdown
    ensures !IsCalibrating(c.calibrationState) ==> UpdateCountdownStep(c, newCountdown) == c
  {
  }

  class SitToStandCalibrationViewModel {
    var poseUiState: PoseUiState
    var calibrationState: CalibrationState
    var instructionMessage: Instruction
    var standingAngle: real
    var sittingAngle: real
    var hasAchievedGreenZoneForHold: bool
    var greenZoneHoldStartTime: int
    var greenZoneExitTime: int

    function Snapshot(): Calibration
      reads this
    {
      Calibration(calibrationState, instructionMessage, standingAngle, sittingAngle,
                  Hold(hasAchievedGreenZoneForHold, greenZoneHoldStartTime, greenZoneExitTime), poseUiState)
    }

    ghost predicate Valid()
      reads this
    {
      CalibrationInvariant(Snapshot())
    }

    constructor ()
      ensures Snapshot() == InitialCalibration && Valid()
    {
      poseUiState := InitialPoseUiState;
      calibrationState := Idle;
      instructionMessage := MsgBegin;
      standingAngle, sittingAngle := 0.0, 0.0;
      hasAchievedGreenZoneForHold := false;
      greenZoneHoldStartTime, greenZoneExitTime := 0, 0;
    }

    /** The hysteresis on the three hold fields; returns the boundary status. */
    method UpdateHold(isInGreenZone: bool, currentTime: int) returns (status: BoundaryStatus)
      modifies this
      ensures Snapshot() == HoldFrame(old(Snapshot()), isInGreenZone, currentTime)
      ensures status == HoldStep(old(Snapshot()).hold, isInGreenZone, currentTime).status
    {
      if isInGreenZone {
        if !hasAchievedGreenZoneForHold {
          hasAchievedGreenZoneForHold := true;
          greenZoneHoldStartTime := currentTime;
          greenZoneExitTime := 0;
        }
        status := Green;
      } else if hasAchievedGreenZoneForHold {
        if greenZoneExitTime == 0 {
          greenZoneExitTime := currentTime;
        }
        if currentTime - greenZoneExitTime > GreenZoneGracePeriodMs {
          hasAchievedGreenZoneForHold := false;
          greenZoneHoldStartTime := 0;
          greenZoneExitTime := 0;
          if calibrationState.CalibratingStanding? || calibrationState.CalibratingSitting? {
            instructionMessage := MsgInterrupted;
          }
          status := Red;
        } else {
          status := Green;
        }
      } else {
        status := Red;
        greenZoneHoldStartTime := 0;
        greenZoneExitTime := 0;
      }
    }

    /** The capture part of a frame with a pose, given the frame's hip angle (which
        the callback computes only once a capture is due; it has no side effects). */
    method CaptureIfDue(currentTime: int, currentHipAngle: Option<real>)
      modifies this
      ensures Snapshot() == CaptureStep(old(Snapshot()), currentTime, currentHipAngle)
    {
      match calibrationState
      case CalibratingStanding(_) => CaptureStanding(currentTime, currentHipAngle);
      case CalibratingSitting(_) => CaptureSitting(currentTime, currentHipAngle);
      case _ =>
    }

    method CaptureStanding(currentTime: int, currentHipAngle: Option<real>)
      requires calibrationState.CalibratingStanding?
      modifies this
      ensures Snapshot() == CaptureStep(old(Snapshot()), currentTime, currentHipAngle)
    {
      var due := hasAchievedGreenZoneForHold && currentTime - greenZoneHoldStartTime >= CalibrationHoldTimeMs;
      instructionMessage := MsgStandingHold;
      if due {
        if currentHipAngle.Some? {
          standingAngle := currentHipAngle.value;
          calibrationState := StandingCalibrated;
          instructionMessage := MsgStandingCalibrated;
        } else {
          instructionMessage := MsgStandingMissing;
          calibrationState := Idle;
        }
        hasAchievedGreenZoneForHold := false;
        greenZoneHoldStartTime := 0;
        greenZoneExitTime := 0;
      }
    }

    method CaptureSitting(currentTime: int, currentHipAngle: Option<real>)
      requires calibrationState.CalibratingSitting?
      modifies this
      ensures Snapshot() == CaptureStep(old(Snapshot()), currentTime, currentHipAngle)
    {
      var due := hasAchievedGreenZoneForHold && currentTime - greenZoneHoldStartTime >= CalibrationHoldTimeMs;
      instructionMessage := MsgSittingHold;
      if due {
        if currentHipAngle.Some? {
          sittingAngle := currentHipAngle.value;
          if standingAngle != 0.0 && standingAngle - sittingAngle > MinCalibrationAngleDiff {
            calibrationState := SittingCalibrated;
            instructionMessage := MsgCalibrationComplete;
          } else {
            instructionMessage := MsgDifferenceTooSmall;
            calibrationState := StandingCalibrated;
          }
        } else {
          instructionMessage := MsgSittingMissing;
          calibrationState := StandingCalibrated;
        }
        hasAchievedGreenZoneForHold := false;
        greenZoneHoldStartTime := 0;
        greenZoneExitTime := 0;
      }
    }

    /** The detector callback for one camera frame. */
    method ProcessImageProxy(f: Frame, bearing: Bearing)
      requires Valid() && f.WellSized()
      modifies this
      ensures Snapshot() == FrameStep(old(Snapshot()), f, bearing)
      ensures Valid()
    {
      ghost var before := Snapshot();
      var currentBoundaryStatus := Red;
      var personDisplayBoundingBox: Option<Rect> := None;
      if f.detected.Some? && |f.detected.value.allPoseLandmarks| > 0 {
        var pose := f.detected.value;
        var isInGreenZone;
        personDisplayBoundingBox, isInGreenZone := AnalyseFrame(pose, f, GreenZoneRules);
        currentBoundaryStatus := UpdateHold(isInGreenZone, f.now);
        CaptureIfDue(f.now, HipAngle(pose, bearing));
      } else {
        currentBoundaryStatus := Red;
        hasAchievedGreenZoneForHold := false;
        greenZoneHoldStartTime := 0;
        greenZoneExitTime := 0;
        if calibrationState.CalibratingStanding? || calibrationState.CalibratingSitting? {
          instructionMessage := MsgNoPerson;
        }
      }
      poseUiState := CalibrationUiState(currentBoundaryStatus, f, personDisplayBoundingBox);
      FrameStepPreservesInvariant(before, f, bearing);
    }

    method StartCalibration(stage: CalibrationStage)
      requires Valid()
      modifies this
      ensures Snapshot() == StartCalibrationStep(old(Snapshot()), stage)
      ensures Valid()
    {
      calibrationState := match stage
        case Standing => CalibratingStanding(CalibrationHoldTimeMs / 1000)
        case Sitting => CalibratingSitting(CalibrationHoldTimeMs / 1000);
      hasAchievedGreenZoneForHold := false;
      greenZoneHoldStartTime := 0;
      greenZoneExitTime := 0;
    }

    method ResetCalibration()
      requires Valid()
      modifies this
      ensures Snapshot() == ResetCalibrationStep(old(Snapshot()))
      ensures Valid()
    {
      calibrationState := Idle;
      instructionMessage := MsgBegin;
      standingAngle := 0.0;
      sittingAngle := 0.0;
      hasAchievedGreenZoneForHold := false;
      greenZoneHoldStartTime := 0;
      greenZoneExitTime := 0;
    }

    method UpdateCalibrationCountdown(newCountdown: int)
      requires Valid()
      modifies this
      ensures Snapshot() == UpdateCountdownStep(old(Snapshot()), newCountdown)
      ensures Valid()
    {
      match calibrationState
      case CalibratingStanding(_) => calibrationState := CalibratingStanding(newCountdown);
      case CalibratingSitting(_) => calibrationState := CalibratingSitting(newCountdown);
      case _ =>
    }

    /** One tick of the screen's countdown while a calibration is held GREEN: the
        screen's formula, the remaining whole seconds plus one (see
        `CountdownAsWrittenBounds`). */
    method CountdownTick(elapsedMs: int)
      requires Valid()
      modifies this
      ensures Snapshot() == UpdateCountdownStep(old(Snapshot()), CountdownSecondsAsWritten(elapsedMs))
      ensures Valid()
    {
      UpdateCalibrationCountdown(CountdownSecondsAsWritten(elapsedMs));
    }
  }
}
