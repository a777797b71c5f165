# ExerciseApp pose logic in Dafny

This project models the per-frame decision logic of ExerciseApp, an Android app.
The app watches the user through the camera with a pose detector, then does three things:

- It calibrates two exercises: hand raising and sit-to-stand.
- It counts repetitions during a 30-second exercise.
- It tracks joint angles freely.

Each screen has a view-model that receives one detector result per camera frame and updates its own fields.
The project models each view-model as a Dafny class:

- The class has the view-model's fields.
- The detector callback becomes `ProcessImageProxy`.
- The buttons and timer callbacks become methods.
- Every method is proved to move the class's `Snapshot()` exactly as a pure step function of the old snapshot says.
- Its `Valid()` invariant is preserved.

The properties the app promises are proved as lemmas about those step functions.

The modules:

- `PoseModel`: the detector's output (33 landmark types, landmarks with position and in-frame likelihood), the snapshot a screen publishes (`PoseUiState`) and one camera frame (`Frame`).
- `PoseUtils`: `calculateAngle`, the angle at a vertex landmark normalised into [0, 360). Also `distance`.
- `CameraUtils`: `transformCoordinates`, which maps image coordinates onto the preview under FIT_CENTER, FILL_CENTER and the other scale types.
- `FrameAnalysis`: code every view-model repeats inline.
  - The bounding loop over the landmarks and its scaling and front-camera mirroring onto the canvas.
  - The short-circuiting critical-joint loop and the centred-and-sized test.
  - The arm, hip and knee angle selection.
- `CalibrationHold`: the green-zone hysteresis shared by both calibration screens (2000 ms hold, 750 ms strict grace period) and the countdown the screens show.
- `HandRaisingCalibration`, `SitToStandCalibration`: the two calibration view-models. They capture two angles, then accept the second only if it is far enough from the first.
- `HandRaisingExercise`, `SitToStandExercise`: the two repetition counters, with their preparation and exercise timers.
- `FreeMovement`: the free-movement view-model. It has a sticky green-zone latch and per-joint exponential smoothing (factor 0.3).
- `ExerciseCompleted`: the performance verdict on the final repetition count.
- `Runs`: a state machine fed one input per frame, shared by the two repetition counters' run lemmas.

Inputs the code cannot see become parameters:

- The current time is `Frame.now`, in milliseconds.
- The direction of a ray in degrees (`atan2` followed by `Math.toDegrees`) is a `Bearing` function. Its range (−180, 180] is stated by `IsBearing`.
- `calculateVerticalAngle` is a `VerticalAngle` function.
- The square root is a `SquareRoot` function with its stated range (`IsSquareRoot`).

## Model

All source paths are under `app/src/main/java/com/example/exerciseapp/`; the table repeats the full path.

| member | source | states |
|---|---|---|
| PoseModel.FindLandmarkSound | app/src/main/java/com/example/exerciseapp/ml/PoseUtils.kt:26-32 | The landmark lookup returns a landmark of the requested type that the pose holds, and finds nothing exactly when the pose has no landmark of that type |
| PoseUtils.CalculateAngle | app/src/main/java/com/example/exerciseapp/ml/PoseUtils.kt:20-45 | The angle is absent exactly when one of the three landmarks is missing |
| PoseUtils.CalculateAngleInRange | app/src/main/java/com/example/exerciseapp/ml/PoseUtils.kt:34-44 | With atan2's range, every computed angle lies in [0, 360) |
| PoseUtils.NormalizeDegreesRange | app/src/main/java/com/example/exerciseapp/ml/PoseUtils.kt:44 | A negative angle gets exactly 360 added and any other is kept; the result lies in [0, 360) |
| PoseUtils.NormalizeDegreesNegated | app/src/main/java/com/example/exerciseapp/ml/PoseUtils.kt:34-44 | Normalising d and −d gives complementary angles (they sum to 360, or are both 0) |
| PoseUtils.CalculateAngleSwapped | app/src/main/java/com/example/exerciseapp/ml/PoseUtils.kt:34-44 | Swapping the first and third landmarks gives the complementary angle: both rays are measured from the vertex |
| PoseUtils.RawVertexAngleBounds | app/src/main/java/com/example/exerciseapp/ml/PoseUtils.kt:34-41 | The raw difference of the two bearings lies strictly inside (−360, 360) and changes sign when the outer landmarks are swapped |
| PoseUtils.CalculateAngleIgnoresLikelihood | app/src/main/java/com/example/exerciseapp/ml/PoseUtils.kt:26-44 | Two poses with the same landmarks at the same positions give the same angle, whatever the likelihoods |
| PoseUtils.DistanceProperties | app/src/main/java/com/example/exerciseapp/ml/PoseUtils.kt:50-52 | The distance is non-negative, symmetric, and zero between a point and itself |
| CameraUtils.FitCenterFitsInside | app/src/main/java/com/example/exerciseapp/util/CameraUtils.kt:33-43 | FIT_CENTER scales by the smaller ratio, so the scaled image fits inside the preview and both offsets are non-negative |
| CameraUtils.FillCenterCoversPreview | app/src/main/java/com/example/exerciseapp/util/CameraUtils.kt:33-50 | FILL_CENTER scales by the larger ratio, so the scaled image covers the preview and both offsets are non-positive |
| CameraUtils.CenterMapsToCenter | app/src/main/java/com/example/exerciseapp/util/CameraUtils.kt:40-53 | Under both centre modes the image centre maps to the preview centre |
| CameraUtils.TransformScalesUniformly | app/src/main/java/com/example/exerciseapp/util/CameraUtils.kt:39-61 | Under every scale type, moving a point by (dx, dy) moves its transform by (s·dx, s·dy) with the one scale s of that type on both axes, so the aspect ratio is kept and only the offset depends on the mode |
| CameraUtils.ScalePositive | app/src/main/java/com/example/exerciseapp/util/CameraUtils.kt:33-56 | A non-empty preview gives a positive scale under every scale type |
| CameraUtils.TransformStrictlyIncreasing | app/src/main/java/com/example/exerciseapp/util/CameraUtils.kt:44-58 | With positive sizes the transform is strictly increasing in x and in y |
| CameraUtils.OtherScaleTypesKeepOrigin | app/src/main/java/com/example/exerciseapp/util/CameraUtils.kt:54-59 | Any other scale type uses the larger ratio with no offset, so the origin maps to the origin |
| FrameAnalysis.ComputeExtent | app/src/main/java/com/example/exerciseapp/ui/screens/HandRaisingCalibrationScreen.kt:110-126 | The bounding loop computes the extent of the confident landmarks, as `ExtentOf` specifies it |
| FrameAnalysis.ExtentContainsConfident | app/src/main/java/com/example/exerciseapp/ui/screens/HandRaisingCalibrationScreen.kt:118-126 | The loop reports a landmark exactly when some landmark is at or above the box threshold, and every such landmark lies inside the extent |
| FrameAnalysis.ExtentAttained | app/src/main/java/com/example/exerciseapp/ui/screens/HandRaisingCalibrationScreen.kt:110-126 | Each bound is either its starting float constant or the coordinate of some confident landmark |
| FrameAnalysis.ExtentOrdered | app/src/main/java/com/example/exerciseapp/ui/screens/HandRaisingCalibrationScreen.kt:118-126 | Once a landmark was confident, min <= max on both axes |
| FrameAnalysis.CheckJointsConfident | app/src/main/java/com/example/exerciseapp/ui/screens/SitToStandCalibrationScreen.kt:140-147 | The short-circuiting joint loop answers true exactly when every critical joint is present with at least the required likelihood |
| FrameAnalysis.AnalyseFrame | app/src/main/java/com/example/exerciseapp/ui/screens/SitToStandCalibrationScreen.kt:95-160 | The inline box and green-zone computation yields the person's box and the verdict "all joints confident and the box centred and sized" (a missing box is never centred) |
| FrameAnalysis.MirrorProperties | app/src/main/java/com/example/exerciseapp/ui/screens/SitToStandCalibrationScreen.kt:127-134 | Front-camera mirroring maps [L, R] to [W − R, W − L]: it keeps the width, height and left <= right, and is its own inverse |
| FrameAnalysis.BoxScaleNonNegative | app/src/main/java/com/example/exerciseapp/ui/screens/SitToStandCalibrationScreen.kt:117-119 | The box scale (min or max of the two canvas/image ratios) is never negative |
| FrameAnalysis.ScaledBoxProper | app/src/main/java/com/example/exerciseapp/ui/screens/SitToStandCalibrationScreen.kt:121-136 | A proper extent maps to a proper box |
| FrameAnalysis.DisplayBoxProper | app/src/main/java/com/example/exerciseapp/ui/screens/SitToStandCalibrationScreen.kt:116-138 | With a confident landmark the box exists, is proper and keeps its unmirrored width |
| FrameAnalysis.AverageArmAngle | app/src/main/java/com/example/exerciseapp/ui/screens/HandRaisingCalibrationScreen.kt:222-224 | The mean when both arm angles are present, the single present one otherwise, absent when both are missing |
| FrameAnalysis.LeftOrRightFallback | app/src/main/java/com/example/exerciseapp/ui/screens/SitToStandExerciseScreen.kt:180-190 | The right triple is used exactly when a landmark of the left triple is missing, and the angle is absent only when both sides are |
| FrameAnalysis.LeftOrRightAngleInRange | app/src/main/java/com/example/exerciseapp/ui/screens/SitToStandExerciseScreen.kt:180-190 | A hip or knee angle lies in [0, 360) |
| CalibrationHold.HoldEntry | app/src/main/java/com/example/exerciseapp/ui/screens/HandRaisingCalibrationScreen.kt:176-183 | Entering the zone without a hold starts one now with no exit recorded, and is GREEN |
| CalibrationHold.GracePeriod | app/src/main/java/com/example/exerciseapp/ui/screens/HandRaisingCalibrationScreen.kt:185-202 | Out of the zone while holding, the status stays GREEN while now − exit <= 750; past that the hold and timers are cleared, the status is RED and the grace expiry is reported |
| CalibrationHold.OutOfZoneWithoutHold | app/src/main/java/com/example/exerciseapp/ui/screens/HandRaisingCalibrationScreen.kt:203-207 | Out of the zone without a hold: RED, timers cleared |
| CalibrationHold.ReentryKeepsTimers | app/src/main/java/com/example/exerciseapp/ui/screens/HandRaisingCalibrationScreen.kt:176-183 | Re-entering during the grace period changes neither the hold start nor the exit time |
| CalibrationHold.GraceMeasuredFromFirstExit | app/src/main/java/com/example/exerciseapp/ui/screens/HandRaisingCalibrationScreen.kt:176-202 | Leaving, re-entering and leaving again measures the grace period from the first exit |
| CalibrationHold.NoCaptureOnExpiry | app/src/main/java/com/example/exerciseapp/ui/screens/HandRaisingCalibrationScreen.kt:191-213 | No capture is due on the frame where the grace period runs out, and a due capture means the hold is on, GREEN and at least 2000 ms old |
| CalibrationHold.HoldStepWellFormed | app/src/main/java/com/example/exerciseapp/ui/screens/SitToStandCalibrationScreen.kt:164-196 | Timers are only ever set while the hold is on, and a hold on means GREEN |
| CalibrationHold.CountdownAsWrittenOvercounts | app/src/main/java/com/example/exerciseapp/ui/screens/HandRaisingCalibrationScreen.kt:359-370 | The screen's countdown formula shows 3 at the start of a 2-second hold and 2 after one second |
| CalibrationHold.CountdownAsWrittenBounds | app/src/main/java/com/example/exerciseapp/ui/screens/HandRaisingCalibrationScreen.kt:362-369 | During the hold the screen's countdown lies in 1..3, is never below the remaining time and is a full second above it at every whole second; once the hold time has passed it is 0 |
| CalibrationHold.CountdownSecondsIsCeiling | app/src/main/java/com/example/exerciseapp/ui/screens/HandRaisingCalibrationScreen.kt:362-369 | The corrected countdown starts at the 2 seconds `startCalibration` sets (line 304), is the ceiling of the remaining seconds, and is 0 once the hold time has passed |
| HandRaisingCalibration.InitialCalibrationInvariant | app/src/main/java/com/example/exerciseapp/ui/screens/HandRaisingCalibrationScreen.kt:61-77 | The initial state satisfies the calibration invariant |
| HandRaisingCalibration.HoldFrameKeepsInvariant | app/src/main/java/com/example/exerciseapp/ui/screens/HandRaisingCalibrationScreen.kt:176-208 | The hysteresis keeps the invariant except that it may set the "interrupted" message, and only during a calibration |
| HandRaisingCalibration.CaptureStepRestoresInvariant | app/src/main/java/com/example/exerciseapp/ui/screens/HandRaisingCalibrationScreen.kt:210-277 | The capture branch always replaces that message and keeps the invariant |
| HandRaisingCalibration.FrameStepPreservesInvariant | app/src/main/java/com/example/exerciseapp/ui/screens/HandRaisingCalibrationScreen.kt:101-299 | Every frame keeps the invariant: Failed is never entered, a completed calibration has angles more than 40 apart, no stray timers, and the "interrupted" message is never left published |
| HandRaisingCalibration.ButtonsPreserveInvariant | app/src/main/java/com/example/exerciseapp/ui/screens/HandRaisingCalibrationScreen.kt:302-330 | Start, reset and countdown updates keep the invariant |
| HandRaisingCalibration.StartExerciseNeedsSeparatedAngles | app/src/main/java/com/example/exerciseapp/ui/screens/HandRaisingCalibrationScreen.kt:260-262 | The exercise button (enabled only in HandUpCalibrated, line 481) is enabled only with recorded angles more than 40 degrees apart |
| HandRaisingCalibration.GuardsAfterCompletion | app/src/main/java/com/example/exerciseapp/ui/screens/HandRaisingCalibrationScreen.kt:447-481 | Once complete, only the exercise button is enabled |
| HandRaisingCalibration.NoPoseFrame | app/src/main/java/com/example/exerciseapp/ui/screens/HandRaisingCalibrationScreen.kt:278-298 | A frame without a pose is RED with no pose and no box, clears the hold whatever it was, keeps the state and angles, and asks for the person only while calibrating |
| HandRaisingCalibration.FramesOutsideCalibrationKeepState | app/src/main/java/com/example/exerciseapp/ui/screens/HandRaisingCalibrationScreen.kt:210-277 | Outside the calibrating states a frame changes neither the state, the angles nor the message |
| HandRaisingCalibration.CaptureNeedsFullHold | app/src/main/java/com/example/exerciseapp/ui/screens/HandRaisingCalibrationScreen.kt:210-277 | The state or an angle changes only by a capture, which needs a pose, a calibrating state and a full 2000 ms hold; it happens on a GREEN frame and clears the hold |
| HandRaisingCalibration.HandsDownCapture | app/src/main/java/com/example/exerciseapp/ui/screens/HandRaisingCalibrationScreen.kt:213-237 | A due hands-down capture records the arm angle and moves to HandDownCalibrated, or goes to Idle without an angle; the hands-up angle is untouched |
| HandRaisingCalibration.HandsUpCapture | app/src/main/java/com/example/exerciseapp/ui/screens/HandRaisingCalibrationScreen.kt:242-273 | A due hands-up capture overwrites the hands-up angle and completes exactly when |down − up| > 40, else reverts to HandDownCalibrated; the hands-down angle is untouched |
| HandRaisingCalibration.CaptureNotDue | app/src/main/java/com/example/exerciseapp/ui/screens/HandRaisingCalibrationScreen.kt:211-241 | Before the hold is complete a calibrating frame only shows the stage's instruction |
| HandRaisingCalibration.ButtonOperations | app/src/main/java/com/example/exerciseapp/ui/screens/HandRaisingCalibrationScreen.kt:302-330 | Start enters the stage with countdown 2 and clears the hold; reset gives Idle with both angles 0; countdown updates change only calibrating states |
| HandRaisingCalibration.HandRaisingCalibrationViewModel.constructor | app/src/main/java/com/example/exerciseapp/ui/screens/HandRaisingCalibrationScreen.kt:57-77 | Starts Idle with the begin message, both angles 0 and no hold |
| HandRaisingCalibration.HandRaisingCalibrationViewModel.UpdateHold | app/src/main/java/com/example/exerciseapp/ui/screens/HandRaisingCalibrationScreen.kt:176-208 | Updates the three hold fields and the message as the hysteresis specifies, and returns the boundary status |
| HandRaisingCalibration.HandRaisingCalibrationViewModel.CaptureIfDue | app/src/main/java/com/example/exerciseapp/ui/screens/HandRaisingCalibrationScreen.kt:210-277 | Performs the capture branch of the current state |
| HandRaisingCalibration.HandRaisingCalibrationViewModel.CaptureHandsDown | app/src/main/java/com/example/exerciseapp/ui/screens/HandRaisingCalibrationScreen.kt:211-240 | The hands-down branch, as `CaptureStep` specifies it |
| HandRaisingCalibration.HandRaisingCalibrationViewModel.CaptureHandsUp | app/src/main/java/com/example/exerciseapp/ui/screens/HandRaisingCalibrationScreen.kt:240-275 | The hands-up branch, as `CaptureStep` specifies it |
| HandRaisingCalibration.HandRaisingCalibrationViewModel.ProcessImageProxy | app/src/main/java/com/example/exerciseapp/ui/screens/HandRaisingCalibrationScreen.kt:101-299 | One frame moves the state as `FrameStep` specifies, keeping the invariant |
| HandRaisingCalibration.HandRaisingCalibrationViewModel.StartCalibration | app/src/main/java/com/example/exerciseapp/ui/screens/HandRaisingCalibrationScreen.kt:302-310 | Enters the stage's calibrating state and clears the hold |
| HandRaisingCalibration.HandRaisingCalibrationViewModel.ResetCalibration | app/src/main/java/com/example/exerciseapp/ui/screens/HandRaisingCalibrationScreen.kt:312-320 | Returns to Idle with the begin message, both angles 0 and no hold |
| HandRaisingCalibration.HandRaisingCalibrationViewModel.UpdateCalibrationCountdown | app/src/main/java/com/example/exerciseapp/ui/screens/HandRaisingCalibrationScreen.kt:322-330 | Changes the countdown of a calibrating state and nothing else |
| HandRaisingCalibration.HandRaisingCalibrationViewModel.CountdownTick | app/src/main/java/com/example/exerciseapp/ui/screens/HandRaisingCalibrationScreen.kt:362-366 | One countdown tick stores the screen's remaining/1000 + 1 seconds, as written (bounds in `CountdownAsWrittenBounds`), and changes nothing but the countdown of a calibrating state |
| SitToStandCalibration.InitialCalibrationInvariant | app/src/main/java/com/example/exerciseapp/ui/screens/SitToStandCalibrationScreen.kt:45-61 | The initial state satisfies the calibration invariant |
| SitToStandCalibration.HoldFrameKeepsInvariant | app/src/main/java/com/example/exerciseapp/ui/screens/SitToStandCalibrationScreen.kt:164-196 | The hysteresis keeps the invariant except that it may set the "interrupted" message, and only during a calibration |
| SitToStandCalibration.CaptureStepRestoresInvariant | app/src/main/java/com/example/exerciseapp/ui/screens/SitToStandCalibrationScreen.kt:198-252 | The capture branch always replaces that message and keeps the invariant |
| SitToStandCalibration.FrameStepPreservesInvariant | app/src/main/java/com/example/exerciseapp/ui/screens/SitToStandCalibrationScreen.kt:89-274 | Every frame keeps the invariant: Failed is never entered, a completed calibration has a non-zero standing angle more than 10 above the sitting one, no stray timers, no published "interrupted" message |
| SitToStandCalibration.ButtonsPreserveInvariant | app/src/main/java/com/example/exerciseapp/ui/screens/SitToStandCalibrationScreen.kt:277-305 | Start, reset and countdown updates keep the invariant |
| SitToStandCalibration.StartExerciseNeedsSeparatedAngles | app/src/main/java/com/example/exerciseapp/ui/screens/SitToStandCalibrationScreen.kt:235-237 | The exercise button (enabled only in SittingCalibrated, line 461) is enabled only with standing != 0 and standing − sitting > 10 |
| SitToStandCalibration.GuardsAfterCompletion | app/src/main/java/com/example/exerciseapp/ui/screens/SitToStandCalibrationScreen.kt:427-461 | Once complete, only the exercise button is enabled |
| SitToStandCalibration.NoPoseFrame | app/src/main/java/com/example/exerciseapp/ui/screens/SitToStandCalibrationScreen.kt:253-273 | A frame without a pose is RED with no pose and no box, clears the hold, keeps the state and angles, and asks for the person only while calibrating |
| SitToStandCalibration.FramesOutsideCalibrationKeepState | app/src/main/java/com/example/exerciseapp/ui/screens/SitToStandCalibrationScreen.kt:198-252 | Outside the calibrating states a frame changes neither the state, the angles nor the message |
| SitToStandCalibration.CaptureNeedsFullHold | app/src/main/java/com/example/exerciseapp/ui/screens/SitToStandCalibrationScreen.kt:198-252 | The state or an angle changes only by a capture after a full 2000 ms hold on a GREEN frame; each capture attempt clears the hold |
| SitToStandCalibration.StandingCapture | app/src/main/java/com/example/exerciseapp/ui/screens/SitToStandCalibrationScreen.kt:201-219 | A due standing capture stores the hip angle and moves to StandingCalibrated, or goes to Idle without one; the sitting angle is untouched |
| SitToStandCalibration.SittingCapture | app/src/main/java/com/example/exerciseapp/ui/screens/SitToStandCalibrationScreen.kt:224-248 | A due sitting capture overwrites the sitting angle and completes exactly when standing != 0 and standing − sitting > 10, else reverts to StandingCalibrated; without a hip angle neither angle changes |
| SitToStandCalibration.CaptureNotDue | app/src/main/java/com/example/exerciseapp/ui/screens/SitToStandCalibrationScreen.kt:199-223 | Before the hold is complete a calibrating frame only shows the stage's instruction |
| SitToStandCalibration.ButtonOperations | app/src/main/java/com/example/exerciseapp/ui/screens/SitToStandCalibrationScreen.kt:277-305 | Start enters the stage with countdown 2 and clears the hold; reset gives Idle with both angles 0; countdown updates change only calibrating states |
| SitToStandCalibration.SitToStandCalibrationViewModel.constructor | app/src/main/java/com/example/exerciseapp/ui/screens/SitToStandCalibrationScreen.kt:41-61 | Starts Idle with the begin message, both angles 0 and no hold |
| SitToStandCalibration.SitToStandCalibrationViewModel.UpdateHold | app/src/main/java/com/example/exerciseapp/ui/screens/SitToStandCalibrationScreen.kt:164-196 | Updates the hold fields and the message as the hysteresis specifies, and returns the boundary status |
| SitToStandCalibration.SitToStandCalibrationViewModel.CaptureIfDue | app/src/main/java/com/example/exerciseapp/ui/screens/SitToStandCalibrationScreen.kt:198-252 | Performs the capture branch of the current state |
| SitToStandCalibration.SitToStandCalibrationViewModel.CaptureStanding | app/src/main/java/com/example/exerciseapp/ui/screens/SitToStandCalibrationScreen.kt:199-221 | The standing branch, as `CaptureStep` specifies it |
| SitToStandCalibration.SitToStandCalibrationViewModel.CaptureSitting | app/src/main/java/com/example/exerciseapp/ui/screens/SitToStandCalibrationScreen.kt:222-250 | The sitting branch, as `CaptureStep` specifies it |
| SitToStandCalibration.SitToStandCalibrationViewModel.ProcessImageProxy | app/src/main/java/com/example/exerciseapp/ui/screens/SitToStandCalibrationScreen.kt:89-274 | One frame moves the state as `FrameStep` specifies, keeping the invariant |
| SitToStandCalibration.SitToStandCalibrationViewModel.StartCalibration | app/src/main/java/com/example/exerciseapp/ui/screens/SitToStandCalibrationScreen.kt:277-285 | Enters the stage's calibrating state and clears the hold |
| SitToStandCalibration.SitToStandCalibrationViewModel.ResetCalibration | app/src/main/java/com/example/exerciseapp/ui/screens/SitToStandCalibrationScreen.kt:287-295 | Returns to Idle with the begin message, both angles 0 and no hold |
| SitToStandCalibration.SitToStandCalibrationViewModel.UpdateCalibrationCountdown | app/src/main/java/com/example/exerciseapp/ui/screens/SitToStandCalibrationScreen.kt:297-305 | Changes the countdown of a calibrating state and nothing else |
| SitToStandCalibration.SitToStandCalibrationViewModel.CountdownTick | app/src/main/java/com/example/exerciseapp/ui/screens/SitToStandCalibrationScreen.kt:348-352 | One countdown tick stores the screen's remaining/1000 + 1 seconds, as written (bounds in `CountdownAsWrittenBounds`), and changes nothing but the countdown of a calibrating state |
| HandRaisingExercise.InitialExerciseInvariant | app/src/main/java/com/example/exerciseapp/ui/screens/HandRaisingExerciseScreen.kt:59-81 | The initial state satisfies the exercise invariant |
| HandRaisingExercise.OperationsPreserveInvariant | app/src/main/java/com/example/exerciseapp/ui/screens/HandRaisingExerciseScreen.kt:109-264 | Frames and timer operations keep count and timers non-negative and ARMS_UP only with status ArmsUp |
| HandRaisingExercise.ZonesOverlapIff | app/src/main/java/com/example/exerciseapp/ui/screens/HandRaisingExerciseScreen.kt:83-86 | The closed ±20 zones share an angle exactly when the calibrated angles are at most 40 apart |
| HandRaisingExercise.CalibratedZonesDisjoint | app/src/main/java/com/example/exerciseapp/ui/screens/HandRaisingExerciseScreen.kt:83-86 | The angles of a completed calibration give disjoint zones |
| HandRaisingExercise.RepCountOnlyOnReturn | app/src/main/java/com/example/exerciseapp/ui/screens/HandRaisingExerciseScreen.kt:228-236 | The count rises by exactly one, only from ARMS_UP into the down zone, which returns to ARMS_DOWN/ArmsDown |
| HandRaisingExercise.RepTransitions | app/src/main/java/com/example/exerciseapp/ui/screens/HandRaisingExerciseScreen.kt:219-244 | ARMS_UP is entered only from ARMS_DOWN with an up-zone angle; IDLE is left only for a down-zone angle; the step touches no timer |
| HandRaisingExercise.FrameGating | app/src/main/java/com/example/exerciseapp/ui/screens/HandRaisingExerciseScreen.kt:216-249 | Count, status and machine change only on GREEN frames while the timer runs and an arm angle exists; frames never touch the timers |
| HandRaisingExercise.FramePublishes | app/src/main/java/com/example/exerciseapp/ui/screens/HandRaisingExerciseScreen.kt:198-263 | A frame publishes the detector's pose as it came, GREEN exactly in the green zone, the arm angle under "Arm", and no angle or box without a pose |
| HandRaisingExercise.TimerTicks | app/src/main/java/com/example/exerciseapp/ui/screens/HandRaisingExerciseScreen.kt:120-132 | Neither timer goes negative; a positive countdown drops by one, and at zero the tick stops the timer |
| HandRaisingExercise.NoCountAfterTimeUp | app/src/main/java/com/example/exerciseapp/ui/screens/HandRaisingExerciseScreen.kt:126-132 | After the countdown reached 0 the tick stops the timer, and no further frame counts (frames count only while the timer runs, line 216) |
| HandRaisingExercise.StartExercise | app/src/main/java/com/example/exerciseapp/ui/screens/HandRaisingExerciseScreen.kt:114-118 | Starting sets the timer running at 30 with the machine at ARMS_DOWN and the count untouched |
| HandRaisingExercise.RaisesCount | app/src/main/java/com/example/exerciseapp/ui/screens/HandRaisingExerciseScreen.kt:219-236 | From ARMS_DOWN, n raises at the calibrated angles count exactly n and end at ARMS_DOWN |
| HandRaisingExercise.RunNeverDecreases | app/src/main/java/com/example/exerciseapp/ui/screens/HandRaisingExerciseScreen.kt:228-236 | The count never decreases over any run of frames |
| HandRaisingExercise.RepStepSettles | app/src/main/java/com/example/exerciseapp/ui/screens/HandRaisingExerciseScreen.kt:219-244 | With disjoint zones, a second frame at the same angle changes nothing |
| HandRaisingExercise.HoldingStillCountsAtMostOne | app/src/main/java/com/example/exerciseapp/ui/screens/HandRaisingExerciseScreen.kt:219-244 | With disjoint zones, any number of frames at one angle count at most one repetition |
| HandRaisingExercise.HandRaisingExerciseViewModel.constructor | app/src/main/java/com/example/exerciseapp/ui/screens/HandRaisingExerciseScreen.kt:52-81 | Starts with count 0, ArmsDown, 30 s, stopped, 3 s preparation and IDLE, for the given calibrated angles |
| HandRaisingExercise.HandRaisingExerciseViewModel.StartPreparationTimer | app/src/main/java/com/example/exerciseapp/ui/screens/HandRaisingExerciseScreen.kt:109-112 | Sets the preparation to 3 and stops the timer |
| HandRaisingExercise.HandRaisingExerciseViewModel.StartExerciseTimer | app/src/main/java/com/example/exerciseapp/ui/screens/HandRaisingExerciseScreen.kt:114-118 | Runs the timer at 30 and arms the machine at ARMS_DOWN |
| HandRaisingExercise.HandRaisingExerciseViewModel.DecrementPreparationTime | app/src/main/java/com/example/exerciseapp/ui/screens/HandRaisingExerciseScreen.kt:120-124 | Decrements a positive preparation time |
| HandRaisingExercise.HandRaisingExerciseViewModel.DecrementCountdown | app/src/main/java/com/example/exerciseapp/ui/screens/HandRaisingExerciseScreen.kt:126-132 | Decrements a positive countdown, else stops the timer |
| HandRaisingExercise.HandRaisingExerciseViewModel.CountRepetition | app/src/main/java/com/example/exerciseapp/ui/screens/HandRaisingExerciseScreen.kt:219-244 | Applies the repetition machine to one arm angle |
| HandRaisingExercise.HandRaisingExerciseViewModel.ProcessImageProxy | app/src/main/java/com/example/exerciseapp/ui/screens/HandRaisingExerciseScreen.kt:134-264 | One frame moves the state as `FrameStep` specifies, keeping the invariant |
| SitToStandExercise.InitialExerciseInvariant | app/src/main/java/com/example/exerciseapp/ui/screens/SitToStandExerciseScreen.kt:51-68 | The initial state satisfies the exercise invariant |
| SitToStandExercise.OperationsPreserveInvariant | app/src/main/java/com/example/exerciseapp/ui/screens/SitToStandExerciseScreen.kt:86-238 | Frames and timer operations keep count and timers non-negative |
| SitToStandExercise.PositionsOverlapIff | app/src/main/java/com/example/exerciseapp/ui/screens/SitToStandExerciseScreen.kt:201-202 | Some hip angle is both standing (>= standing) and sitting (<= sitting) exactly when standing <= sitting |
| SitToStandExercise.CalibratedPositionsExclusive | app/src/main/java/com/example/exerciseapp/ui/screens/SitToStandExerciseScreen.kt:201-202 | With the angles of a completed calibration no hip angle is both |
| SitToStandExercise.RepCountOnlyOnStandUp | app/src/main/java/com/example/exerciseapp/ui/screens/SitToStandExerciseScreen.kt:204-217 | The count rises by exactly one, only from Sitting at a standing angle, which returns to Standing; from Standing only a sitting angle changes the status; no timer is touched |
| SitToStandExercise.FrameGating | app/src/main/java/com/example/exerciseapp/ui/screens/SitToStandExerciseScreen.kt:199-222 | Count and status change only on GREEN frames while the timer runs and a hip angle exists; frames never touch the timers |
| SitToStandExercise.PublishedAnglesContents | app/src/main/java/com/example/exerciseapp/ui/screens/SitToStandExerciseScreen.kt:192-197 | "Hip" and "Knee" are published exactly when computed, with their values, and nothing else |
| SitToStandExercise.FramePublishes | app/src/main/java/com/example/exerciseapp/ui/screens/SitToStandExerciseScreen.kt:176-236 | A frame publishes the detector's pose, GREEN exactly in the green zone, the left-or-right hip and knee angles, and nothing without a pose |
| SitToStandExercise.TimerTicks | app/src/main/java/com/example/exerciseapp/ui/screens/SitToStandExerciseScreen.kt:86-108 | Neither timer goes negative; a positive countdown drops by one, at zero the tick stops the timer; starting leaves count and status alone |
| SitToStandExercise.NoCountAfterTimeUp | app/src/main/java/com/example/exerciseapp/ui/screens/SitToStandExerciseScreen.kt:102-108 | After the countdown reached 0 the tick stops the timer, and no further frame counts (frames count only while the timer runs, line 199) |
| SitToStandExercise.OneSitToStand | app/src/main/java/com/example/exerciseapp/ui/screens/SitToStandExerciseScreen.kt:199-218 | From the initial Standing (line 54), [standing, sitting, standing] counts 1 and [standing] counts 0 |
| SitToStandExercise.SitToStandsCount | app/src/main/java/com/example/exerciseapp/ui/screens/SitToStandExerciseScreen.kt:204-217 | From Standing, n sit-to-stands count exactly n and end Standing |
| SitToStandExercise.RunNeverDecreases | app/src/main/java/com/example/exerciseapp/ui/screens/SitToStandExerciseScreen.kt:211-217 | The count never decreases over any run of frames |
| SitToStandExercise.HoldingStillCountsAtMostOne | app/src/main/java/com/example/exerciseapp/ui/screens/SitToStandExerciseScreen.kt:201-217 | With standing > sitting, any number of frames at one hip angle count at most one repetition |
| SitToStandExercise.SitToStandExerciseViewModel.constructor | app/src/main/java/com/example/exerciseapp/ui/screens/SitToStandExerciseScreen.kt:41-68 | Starts with count 0, Standing, 30 s, stopped and 3 s preparation, for the given calibrated angles |
| SitToStandExercise.SitToStandExerciseViewModel.StartPreparationTimer | app/src/main/java/com/example/exerciseapp/ui/screens/SitToStandExerciseScreen.kt:86-89 | Sets the preparation to 3 and stops the timer |
| SitToStandExercise.SitToStandExerciseViewModel.StartExerciseTimer | app/src/main/java/com/example/exerciseapp/ui/screens/SitToStandExerciseScreen.kt:91-94 | Runs the timer at 30 |
| SitToStandExercise.SitToStandExerciseViewModel.DecrementPreparationTime | app/src/main/java/com/example/exerciseapp/ui/screens/SitToStandExerciseScreen.kt:96-100 | Decrements a positive preparation time |
| SitToStandExercise.SitToStandExerciseViewModel.DecrementCountdown | app/src/main/java/com/example/exerciseapp/ui/screens/SitToStandExerciseScreen.kt:102-108 | Decrements a positive countdown, else stops the timer |
| SitToStandExercise.SitToStandExerciseViewModel.CountRepetition | app/src/main/java/com/example/exerciseapp/ui/screens/SitToStandExerciseScreen.kt:200-217 | Applies the repetition machine to one hip angle |
| SitToStandExercise.SitToStandExerciseViewModel.ProcessImageProxy | app/src/main/java/com/example/exerciseapp/ui/screens/SitToStandExerciseScreen.kt:110-238 | One frame moves the state as `FrameStep` specifies, keeping the invariant |
| FreeMovement.TrackedNamesDistinct | app/src/main/java/com/example/exerciseapp/ui/screens/FreeMovementTrackingScreen.kt:68-77 | The eight tracked joint names are pairwise different |
| FreeMovement.SmoothedSampleBetween | app/src/main/java/com/example/exerciseapp/ui/screens/FreeMovementTrackingScreen.kt:161-169 | A first sample is kept as it is; a later one gives 0.3·raw + 0.7·prev, between prev and raw |
| FreeMovement.RawAnglesContents | app/src/main/java/com/example/exerciseapp/ui/screens/FreeMovementTrackingScreen.kt:150-157 | The raw map has exactly the tracked names as keys, each with its own joint's angle |
| FreeMovement.SmoothNamesContents | app/src/main/java/com/example/exerciseapp/ui/screens/FreeMovementTrackingScreen.kt:159-171 | The smoothing pass publishes every name once with its smoothed value (or nothing for a missing raw angle), stores each smoothed value and keeps every other stored value |
| FreeMovement.InitialTrackingInvariant | app/src/main/java/com/example/exerciseapp/ui/screens/FreeMovementTrackingScreen.kt:34-79 | The initial state satisfies the tracking invariant |
| FreeMovement.OperationsPreserveInvariant | app/src/main/java/com/example/exerciseapp/ui/screens/FreeMovementTrackingScreen.kt:81-199 | Frames and resets keep the invariant: nothing smoothed before the latch, only tracked names stored or published, the pose published exactly on GREEN, never a box |
| FreeMovement.EntryRule | app/src/main/java/com/example/exerciseapp/ui/screens/FreeMovementTrackingScreen.kt:111-128 | Before the latch a frame is GREEN and latches exactly when all 21 joints have likelihood >= 0.85; it publishes no angles |
| FreeMovement.OngoingRule | app/src/main/java/com/example/exerciseapp/ui/screens/FreeMovementTrackingScreen.kt:129-147 | No frame clears the latch and a reset (line 196) does; after it a frame is GREEN exactly when the 6 lower joints have likelihood >= 0.2 |
| FreeMovement.LosingTrackClears | app/src/main/java/com/example/exerciseapp/ui/screens/FreeMovementTrackingScreen.kt:172-181 | A no-pose frame or a latched frame losing the lower body is RED and clears the smoothing map and the published angles |
| FreeMovement.TrackedFrame | app/src/main/java/com/example/exerciseapp/ui/screens/FreeMovementTrackingScreen.kt:149-171 | On a latched GREEN frame the published keys are exactly the eight names; per name, a missing raw angle publishes null and keeps the stored value, a first sample is kept, a later one lies between prev and raw |
| FreeMovement.TrackedRawAngle | app/src/main/java/com/example/exerciseapp/ui/screens/FreeMovementTrackingScreen.kt:150-157 | The raw angle under each name is the angle of that joint's own landmark triple from the table at lines 68-77 |
| FreeMovement.FreeMovementViewModel.constructor | app/src/main/java/com/example/exerciseapp/ui/screens/FreeMovementTrackingScreen.kt:34-79 | Starts unlatched with nothing smoothed |
| FreeMovement.FreeMovementViewModel.ComputeRawAngles | app/src/main/java/com/example/exerciseapp/ui/screens/FreeMovementTrackingScreen.kt:150-157 | The loop over the tracked joints fills the raw map as `RawAngles` specifies |
| FreeMovement.FreeMovementViewModel.SmoothAngles | app/src/main/java/com/example/exerciseapp/ui/screens/FreeMovementTrackingScreen.kt:159-171 | The loop over the raw map smooths and publishes as `SmoothNames` specifies |
| FreeMovement.FreeMovementViewModel.ProcessImageProxy | app/src/main/java/com/example/exerciseapp/ui/screens/FreeMovementTrackingScreen.kt:81-193 | One frame moves the state as `FrameStep` specifies, keeping the invariant |
| FreeMovement.FreeMovementViewModel.ResetTracking | app/src/main/java/com/example/exerciseapp/ui/screens/FreeMovementTrackingScreen.kt:195-199 | Drops the latch, the smoothed angles and the published snapshot |
| ExerciseCompleted.Buckets | app/src/main/java/com/example/exerciseapp/ui/screens/ExerciseCompletedScreen.kt:94-100 | Poor exactly for <= 4 (0 and negatives included), Average for 5..8, Good for 9..12, Excellent above 12 |
| ExerciseCompleted.RankCountsBoundsPassed | app/src/main/java/com/example/exerciseapp/ui/screens/ExerciseCompletedScreen.kt:95-100 | The verdict's rank is the number of bounds (4, 8, 12) the count exceeds |
| ExerciseCompleted.PerformanceMonotone | app/src/main/java/com/example/exerciseapp/ui/screens/ExerciseCompletedScreen.kt:95-100 | More repetitions never give a worse verdict |
| ExerciseCompleted.MessagesDistinguishBuckets | app/src/main/java/com/example/exerciseapp/ui/screens/ExerciseCompletedScreen.kt:96-99 | Each message begins with its bucket's name and the four messages are pairwise different |

## Left out

- Camera, detector and UI plumbing are not modelled: CameraX binding, the asynchronous ML Kit call, closing the image, Compose rendering, navigation and logging. A frame is the detector's answer plus the image and canvas sizes, the lens and the time.
- The `LaunchedEffect` polling loops of the screens are not modelled as loops: the preparation and exercise timers appear as the view-model methods they call, and the calibration countdown as one tick (`CountdownTick`) taking the elapsed milliseconds.
- Image sizes are required to be positive and canvas sizes non-negative (`Frame.WellSized`, and `sourceWidth > 0 && sourceHeight > 0` on `CameraUtils.TransformCoordinates`). A camera image always has positive sizes; with a zero image size the source's float division would give Infinity or NaN, which the model does not represent.
- Floating point is modelled by exact reals, with no rounding and no `toFloat()` narrowing of the calibrated angles when they are passed to the exercise screens.
- `atan2`/`Math.toDegrees`, `sqrt` and `PoseUtils.calculateVerticalAngle` are parameters: `calculateVerticalAngle` is called by the hand-raising screens but is not defined in `PoseUtils.kt`, so nothing is assumed about it.
- Instruction messages are an enumeration whose `InstructionText` holds the exact wording; nothing is proved about the wording.
- `ui/viewmodel/SitToStandExerciseViewModel.kt` is entirely commented out and is not modelled; the live sit-to-stand counter is the one in `SitToStandExerciseScreen.kt`.
- The `_jointAngles` flows of both exercise view-models are never written and are not modelled.
- The free-movement bounding loop (threshold 0.5) computes an extent that is never used, because the box is never assigned; the model publishes no box, which is what the code publishes.
- `Float.MIN_VALUE` starts the running maxima of the bounding loops. It is the smallest positive float, not the most negative one. The model keeps that constant (2^-149). So when every confident landmark has a coordinate at or below 0, the maximum stays at 2^-149 (`ExtentAttained`). Bounds and coordinates are exact reals, not rounded floats.
- The hip angle the sit-to-stand calibration measures on a capture is computed as a pure function of the pose (`HipAngle`) and passed into the capture methods.
- The calibration `Failed` state is declared and enables the first calibration button, but nothing assigns it. The model keeps it, and the invariant proves it unreachable.
- The intended design has a re-entry during the grace period resumes the hold and a grace expiry interrupts the calibration. The code keeps the first exit time on re-entry and never moves the calibration state on expiry; it only sets the "interrupted" message, which the capture branch overwrites later in the same frame, so it is never published. The model follows the code (`ReentryKeepsTimers`, `GraceMeasuredFromFirstExit`, `CaptureStepRestoresInvariant`).
- An exit time of 0 means "no exit recorded". A frame stamped at time 0 therefore cannot record an exit. The model keeps this sentinel.

## Findings

| source | as written | input that shows it | evidently intended | confidence | as-written member | corrected member |
|---|---|---|---|---|---|---|
| app/src/main/java/com/example/exerciseapp/ui/screens/HandRaisingCalibrationScreen.kt:364-365 (also app/src/main/java/com/example/exerciseapp/ui/screens/SitToStandCalibrationScreen.kt:350-351) | The countdown is `remaining / 1000 + 1` seconds whenever time remains. | At 0 ms elapsed of the 2000 ms hold the screen shows 3, although `startCalibration` sets 2 and only 2 seconds are left. At 1000 ms it shows 2 with 1 second left. | The ceiling of the remaining seconds: 2 at the start, 1 during the last second, 0 at the end. | not executed | CalibrationHold.CountdownAsWrittenOvercounts | CalibrationHold.CountdownSecondsIsCeiling |
