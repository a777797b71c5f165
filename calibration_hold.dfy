/** The green-zone hold shared by both calibration view-models: a capture needs the
    person to stay in the green zone for a 2000 ms hold, and a brief exit is forgiven
    for a 750 ms grace period. Also the countdown the calibration screens show while
    the hold runs. */
module CalibrationHold {
  import opened PoseModel

  const CalibrationHoldTimeMs: int := 2000
  const GreenZoneGracePeriodMs: int := 750

  /** The three hold fields: whether the green zone was reached, when the hold
      started, and when the person last left the zone (0 for "not out of the zone"). */
  datatype Hold = Hold(achieved: bool, holdStartTime: int, exitTime: int)

  const ClearedHold: Hold := Hold(false, 0, 0)

  /** The hold fields after a frame, the boundary status it publishes, and whether
      the grace period ran out on this frame. */
  datatype HoldOutcome = HoldOutcome(hold: Hold, status: BoundaryStatus, graceExpired: bool)

  /** One frame of the hysteresis, given whether the frame is in the green zone. */
  function HoldStep(h: Hold, inGreenZone: bool, now: int): HoldOutcome
  {
    if inGreenZone then
      HoldOutcome(if !h.achieved then Hold(true, now, 0) else h, Green, false)
    else if h.achieved then
      var exitTime := if h.exitTime == 0 then now else h.exitTime;
      if now - exitTime > GreenZoneGracePeriodMs then HoldOutcome(ClearedHold, Red, true)
      else HoldOutcome(Hold(true, h.holdStartTime, exitTime), Green, false)
    else
      HoldOutcome(ClearedHold, Red, false)
  }

  /** A capture is due once the hold has lasted the full hold time. */
  predicate CaptureDue(h: Hold, now: int)
  {
    h.achieved && now - h.holdStartTime >= CalibrationHoldTimeMs
  }

  /** Timers are only set while the hold is on. */
  predicate HoldWellFormed(h: Hold)
  {
    !h.achieved ==> h.holdStartTime == 0 && h.exitTime == 0
  }

  /** Entering the green zone without a hold starts one now, with no exit recorded,
      and publishes GREEN. */
  lemma HoldEntry(h: Hold, now: int)
    requires !h.achieved
    ensures HoldStep(h, true, now).hold == Hold(true, now, 0)
    ensures HoldStep(h, true, now).status == Green
    ensures !HoldStep(h, true, now).graceExpired
  {
  }

  /** Out of the zone while holding, the status stays GREEN exactly while the time
      since the (first) exit is at most the grace period; once it is strictly more,
      the hold and both timers are cleared and the status turns RED. */
  lemma GracePeriod(h: Hold, now: int)
    requires h.achieved
    ensures var exitTime := if h.exitTime == 0 then now else h.exitTime;
      (HoldStep(h, false, now).status == Green <==> now - exitTime <= 750) &&
      (HoldStep(h, false, now).graceExpired <==> now - exitTime > 750) &&
      (HoldStep(h, false, now).graceExpired ==> HoldStep(h, false, now).hold == ClearedHold) &&
      (!HoldStep(h, false, now).graceExpired ==> HoldStep(h, false, now).hold == Hold(true, h.holdStartTime, exitTime))
  {
  }

  /** Out of the zone without a hold the status is RED and the timers are cleared. */
  lemma OutOfZoneWithoutHold(h: Hold, now: int)
    requires !h.achieved
    ensures HoldStep(h, false, now) == HoldOutcome(ClearedHold, Red, false)
  {
  }

  /** Coming back into the zone during the grace period changes nothing: the
      recorded exit is not cleared and the hold does not restart. */
  lemma ReentryKeepsTimers(h: Hold, now: int)
    requires h.achieved
    ensures HoldStep(h, true, now).hold == h
    ensures HoldStep(h, true, now).status == Green
  {
  }

  /** Leave at `t0`, come back at `t1`, leave again at `t2`: the grace period of the
      second exit is still measured from `t0`, however long the person was back in
      the zone. (A first exit at time 0 would be recorded as "no exit".) */
  lemma GraceMeasuredFromFirstExit(h: Hold, t0: int, t1: int, t2: int)
    requires h.achieved && h.exitTime == 0 && t0 != 0
    ensures var o0 := HoldStep(h, false, t0);
      var o1 := HoldStep(o0.hold, true, t1);
      var o2 := HoldStep(o1.hold, false, t2);
      o1.hold == Hold(true, h.holdStartTime, t0) &&
      (o2.status == Green <==> t2 - t0 <= 750)
  {
    GracePeriod(h, t0);
    ReentryKeepsTimers(HoldStep(h, false, t0).hold, t1);
    GracePeriod(Hold(true, h.holdStartTime, t0), t2);
  }

  /** No capture can fire on the frame where the grace period runs out, because the
      hold is cleared first; and a capture needs the hold to have started at least
      2000 ms earlier. */
  lemma NoCaptureOnExpiry(h: Hold, inGreenZone: bool, now: int)
    ensures HoldStep(h, inGreenZone, now).graceExpired ==> !CaptureDue(HoldStep(h, inGreenZone, now).hold, now)
    ensures CaptureDue(HoldStep(h, inGreenZone, now).hold, now) ==>
      HoldStep(h, inGreenZone, now).status == Green &&
      now - HoldStep(h, inGreenZone, now).hold.holdStartTime >= 2000
  {
  }

  /** The hysteresis never leaves timers behind without a hold. */
  lemma HoldStepWellFormed(h: Hold, inGreenZone: bool, now: int)
    requires HoldWellFormed(h)
    ensures HoldWellFormed(HoldStep(h, inGreenZone, now).hold)
    ensures HoldStep(h, inGreenZone, now).hold.achieved ==> HoldStep(h, inGreenZone, now).status == Green
  {
  }

  /** The countdown seconds as the calibration screens compute them from the time
      elapsed since the hold became visible. */
  function CountdownSecondsAsWritten(elapsedMs: int): int
  {
    var remainingMillis := CalibrationHoldTimeMs - elapsedMs;
    if remainingMillis > 0 then remainingMillis / 1000 + 1 else 0
  }

  /** The countdown as written starts at 3 for a 2-second hold, one more than the
      2 that starting a calibration shows, and shows 2 when only 1000 ms remain. */
  lemma CountdownAsWrittenOvercounts()
    ensures CalibrationHoldTimeMs / 1000 == 2
    ensures CountdownSecondsAsWritten(0) == 3
    ensures CountdownSecondsAsWritten(1000) == 2
  {
  }

  /** What the screen's formula stores during a hold: one more than the remaining whole
      seconds, so it lies in 1..3, never below the remaining time and a full second
      above it at every whole second (including the start); once the hold time has
      passed it is 0. */
  lemma CountdownAsWrittenBounds(elapsedMs: int)
    ensures 0 <= elapsedMs < CalibrationHoldTimeMs ==>
      1 <= CountdownSecondsAsWritten(elapsedMs) <= 3 &&
      (CountdownSecondsAsWritten(elapsedMs) - 1) * 1000 <= CalibrationHoldTimeMs - elapsedMs < CountdownSecondsAsWritten(elapsedMs) * 1000
    ensures 0 <= elapsedMs < CalibrationHoldTimeMs && (CalibrationHoldTimeMs - elapsedMs) % 1000 == 0 ==>
      CountdownSecondsAsWritten(elapsedMs) * 1000 == CalibrationHoldTimeMs - elapsedMs + 1000
    ensures elapsedMs >= CalibrationHoldTimeMs ==> CountdownSecondsAsWritten(elapsedMs) == 0
  {
  }

  /** The countdown rounded up: the whole seconds still needed to finish the hold. */
  function CountdownSeconds(elapsedMs: int): int
  {
    var remainingMillis := CalibrationHoldTimeMs - elapsedMs;
    if remainingMillis > 0 then (remainingMillis + 999) / 1000 else 0
  }

  /** The corrected countdown is the ceiling of the remaining seconds: it starts at the
      2 that starting a calibration shows, stays within 1..2 during the hold, and is 0
      once the hold time has passed. */
  lemma CountdownSecondsIsCeiling(elapsedMs: int)
    ensures CountdownSeconds(0) == CalibrationHoldTimeMs / 1000
    ensures 0 <= elapsedMs < CalibrationHoldTimeMs ==>
      1 <= CountdownSeconds(elapsedMs) <= 2 &&
      (CountdownSeconds(elapsedMs) - 1) * 1000 < CalibrationHoldTimeMs - elapsedMs <= CountdownSeconds(elapsedMs) * 1000
    ensures elapsedMs >= CalibrationHoldTimeMs ==> CountdownSeconds(elapsedMs) == 0
  {
  }

  /** What a calibration screen publishes after a frame: the pose only when GREEN,
      never any joint angles, and the box computed on this frame. */
  function CalibrationUiState(status: BoundaryStatus, f: Frame, box: Option<Rect>): PoseUiState
  {
    PoseUiState(if status == Green then f.detected else None, f.imageWidth, f.imageHeight, map[], status, box)
  }
}
