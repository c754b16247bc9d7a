/**
 * The `MotorMapping` experiment object (experiment.py, lines 36-413): the phase
 * and mapping chosen at the start of each block, the trial factors and event
 * tickets drawn before each trial, and the trial loop itself, written as
 * `trial()` writes it (locals updated frame by frame) and proved to compute
 * the outcome that `Results.TrialOf` specifies.
 */
module Experiment {
  import opened Wrappers
  import opened Screen
  import opened Schedule
  import opened TrialStep
  import opened TrialRuns
  import opened Results

  /** The three entries of `block_sequence`. */
  datatype Phase = Practice | Training | Test

  /**
   * `["practice", "training", "test"][block_number - 1]` with Python list
   * indexing: an index from -3 to -1 counts from the end, any other index
   * outside 0..2 raises IndexError (`None` here).
   */
  function PhaseOf(blockNumber: int): (r: Option<Phase>)
    ensures r.Some? <==> -2 <= blockNumber <= 3
    ensures 1 <= blockNumber <= 3 ==> r.Some? && (r.value == Practice <==> blockNumber == 1)
    ensures 1 <= blockNumber <= 3 ==> r.Some? && (r.value == Test <==> blockNumber == 3)
  {
    var sequence := [Practice, Training, Test];
    var index := blockNumber - 1;
    if 0 <= index < 3 then Some(sequence[index])
    else if -3 <= index < 0 then Some(sequence[3 + index])
    else None
  }

  /** Block numbers 0, -1 and -2 index from the end and repeat blocks 3, 2 and 1. */
  lemma NegativeBlockNumbersWrap(blockNumber: int)
    requires -2 <= blockNumber <= 0
    ensures PhaseOf(blockNumber) == PhaseOf(blockNumber + 3)
  {
  }

  /**
   * The joystick mapping and trial type a phase runs with: practice and test
   * are always physical practice, only training uses the participant's
   * condition, and only test uses the test mapping.
   */
  function BlockSettings(phase: Phase, condition: TrialType, trainingMapping: Mapping, testMapping: Mapping): (s: (Mapping, TrialType))
    ensures s.0 == testMapping || s.0 == trainingMapping
    ensures phase == Test ==> s.0 == testMapping
    ensures phase != Test ==> s.0 == trainingMapping
    ensures s.1 == PP || s.1 == condition
    ensures phase != Training ==> s.1 == PP
    ensures phase == Training ==> s.1 == condition
  {
    match phase
    case Practice => (trainingMapping, PP)
    case Training => (trainingMapping, condition)
    case Test => (testMapping, PP)
  }

  class MotorMapping {
    /** `P.screen_c`. */
    const centre: Point
    /** `self.cursor_size`, in pixels. */
    const cursorSize: nat
    /** `self.target_dist_min`, in pixels. */
    const targetDistMin: int
    /** `self.target_dist_max`, in pixels: the cursor's reach at full deflection. */
    const targetDistMax: nat

    var phase: Phase
    var joystickMap: Mapping
    var trialType: TrialType
    var targetDist: int
    var targetAngle: int
    var targetLoc: Point
    var targetOnset: int
    /** The event manager's tickets for the current trial, in ms of trial time. */
    var tickets: map<Ticket, int>

    /** Lines 44-47: the layout constants; no block or trial has been set up yet. */
    constructor (centre: Point, cursorSize: nat, targetDistMin: int, targetDistMax: nat)
      ensures this.centre == centre && this.cursorSize == cursorSize
      ensures this.targetDistMin == targetDistMin && this.targetDistMax == targetDistMax
      ensures phase == Practice && joystickMap == Normal && trialType == PP
      ensures tickets == map[]
    {
      this.centre := centre;
      this.cursorSize := cursorSize;
      this.targetDistMin := targetDistMin;
      this.targetDistMax := targetDistMax;
      phase := Practice;
      joystickMap := Normal;
      trialType := PP;
      targetDist := 0;
      targetAngle := 0;
      targetLoc := centre;
      targetOnset := 0;
      tickets := map[];
    }

    /**
     * Lines 127-140: pick the block's phase from its number and set the
     * mapping and trial type for it. On an IndexError nothing is set.
     */
    method Block(blockNumber: int, condition: TrialType, trainingMapping: Mapping, testMapping: Mapping)
      returns (ok: bool)
      modifies this
      ensures ok <==> PhaseOf(blockNumber).Some?
      ensures ok ==> phase == PhaseOf(blockNumber).value
      ensures ok ==> (joystickMap, trialType) == BlockSettings(phase, condition, trainingMapping, testMapping)
      ensures !ok ==> phase == old(phase) && joystickMap == old(joystickMap) && trialType == old(trialType)
      ensures targetDist == old(targetDist) && targetAngle == old(targetAngle) && targetLoc == old(targetLoc)
      ensures targetOnset == old(targetOnset) && tickets == old(tickets)
    {
      var found := PhaseOf(blockNumber);
      if found.None? {
        return false;
      }
      phase := found.value;
      if phase == Practice {
        joystickMap := trainingMapping;
        trialType := PP;
      } else if phase == Training {
        joystickMap := trainingMapping;
        trialType := condition;
      } else {
        joystickMap := testMapping;
        trialType := PP;
      }
      return true;
    }

    /**
     * Lines 157-167: store the trial factors drawn by `randrange` and register
     * the onset ticket and the timeout ticket 15 s after it. The draws and the
     * target location (computed by trigonometry) are parameters.
     */
    method TrialPrep(dist: int, angle: int, loc: Point, onset: int)
      requires Drawable(dist, targetDistMin, targetDistMax, 1)
      requires Drawable(angle, 0, 360, 1)
      requires Drawable(onset, ONSET_START, ONSET_STOP, ONSET_STEP)
      modifies this
      ensures targetDist == dist && targetAngle == angle && targetLoc == loc && targetOnset == onset
      ensures tickets == old(tickets)[TargetOn := onset][Timeout := TimeoutTicket(onset)]
      ensures phase == old(phase) && joystickMap == old(joystickMap) && trialType == old(trialType)
    {
      targetDist := dist;
      targetAngle := angle;
      targetLoc := loc;
      targetOnset := onset;
      tickets := tickets[TargetOn := onset];
      tickets := tickets[Timeout := onset + TIMEOUT_AFTER_ONSET];
    }

    /** Both tickets of the trial are registered. */
    predicate Prepared()
      reads this
    {
      TargetOn in tickets && Timeout in tickets
    }

    /** What the trial loop reads from the object. */
    function Config(): (c: TrialConfig)
      reads this
      requires Prepared()
      ensures c.onsetTicket == tickets[TargetOn] && c.timeoutTicket == tickets[Timeout]
      ensures c.trialType == trialType && c.mapping == joystickMap && c.centre == centre
    {
      TrialConfig(trialType, joystickMap, centre, targetDistMax, cursorSize, targetLoc,
                  tickets[TargetOn], tickets[Timeout], targetOnset, targetDist, targetAngle)
    }

    /**
     * Lines 179-339: the trial loop over the frames it is given, followed by
     * the outcome record. It computes exactly what the frame-by-frame
     * specification does.
     */
    method Trial(frames: seq<Frame>) returns (result: TrialResult)
      requires Prepared()
      ensures result == TrialOf(Config(), frames)
    {
      var c := Config();
      var v := Init();
      var status := Running;
      var i := 0;
      while i < |frames| && status == Running
        invariant 0 <= i <= |frames|
        invariant Run(c, frames[..i]) == (v, status)
      {
        assert frames[..i + 1][..i] == frames[..i];
        v, status := Pass(c, v, frames[i]);
        i := i + 1;
      }
      if status != Running {
        RunStopped(c, frames, i);
      } else {
        assert frames[..i] == frames;
      }
      result := Conclude(c, (v, status));
    }
  }

  /**
   * Lines 200-300: one pass of the trial loop, from the timeout test to the
   * response check, over the loop's locals `v`.
   */
  method Pass(c: TrialConfig, v: Vars, f: Frame) returns (w: Vars, status: Status)
    ensures (w, status) == Advance(c, v, f)
  {
    w, status := v, Running;
    if !Before(f.loopMs, c.timeoutTicket) {
      return w, TimedOut;
    }
    var (modX, modY) := Mods(c.mapping);
    var cursor := Point(c.centre.x + AxisOffset(f.jx, c.targetDistMax, modX),
                        c.centre.y + AxisOffset(f.jy, c.targetDistMax, modY));
    var released := f.lt < RELEASED_BELOW && f.rt < RELEASED_BELOW;
    assert cursor == Cursor(c, f);
    var movement := DistSq(cursor, c.centre);
    if Truthy(w.targetOn) && !Truthy(w.movementRt) && movement > 0 {
      w := w.(movementRt := Some(f.inputTime - w.targetOn.value), initialAngle := Some(f.angle));
    }
    assert w == LatchMovement(c, v, f, cursor);
    var e := NA;
    if movement > c.cursorSize * c.cursorSize {
      if c.trialType == MI {
        e := StickMI;
      } else if c.trialType == CC {
        e := StickCC;
      } else if !Truthy(w.targetOn) {
        e := TooSoon;
      }
    }
    if Before(f.checkMs, c.onsetTicket) && !released {
      e := TooSoon;
    }
    assert e == FrameError(c, v, f);
    w := w.(err := Some(e));
    if e != NA {
      return w, if Truthy(w.targetOn) then ErrorEnded else Recycled;
    }
    ghost var latched := w;
    assert latched == LatchMovement(c, v, f, cursor).(err := Some(NA));
    if Truthy(w.targetOn) && movement > 0 {
      if cursor.x != w.lastX || cursor.y != w.lastY {
        w := w.(axisData := w.axisData + [Sample(ElapsedMs(w.targetOn.value, f.inputTime), cursor.x, cursor.y)]);
      }
      w := w.(lastX := cursor.x, lastY := cursor.y);
    }
    assert w == LogSample(c, latched, f, cursor);
    if !Truthy(w.targetOn) && !Before(f.stampMs, c.onsetTicket) {
      w := w.(targetOn := Some(f.onsetClock));
    }
    assert w == StampOnset(c, LogSample(c, latched, f, cursor), f);
    assert Advance(c, v, f) == Track(c, w, f, cursor);
    w, status := TrackTarget(c, w, f, cursor);
  }

  /**
   * Lines 280-300: latch the first contact with the target, track whether the
   * cursor rests on it with the triggers released, and take a trigger press as
   * the response when responding is allowed.
   */
  method TrackTarget(c: TrialConfig, v: Vars, f: Frame, cursor: Point) returns (w: Vars, status: Status)
    ensures (w, status) == Track(c, v, f, cursor)
  {
    w, status := v, Running;
    if 4 * DistSq(cursor, c.targetLoc) < c.cursorSize * c.cursorSize {
      if !Truthy(w.contactRt) {
        if w.targetOn.None? {
          return w, Crashed;
        }
        w := w.(contactRt := Some(f.contactClock - w.targetOn.value));
      }
      if !w.overTarget && f.lt < RELEASED_BELOW && f.rt < RELEASED_BELOW {
        w := w.(overTarget := true);
      }
    } else {
      w := w.(overTarget := false);
    }
    if (w.overTarget || c.trialType != PP) && (f.lt > PRESSED_ABOVE || f.rt > PRESSED_ABOVE) {
      if w.targetOn.None? {
        return w, Crashed;
      }
      w := w.(responseRt := Some(f.responseClock - w.targetOn.value));
      status := Responded;
    }
  }
}
