/**
 * The per-frame decision logic of `MotorMapping.trial` (experiment.py, lines
 * 179-300) as a specification: `Step` is one pass of the loop body, `Advance`
 * adds the loop test, and `Run` folds a sequence of frames. Everything the loop
 * reads from the outside world in a frame (trigger pressures, stick position,
 * the event manager's elapsed trial time, the precise clock) is a field of
 * `Frame`.
 *
 * Python truthiness is kept: a latch is "unset" when it is `None` or zero, so a
 * latched zero is latched again. Subtracting a target onset that is still
 * `None` raises TypeError in experiment.py; here it ends the run as `Crashed`.
 */
module TrialStep {
  import opened Wrappers
  import opened Screen
  import opened Schedule

  /** A trigger pressure below this counts as released. */
  const RELEASED_BELOW: real := 0.2

  /** A trigger pressure above this counts as a response. */
  const PRESSED_ABOVE: real := 0.5

  /** Physical practice (move onto the target), motor imagery, and choice-only control. */
  datatype TrialType = PP | MI | CC

  /** The values of the loop's `err` variable. */
  datatype ErrCode = NA | TooSoon | StickMI | StickCC

  /** What the trial reads from the experiment object. */
  datatype TrialConfig = TrialConfig(
    trialType: TrialType,
    mapping: Mapping,
    centre: Point,
    targetDistMax: nat,
    cursorSize: nat,
    targetLoc: Point,
    onsetTicket: int,
    timeoutTicket: int,
    targetOnset: int,
    targetDist: int,
    targetAngle: int)

  /** Everything one iteration of the loop reads from outside. */
  datatype Frame = Frame(
    loopMs: real,         // elapsed trial time at `while self.evm.before('timeout')`
    lt: real,             // left trigger pressure from get_triggers
    rt: real,             // right trigger pressure from get_triggers
    jx: real,             // stick x from get_stick_position
    jy: real,             // stick y from get_stick_position
    inputTime: real,      // precise_time() just after the input is read
    angle: real,          // vector_angle from the centre to this frame's cursor
    checkMs: real,        // elapsed trial time at `self.evm.before('target_on')`
    stampMs: real,        // elapsed trial time at `self.evm.after('target_on')`
    onsetClock: real,     // precise_time() when the onset is stamped
    contactClock: real,   // precise_time() when contact is latched
    responseClock: real)  // precise_time() when the response is taken

  /** One logged cursor sample: milliseconds since target onset and the cursor position. */
  datatype Sample = Sample(ms: int, x: int, y: int)

  /** The loop's local variables. `err` is `None` until the first pass binds it. */
  datatype Vars = Vars(
    targetOn: Option<real>,
    movementRt: Option<real>,
    initialAngle: Option<real>,
    contactRt: Option<real>,
    responseRt: Option<real>,
    overTarget: bool,
    lastX: int,
    lastY: int,
    axisData: seq<Sample>,
    err: Option<ErrCode>)

  /**
   * How a loop iteration ended: still looping, the timeout ticket fired, an
   * error before onset (TrialException, the trial is recycled), an error after
   * onset (`break`), a response (`break`), or a TypeError.
   */
  datatype Status = Running | TimedOut | Recycled | ErrorEnded | Responded | Crashed

  /** Python truthiness of a number-or-None. */
  predicate Truthy(o: Option<real>)
  {
    o.Some? && o.value != 0.0
  }

  predicate Released(f: Frame)
  {
    f.lt < RELEASED_BELOW && f.rt < RELEASED_BELOW
  }

  predicate Pressed(f: Frame)
  {
    f.lt > PRESSED_ABOVE || f.rt > PRESSED_ABOVE
  }

  function Cursor(c: TrialConfig, f: Frame): Point
  {
    CursorPos(c.centre, f.jx, f.jy, c.targetDistMax, c.mapping)
  }

  /** `cursor_movement > 0`. */
  predicate OffCentre(c: TrialConfig, p: Point)
  {
    DistSq(p, c.centre) > 0
  }

  /** `cursor_movement > self.cursor_size`. */
  predicate BeyondCursor(c: TrialConfig, p: Point)
  {
    DistSq(p, c.centre) > c.cursorSize * c.cursorSize
  }

  /** `dist_to_target < self.cursor_size / 2`. */
  predicate OnTarget(c: TrialConfig, p: Point)
  {
    4 * DistSq(p, c.targetLoc) < c.cursorSize * c.cursorSize
  }

  /** `int((t - t0) * 1000)`. */
  function ElapsedMs(t0: real, t: real): int
  {
    TruncToZero((t - t0) * 1000.0)
  }

  /** The locals as the loop first sees them. */
  function Init(): Vars
  {
    Vars(None, None, None, None, None, false, -1, -1, [], None)
  }

  /**
   * The frame's error classification. A trigger off its rest position before
   * the onset ticket fires is "too_soon" whatever the stick does; otherwise only
   * a cursor beyond its own size from the centre is an error: "stick_mi" under
   * MI, "stick_cc" under CC, and "too_soon" under PP while the onset is unstamped.
   */
  function Classify(t: TrialType, shown: bool, beyond: bool, beforeOnset: bool, released: bool): (e: ErrCode)
    ensures e == TooSoon <==> (beforeOnset && !released) || (t == PP && beyond && !shown)
    ensures e == StickMI <==> t == MI && beyond && !(beforeOnset && !released)
    ensures e == StickCC <==> t == CC && beyond && !(beforeOnset && !released)
  {
    var moveErr :=
      if beyond then
        match t
        case MI => StickMI
        case CC => StickCC
        case PP => if !shown then TooSoon else NA
      else NA;
    if beforeOnset && !released then TooSoon else moveErr
  }

  /**
   * Lines 253-264: the sample logger. Before onset and on centre frames nothing
   * changes; otherwise `(last_x, last_y)` follows the cursor and a sample is
   * appended exactly when the cursor differs from it, stamped with the
   * milliseconds since onset.
   */
  function LogSample(c: TrialConfig, v: Vars, f: Frame, p: Point): (w: Vars)
    ensures !(Truthy(v.targetOn) && OffCentre(c, p)) ==> w == v
    ensures Truthy(v.targetOn) && OffCentre(c, p) ==> w.lastX == p.x && w.lastY == p.y
    ensures w == v.(lastX := w.lastX, lastY := w.lastY, axisData := w.axisData)
    ensures v.axisData <= w.axisData && |w.axisData| <= |v.axisData| + 1
    ensures |w.axisData| > |v.axisData| <==> Truthy(v.targetOn) && OffCentre(c, p) && (p.x != v.lastX || p.y != v.lastY)
    ensures |w.axisData| > |v.axisData| ==> w.axisData[|v.axisData|] == Sample(ElapsedMs(v.targetOn.value, f.inputTime), p.x, p.y)
  {
    if Truthy(v.targetOn) && OffCentre(c, p) then
      var data :=
        if p.x != v.lastX || p.y != v.lastY
        then v.axisData + [Sample(ElapsedMs(v.targetOn.value, f.inputTime), p.x, p.y)]
        else v.axisData;
      v.(axisData := data, lastX := p.x, lastY := p.y)
    else v
  }

  /**
   * Lines 281-300: contact latch, over-target tracking, and the response gate.
   * Only `contact_rt`, `over_target` and `response_rt` can change; a response
   * needs a pressed trigger and is timed from the onset; a TypeError needs an
   * onset that was never stamped.
   */
  function Track(c: TrialConfig, v: Vars, f: Frame, p: Point): (r: (Vars, Status))
    ensures r.1 in {Running, Responded, Crashed}
    ensures r.0 == v.(contactRt := r.0.contactRt, overTarget := r.0.overTarget, responseRt := r.0.responseRt)
    ensures r.1 != Responded ==> r.0.responseRt == v.responseRt
    ensures r.1 == Responded ==> Pressed(f) && v.targetOn.Some? && r.0.responseRt == Some(f.responseClock - v.targetOn.value)
    ensures r.1 == Crashed ==> v.targetOn.None?
  {
    var on := OnTarget(c, p);
    var contact := on && !Truthy(v.contactRt);
    if contact && v.targetOn.None? then (v, Crashed)
    else
      var v1 := if contact then v.(contactRt := Some(f.contactClock - v.targetOn.value)) else v;
      var v2 := v1.(overTarget := on && (v.overTarget || Released(f)));
      if (v2.overTarget || c.trialType != PP) && Pressed(f) then
        if v2.targetOn.None? then (v2, Crashed)
        else (v2.(responseRt := Some(f.responseClock - v2.targetOn.value)), Responded)
      else (v2, Running)
  }

  /** Lines 220-222: latch `movement_rt` and `initial_angle` on the first frame off centre after onset. */
  function LatchMovement(c: TrialConfig, v: Vars, f: Frame, p: Point): (w: Vars)
    ensures w == v.(movementRt := w.movementRt, initialAngle := w.initialAngle)
    ensures Truthy(v.movementRt) || !Truthy(v.targetOn) || !OffCentre(c, p) ==> w == v
    ensures Truthy(v.targetOn) && !Truthy(v.movementRt) && OffCentre(c, p) ==>
      w.movementRt == Some(f.inputTime - v.targetOn.value) && w.initialAngle == Some(f.angle)
  {
    if Truthy(v.targetOn) && !Truthy(v.movementRt) && OffCentre(c, p)
    then v.(movementRt := Some(f.inputTime - v.targetOn.value), initialAngle := Some(f.angle))
    else v
  }

  /** Lines 223-233: this frame's `err`. */
  function FrameError(c: TrialConfig, v: Vars, f: Frame): (e: ErrCode)
    ensures Before(f.checkMs, c.onsetTicket) && !Released(f) ==> e == TooSoon
    ensures !(Before(f.checkMs, c.onsetTicket) && !Released(f)) && !BeyondCursor(c, Cursor(c, f)) ==> e == NA
    ensures !(Before(f.checkMs, c.onsetTicket) && !Released(f)) && c.trialType == PP && Truthy(v.targetOn) ==> e == NA
  {
    Classify(c.trialType, Truthy(v.targetOn), BeyondCursor(c, Cursor(c, f)),
             Before(f.checkMs, c.onsetTicket), Released(f))
  }

  /** Lines 277-278: stamp the onset on the first frame the `target_on` ticket has fired at this point. */
  function StampOnset(c: TrialConfig, v: Vars, f: Frame): (w: Vars)
    ensures w == v.(targetOn := w.targetOn)
    ensures Truthy(v.targetOn) || Before(f.stampMs, c.onsetTicket) ==> w == v
    ensures !Truthy(v.targetOn) && !Before(f.stampMs, c.onsetTicket) ==> w.targetOn == Some(f.onsetClock)
  {
    if !Truthy(v.targetOn) && !Before(f.stampMs, c.onsetTicket) then v.(targetOn := Some(f.onsetClock)) else v
  }

  /** One pass of the loop body (lines 209-300). */
  function Step(c: TrialConfig, v: Vars, f: Frame): (r: (Vars, Status))
    ensures r.1 != TimedOut && r.0.err.Some?
    ensures r.0.err == Some(NA) <==> r.1 in {Running, Responded, Crashed}
    ensures r.1 == Recycled ==> !Truthy(v.targetOn)
    ensures r.1 == ErrorEnded ==> Truthy(v.targetOn)
  {
    var p := Cursor(c, f);
    var v1 := LatchMovement(c, v, f, p);
    var e := FrameError(c, v, f);
    if e != NA then
      (v1.(err := Some(e)), if Truthy(v.targetOn) then ErrorEnded else Recycled)
    else
      Track(c, StampOnset(c, LogSample(c, v1.(err := Some(NA)), f, p), f), f, p)
  }

  /** One iteration of `while self.evm.before('timeout')`. */
  function Advance(c: TrialConfig, v: Vars, f: Frame): (r: (Vars, Status))
    ensures r.1 == TimedOut <==> !Before(f.loopMs, c.timeoutTicket)
    ensures r.1 == TimedOut ==> r.0 == v
  {
    if Before(f.loopMs, c.timeoutTicket) then Step(c, v, f) else (v, TimedOut)
  }

  /** The loop run over the frames in order, stopping at the first iteration that does not keep running. */
  function Run(c: TrialConfig, frames: seq<Frame>): (r: (Vars, Status))
    ensures |frames| == 0 ==> r == (Init(), Running)
    ensures r.1 == Running && |frames| > 0 ==> r.0.err == Some(NA)
    decreases |frames|
  {
    if |frames| == 0 then (Init(), Running)
    else
      var r := Run(c, frames[..|frames| - 1]);
      if r.1 == Running then Advance(c, r.0, frames[|frames| - 1]) else r
  }

  /** The frame passed the error checks and reached the logger (line 253). */
  predicate Tracked(c: TrialConfig, v: Vars, f: Frame)
  {
    FrameError(c, v, f) == NA
  }

  /**
   * Movement beyond the cursor's size, with no premature trigger, is an error
   * that depends on the trial type: "stick_mi" for MI, "stick_cc" for CC,
   * "too_soon" for PP while the onset is unstamped, and none for PP after onset.
   */
  lemma StickErrors(c: TrialConfig, v: Vars, f: Frame)
    requires BeyondCursor(c, Cursor(c, f))
    requires !(Before(f.checkMs, c.onsetTicket) && !Released(f))
    ensures c.trialType == MI ==> Step(c, v, f).0.err == Some(StickMI)
    ensures c.trialType == CC ==> Step(c, v, f).0.err == Some(StickCC)
    ensures c.trialType == PP && !Truthy(v.targetOn) ==> Step(c, v, f).0.err == Some(TooSoon)
    ensures c.trialType == PP && Truthy(v.targetOn) ==> Tracked(c, v, f)
  {
  }

  /**
   * A trigger off its rest position while the onset ticket has not fired is
   * "too_soon", whatever the stick did. Any error recycles the trial while the
   * onset is unstamped and breaks the loop once it is stamped; a frame without
   * error does neither.
   */
  lemma ErrorsEndTheFrame(c: TrialConfig, v: Vars, f: Frame)
    ensures Before(f.checkMs, c.onsetTicket) && !Released(f) ==> Step(c, v, f).0.err == Some(TooSoon)
    ensures !Tracked(c, v, f) ==>
      Step(c, v, f).0.err != Some(NA) && Step(c, v, f).1 == (if Truthy(v.targetOn) then ErrorEnded else Recycled)
    ensures Tracked(c, v, f) ==>
      Step(c, v, f).0.err == Some(NA) && Step(c, v, f).1 in {Running, Responded, Crashed}
  {
  }

  /**
   * `movement_rt` and `initial_angle` are latched together on a frame with the
   * onset stamped, no truthy `movement_rt` yet, and the cursor off centre; on
   * any other frame both keep their values.
   */
  lemma MovementLatch(c: TrialConfig, v: Vars, f: Frame)
    ensures Truthy(v.targetOn) && !Truthy(v.movementRt) && OffCentre(c, Cursor(c, f)) ==>
      Step(c, v, f).0.movementRt == Some(f.inputTime - v.targetOn.value)
      && Step(c, v, f).0.initialAngle == Some(f.angle)
    ensures !(Truthy(v.targetOn) && !Truthy(v.movementRt) && OffCentre(c, Cursor(c, f))) ==>
      Step(c, v, f).0.movementRt == v.movementRt && Step(c, v, f).0.initialAngle == v.initialAngle
  {
  }

  /**
   * `contact_rt` is latched on a tracked frame with the cursor on the target and
   * no truthy `contact_rt` yet, whatever the triggers; otherwise it keeps its value.
   */
  lemma ContactLatch(c: TrialConfig, v: Vars, f: Frame)
    requires Tracked(c, v, f) && Step(c, v, f).1 != Crashed
    ensures OnTarget(c, Cursor(c, f)) && !Truthy(v.contactRt) ==>
      Step(c, v, f).0.contactRt == Some(f.contactClock - Step(c, v, f).0.targetOn.value)
    ensures !(OnTarget(c, Cursor(c, f)) && !Truthy(v.contactRt)) ==> Step(c, v, f).0.contactRt == v.contactRt
  {
  }

  /**
   * The over-target flag rises exactly on a tracked frame on the target with
   * both triggers released, stays up while the cursor stays on the target even if a trigger
   * is then pressed, and drops on any tracked frame off the target.
   */
  lemma OverTargetRules(c: TrialConfig, v: Vars, f: Frame)
    requires Step(c, v, f).1 != Crashed
    ensures !v.overTarget && Step(c, v, f).0.overTarget ==> OnTarget(c, Cursor(c, f)) && Released(f)
    ensures Tracked(c, v, f) && !v.overTarget && OnTarget(c, Cursor(c, f)) && Released(f) ==> Step(c, v, f).0.overTarget
    ensures Tracked(c, v, f) && v.overTarget && OnTarget(c, Cursor(c, f)) ==> Step(c, v, f).0.overTarget
    ensures Tracked(c, v, f) && !OnTarget(c, Cursor(c, f)) ==> !Step(c, v, f).0.overTarget
    ensures !Tracked(c, v, f) ==> Step(c, v, f).0.overTarget == v.overTarget
  {
  }

  /**
   * A response is taken on a tracked frame exactly when a trigger is above 0.5
   * and responding is allowed: only over the target for PP, always for MI and
   * CC. So under PP no response happens on the frame the flag first rises.
   */
  lemma ResponseGate(c: TrialConfig, v: Vars, f: Frame)
    requires Tracked(c, v, f) && Step(c, v, f).1 != Crashed
    ensures Step(c, v, f).1 == Responded <==>
      Pressed(f) && (c.trialType != PP || Step(c, v, f).0.overTarget)
    ensures Step(c, v, f).1 == Responded ==>
      Step(c, v, f).0.responseRt == Some(f.responseClock - Step(c, v, f).0.targetOn.value)
    ensures c.trialType == PP && !v.overTarget && Step(c, v, f).0.overTarget ==> Step(c, v, f).1 == Running
  {
  }
}
