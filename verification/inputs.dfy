/**
 * How the input normalisers feed one pass of the trial loop (experiment.py,
 * lines 209-210): the frame's trigger pressures are what `get_triggers`
 * returns, and its stick position is the Cartesian form of what
 * `joystick_scaled` returns. The cosine and sine of the stick angle, computed
 * by `point_pos`, are supplied.
 */
module Inputs {
  import opened Screen
  import opened Stick
  import opened Triggers
  import opened TrialStep

  /** The `(xs, ys)` pair `joystick_scaled` returns: the origin, or the amplitude along the angle. */
  function StickComponents(s: StickPos, cosA: real, sinA: real): (r: (real, real))
    ensures s.Centred? ==> r == (0.0, 0.0)
    ensures s.Polar? && s.amp == 0.0 ==> r == (0.0, 0.0)
  {
    match s
    case Centred => (0.0, 0.0)
    case Polar(amp, _) => (amp * cosA, amp * sinA)
  }

  /** The frame reads its triggers from a gamepad and its stick from the raw deflection `(x, y)`. */
  predicate ReadsGamepad(f: Frame, left: int, right: int, x: int, y: int, root: real, angle: real, cosA: real, sinA: real)
    requires 0.0 <= root && root * root == (x * x + y * y) as real
  {
    && (f.lt, f.rt) == GetTriggers(Gamepad(left, right))
    && (f.jx, f.jy) == StickComponents(JoystickScaled(x, y, root, angle, DEADZONE), cosA, sinA)
  }

  /**
   * A raw deflection inside the deadzone leaves the cursor on the centre under
   * every mapping, so it can cause no movement error and latches no movement.
   */
  lemma DeadzoneStickNoMovement(c: TrialConfig, v: Vars, f: Frame, left: int, right: int,
                                x: int, y: int, root: real, angle: real, cosA: real, sinA: real)
    requires 0.0 <= root && root * root == (x * x + y * y) as real
    requires ReadsGamepad(f, left, right, x, y, root, angle, cosA, sinA)
    requires (x * x + y * y) as real < DEADZONE * DEADZONE * (AXIS_MAX * AXIS_MAX) as real
    ensures Cursor(c, f) == c.centre
    ensures !OffCentre(c, Cursor(c, f)) && !BeyondCursor(c, Cursor(c, f))
    ensures LatchMovement(c, v, f, Cursor(c, f)) == v
    ensures FrameError(c, v, f) == NA || FrameError(c, v, f) == TooSoon
  {
    assert JoystickScaled(x, y, root, angle, DEADZONE) == Centred;
    assert f.jx == 0.0 && f.jy == 0.0;
  }

  /**
   * On a gamepad the frame's triggers count as released exactly when both raw
   * readings are at most 6553, and as pressed exactly when either reaches 16384.
   */
  lemma GamepadTriggerStates(f: Frame, left: int, right: int)
    requires (f.lt, f.rt) == GetTriggers(Gamepad(left, right))
    ensures Released(f) <==> left <= 6553 && right <= 6553
    ensures Pressed(f) <==> left >= 16384 || right >= 16384
  {
  }

  /** Triggers at rest and a stick inside the deadzone: the frame raises no error at all. */
  lemma RestingGamepadNoError(c: TrialConfig, v: Vars, f: Frame, left: int, right: int,
                              x: int, y: int, root: real, angle: real, cosA: real, sinA: real)
    requires 0.0 <= root && root * root == (x * x + y * y) as real
    requires ReadsGamepad(f, left, right, x, y, root, angle, cosA, sinA)
    requires left <= 6553 && right <= 6553
    requires (x * x + y * y) as real < DEADZONE * DEADZONE * (AXIS_MAX * AXIS_MAX) as real
    ensures FrameError(c, v, f) == NA
  {
    DeadzoneStickNoMovement(c, v, f, left, right, x, y, root, angle, cosA, sinA);
    GamepadTriggerStates(f, left, right);
  }
}
