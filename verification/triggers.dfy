/**
 * The trigger half of the input normaliser, `get_triggers` (experiment.py,
 * lines 400-413): raw gamepad readings divided by TRIGGER_MAX, or, without a
 * gamepad, a mouse button that presses both triggers fully once the first
 * 100 ms of the trial are over.
 */
module Triggers {

  /** Largest raw trigger reading. */
  const TRIGGER_MAX: int := 32767

  /** The start-of-trial window during which a held mouse button is ignored. */
  const GRACE_MS: real := 100.0

  /** Where this frame's trigger state comes from. */
  datatype Source =
    | Gamepad(rawLeft: int, rawRight: int)
    | Mouse(buttonDown: bool, trialTimeMs: real)

  /** `raw / TRIGGER_MAX`. */
  function Normalise(raw: int): (p: real)
    ensures p * TRIGGER_MAX as real == raw as real
    ensures 0 <= raw <= TRIGGER_MAX ==> 0.0 <= p <= 1.0
  {
    raw as real / TRIGGER_MAX as real
  }

  /**
   * `get_triggers()`: the left and right trigger pressures. A gamepad trigger's
   * pressure is its own raw reading over TRIGGER_MAX, so it counts as released
   * exactly up to 6553 and as pressed exactly from 16384, and readings in the
   * device range give pressures in [0, 1]; the mouse gives both triggers the
   * same pressure, full exactly when the button is down after the grace window
   * and zero otherwise.
   */
  function GetTriggers(s: Source): (r: (real, real))
    ensures s.Gamepad? && 0 <= s.rawLeft <= TRIGGER_MAX ==> 0.0 <= r.0 <= 1.0
    ensures s.Gamepad? && 0 <= s.rawRight <= TRIGGER_MAX ==> 0.0 <= r.1 <= 1.0
    ensures s.Gamepad? ==> r.0 * TRIGGER_MAX as real == s.rawLeft as real
    ensures s.Gamepad? ==> r.1 * TRIGGER_MAX as real == s.rawRight as real
    ensures s.Gamepad? ==> (r.0 < 0.2 <==> s.rawLeft <= 6553) && (r.0 > 0.5 <==> s.rawLeft >= 16384)
    ensures s.Gamepad? ==> (r.1 < 0.2 <==> s.rawRight <= 6553) && (r.1 > 0.5 <==> s.rawRight >= 16384)
    ensures s.Mouse? ==> r.0 == r.1 && (r.0 == 0.0 || r.0 == 1.0)
    ensures s.Mouse? ==> (r.0 == 1.0 <==> s.buttonDown && s.trialTimeMs > GRACE_MS)
  {
    match s
    case Gamepad(l, r) =>
      RawThresholds(l);
      RawThresholds(r);
      (Normalise(l), Normalise(r))
    case Mouse(down, ms) =>
      var raw := if down && ms > GRACE_MS then TRIGGER_MAX else 0;
      (Normalise(raw), Normalise(raw))
  }

  /**
   * The pressure thresholds of the trial on raw readings: a trigger counts as
   * released (below 0.2) exactly up to 6553 and as pressed (above 0.5) exactly
   * from 16384.
   */
  lemma RawThresholds(raw: int)
    ensures Normalise(raw) < 0.2 <==> raw <= 6553
    ensures Normalise(raw) > 0.5 <==> raw >= 16384
  {
    var m := TRIGGER_MAX as real;
    assert Normalise(raw) * m == raw as real;
    if raw <= 6553 {
      assert raw as real <= 6553.0;
    } else {
      assert raw as real >= 6554.0;
    }
    if raw >= 16384 {
      assert raw as real >= 16384.0;
    } else {
      assert raw as real <= 16383.0;
    }
  }

  /** The click that started the trial cannot count: within the grace window the emulated triggers are released. */
  lemma GraceWindowReleases(down: bool, ms: real)
    requires ms <= GRACE_MS
    ensures GetTriggers(Mouse(down, ms)) == (0.0, 0.0)
  {
  }
}
