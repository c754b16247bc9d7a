/**
 * The stick half of the input normaliser: `joystick_scaled` (experiment.py,
 * lines 418-432) and the mouse emulation of the stick used when no gamepad is
 * present (lines 391-395). Angles are opaque values handed through; the square
 * root of the raw deflection is supplied with its defining equation instead of
 * being computed.
 */
module Stick {
  import opened Screen

  /** Largest magnitude of a raw stick axis reading. */
  const AXIS_MAX: int := 32768

  /** The deadzone `joystick_scaled` is called with. */
  const DEADZONE: real := 0.2

  /** What `joystick_scaled` returns: the integer origin, or a point on the unit disc given in polar form. */
  datatype StickPos = Centred | Polar(amp: real, angle: real)

  /** `min(1.0, sqrt(x**2 + y**2) / AXIS_MAX)`, where `root` is the square root. */
  function Amplitude(root: real): (a: real)
    requires 0.0 <= root
    ensures 0.0 <= a <= 1.0
    ensures a == 1.0 <==> root >= AXIS_MAX as real
    ensures a < 1.0 ==> a * AXIS_MAX as real == root
  {
    var ratio := root / AXIS_MAX as real;
    if ratio < 1.0 then ratio else 1.0
  }

  /** `(amplitude - deadzone) / (1.0 - deadzone)`: the usable range [deadzone, 1] stretched onto [0, 1]. */
  function Rescale(a: real, deadzone: real): (r: real)
    requires 0.0 <= deadzone < 1.0 && deadzone <= a <= 1.0
    ensures 0.0 <= r <= 1.0
    ensures r == 0.0 <==> a == deadzone
    ensures r == 1.0 <==> a == 1.0
  {
    Fraction(a - deadzone, 1.0 - deadzone);
    (a - deadzone) / (1.0 - deadzone)
  }

  /** A fraction `n / k` with `0 <= n <= k` lies in [0, 1] and hits the ends exactly at `n == 0` and `n == k`. */
  lemma Fraction(n: real, k: real)
    requires 0.0 <= n <= k && 0.0 < k
    ensures 0.0 <= n / k <= 1.0
    ensures n / k == 0.0 <==> n == 0.0
    ensures n / k == 1.0 <==> n == k
  {
    var r := n / k;
    assert r * k == n;
    SignOfProduct(r, k);
    SignOfProduct(r - 1.0, k);
    assert (r - 1.0) * k == n - k;
  }

  /** Multiplying by a positive real keeps the sign. */
  lemma SignOfProduct(x: real, k: real)
    requires 0.0 < k
    ensures x > 0.0 <==> x * k > 0.0
    ensures x < 0.0 <==> x * k < 0.0
    ensures x == 0.0 <==> x * k == 0.0
  {
    if x > 0.0 {
      assert x * k > 0.0;
    } else if x < 0.0 {
      assert (-x) * k > 0.0;
    }
  }

  /**
   * `joystick_scaled(x, y, deadzone)`: a deflection whose amplitude is below the
   * deadzone gives exactly the origin; any other keeps the raw angle and gets
   * the rescaled amplitude `(amplitude - deadzone) / (1 - deadzone)`. The
   * deadzone decision is the integer comparison x^2 + y^2 < (deadzone * AXIS_MAX)^2,
   * a deflection exactly on the deadzone edge gives amplitude 0 (no jump), and
   * full deflection lands on the unit circle.
   */
  function JoystickScaled(x: int, y: int, root: real, angle: real, deadzone: real): (s: StickPos)
    requires 0.0 <= root && root * root == (x * x + y * y) as real
    requires 0.0 <= deadzone < 1.0
    ensures s.Centred? <==> (x * x + y * y) as real < deadzone * deadzone * (AXIS_MAX * AXIS_MAX) as real
    ensures s.Polar? ==> 0.0 <= s.amp <= 1.0 && s.angle == angle
    ensures s.Polar? ==> (s.amp == 1.0 <==> root >= AXIS_MAX as real)
    ensures s.Polar? ==> deadzone <= Amplitude(root) && s.amp == Rescale(Amplitude(root), deadzone)
    ensures s.Polar? ==> (s.amp == 0.0 <==> root == deadzone * AXIS_MAX as real)
  {
    var a := Amplitude(root);
    DeadzoneOnSquares(root, deadzone);
    AmplitudeAtDeadzone(root, deadzone);
    if a < deadzone then Centred else Polar(Rescale(a, deadzone), angle)
  }

  /** The capped amplitude equals a deadzone below 1 exactly at the raw deflection `deadzone * AXIS_MAX`. */
  lemma AmplitudeAtDeadzone(root: real, deadzone: real)
    requires 0.0 <= root && 0.0 <= deadzone < 1.0
    ensures Amplitude(root) == deadzone <==> root == deadzone * AXIS_MAX as real
  {
    var m := AXIS_MAX as real;
    if root == deadzone * m {
      assert root < m by { assert deadzone * m < 1.0 * m; }
      assert Amplitude(root) * m == deadzone * m;
    }
  }

  /** The amplitude test against the deadzone, restated on the squared raw deflection. */
  lemma DeadzoneOnSquares(root: real, deadzone: real)
    requires 0.0 <= root && 0.0 <= deadzone < 1.0
    ensures Amplitude(root) < deadzone <==> root * root < deadzone * deadzone * (AXIS_MAX * AXIS_MAX) as real
  {
    var m := AXIS_MAX as real;
    var bound := deadzone * m;
    assert (AXIS_MAX * AXIS_MAX) as real == m * m;
    assert deadzone * deadzone * (m * m) == bound * bound;
    SquareLess(root, bound);
    if root < bound {
      assert root / m < deadzone;
    } else {
      assert root / m >= deadzone;
    }
  }

  /** For non-negative reals, `<` is decided on the squares. */
  lemma SquareLess(p: real, q: real)
    requires 0.0 <= p && 0.0 <= q
    ensures p < q <==> p * p < q * q
  {
    if p < q {
      SignOfProduct(q - p, q);
      assert (q - p) * q == q * q - p * q;
      if p > 0.0 {
        SignOfProduct(q - p, p);
        assert (q - p) * p == p * q - p * p;
      }
    } else if q > 0.0 {
      SignOfProduct(p - q, q);
      assert (p - q) * q == p * q - q * q;
      SignOfProduct(p - q + 1.0, p);
      if p > q {
        SignOfProduct(p - q, p);
        assert (p - q) * p == p * p - p * q;
      }
    }
  }

  /** The rescaling never inverts the order of two amplitudes outside the deadzone. */
  lemma RescaleMonotone(a: real, b: real, deadzone: real)
    requires 0.0 <= deadzone < 1.0 && deadzone <= a <= b <= 1.0
    ensures Rescale(a, deadzone) <= Rescale(b, deadzone)
  {
    var k := 1.0 - deadzone;
    var ra, rb := Rescale(a, deadzone), Rescale(b, deadzone);
    assert ra * k == a - deadzone;
    assert rb * k == b - deadzone;
    assert (rb - ra) * k == b - a;
    SignOfProduct(rb - ra, k);
  }

  /**
   * No jump at the deadzone edge: an amplitude within `eps * (1 - deadzone)` of
   * the deadzone is rescaled to at most `eps`.
   */
  lemma RescaleContinuousAtDeadzone(a: real, deadzone: real, eps: real)
    requires 0.0 <= deadzone < 1.0 && deadzone <= a <= 1.0 && 0.0 < eps
    requires a - deadzone <= eps * (1.0 - deadzone)
    ensures Rescale(a, deadzone) <= eps
  {
    var k := 1.0 - deadzone;
    var r := Rescale(a, deadzone);
    assert r * k == a - deadzone;
    assert (eps - r) * k == eps * k - (a - deadzone);
    SignOfProduct(eps - r, k);
  }

  /** A resting stick is inside the deadzone; a full push along one axis reaches the unit circle. */
  lemma ScaledExamples(angle: real)
    ensures JoystickScaled(0, 0, 0.0, angle, DEADZONE) == Centred
    ensures JoystickScaled(AXIS_MAX, 0, AXIS_MAX as real, angle, DEADZONE) == Polar(1.0, angle)
  {
  }

  /**
   * The mouse emulation of one stick axis: `int((mouse - centre) * (AXIS_MAX / target_dist_max))`.
   * A mouse on the centre gives a zero reading and one `target_dist_max` pixels
   * away gives full deflection.
   */
  function MouseToRaw(mouse: int, centre: int, distMax: int): (raw: int)
    requires distMax > 0
    ensures mouse == centre ==> raw == 0
    ensures mouse - centre == distMax ==> raw == AXIS_MAX
    ensures mouse - centre == -distMax ==> raw == -AXIS_MAX
    ensures (mouse >= centre ==> raw >= 0) && (mouse <= centre ==> raw <= 0)
  {
    var scale := AXIS_MAX as real / distMax as real;
    assert distMax as real * scale == AXIS_MAX as real;
    TruncToZero((mouse - centre) as real * scale)
  }
}
