/**
 * Screen geometry of the task: integer pixel points, squared distances, Python's
 * truncating `int()`, and the per-block remapping of the stick onto the screen
 * (experiment.py, lines 212-215).
 */
module Screen {

  /** A pixel position on the screen. */
  datatype Point = Point(x: int, y: int)

  /**
   * Squared Euclidean distance. Every `linear_dist` threshold of the trial is
   * decided on this value, so no square root is needed: for a non-negative
   * bound b, `linear_dist(p, q) > b` holds exactly when `DistSq(p, q) > b * b`.
   */
  function DistSq(p: Point, q: Point): (d: nat)
    ensures d == 0 <==> p == q
  {
    SumOfSquaresZero(p.x - q.x, p.y - q.y);
    (p.x - q.x) * (p.x - q.x) + (p.y - q.y) * (p.y - q.y)
  }

  lemma SumOfSquaresZero(a: int, b: int)
    ensures a * a >= 0 && b * b >= 0
    ensures a * a + b * b == 0 <==> a == 0 && b == 0
  {
    if a != 0 {
      assert a * a > 0 by {
        if a > 0 { assert a * a >= a; } else { assert a * a == (-a) * (-a); assert (-a) * (-a) >= -a; }
      }
    }
    if b != 0 {
      assert b * b > 0 by {
        if b > 0 { assert b * b >= b; } else { assert b * b == (-b) * (-b); assert (-b) * (-b) >= -b; }
      }
    }
  }

  /** Python's `int()` applied to a float: truncation toward zero. */
  function TruncToZero(v: real): (r: int)
    ensures 0.0 <= v ==> 0 <= r && r as real <= v < r as real + 1.0
    ensures v < 0.0 ==> r <= 0 && r as real - 1.0 < v <= r as real
  {
    if v >= 0.0 then v.Floor else -((-v).Floor)
  }

  /** Truncation toward zero is odd: it commutes with negation. */
  lemma TruncOdd(v: real)
    ensures TruncToZero(-v) == -TruncToZero(v)
  {
  }

  /** Truncation toward zero never decreases when its argument grows. */
  lemma TruncMonotone(a: real, b: real)
    requires a <= b
    ensures TruncToZero(a) <= TruncToZero(b)
  {
  }

  /** The joystick mappings a block can select. */
  datatype Mapping = Normal | Backwards | InvertedX | InvertedY

  /**
   * The `(mod_x, mod_y)` signs of a mapping. The configuration table that holds
   * them is not part of this model; the signs follow the block's direction table:
   * "backwards" flips both axes, "inverted_x" only left-right, "inverted_y" only
   * up-down.
   */
  function Mods(m: Mapping): (r: (int, int))
    ensures (r.0 == 1 || r.0 == -1) && (r.1 == 1 || r.1 == -1)
    ensures r.0 == -1 <==> m == Backwards || m == InvertedX
    ensures r.1 == -1 <==> m == Backwards || m == InvertedY
  {
    match m
    case Normal => (1, 1)
    case Backwards => (-1, -1)
    case InvertedX => (-1, 1)
    case InvertedY => (1, -1)
  }

  /**
   * One axis of the remap: `int(j * target_dist_max * mod)`, the stick value
   * scaled to pixels, signed by the mapping and truncated toward zero.
   */
  function AxisOffset(j: real, distMax: nat, mod: int): (r: int)
    ensures j == 0.0 ==> r == 0
    ensures 0.0 <= j * mod as real ==> 0 <= r
    ensures j * mod as real <= 0.0 ==> r <= 0
  {
    assert j * distMax as real * mod as real == (j * mod as real) * distMax as real;
    TruncToZero(j * distMax as real * mod as real)
  }

  /**
   * The cursor position for a normalised stick position `(jx, jy)`: each axis
   * offset is added to the screen centre.
   */
  function CursorPos(centre: Point, jx: real, jy: real, distMax: nat, m: Mapping): (p: Point)
    ensures jx == 0.0 && jy == 0.0 ==> p == centre
    ensures p.x - centre.x == Mods(m).0 * AxisOffset(jx, distMax, 1)
    ensures p.y - centre.y == Mods(m).1 * AxisOffset(jy, distMax, 1)
  {
    FlippedAxisMirrors(jx, distMax);
    FlippedAxisMirrors(jy, distMax);
    Point(centre.x + AxisOffset(jx, distMax, Mods(m).0), centre.y + AxisOffset(jy, distMax, Mods(m).1))
  }

  /** Flipping the sign of an axis mirrors its pixel offset exactly. */
  lemma FlippedAxisMirrors(j: real, distMax: nat)
    ensures AxisOffset(j, distMax, -1) == -AxisOffset(j, distMax, 1)
  {
    var v := j * distMax as real;
    assert j * distMax as real * (-1) as real == -v;
    assert j * distMax as real * 1 as real == v;
    TruncOdd(v);
  }

  /**
   * Every mapping is the normal mapping mirrored on the axes its signs flip:
   * the cursor offset from the centre is the normal offset times `(mod_x, mod_y)`.
   */
  lemma MappingMirrorsNormal(centre: Point, jx: real, jy: real, distMax: nat, m: Mapping)
    ensures CursorPos(centre, jx, jy, distMax, m).x - centre.x
            == Mods(m).0 * (CursorPos(centre, jx, jy, distMax, Normal).x - centre.x)
    ensures CursorPos(centre, jx, jy, distMax, m).y - centre.y
            == Mods(m).1 * (CursorPos(centre, jx, jy, distMax, Normal).y - centre.y)
  {
    FlippedAxisMirrors(jx, distMax);
    FlippedAxisMirrors(jy, distMax);
  }

  lemma NonNegRealProduct(a: real, b: real)
    requires 0.0 <= a && 0.0 <= b
    ensures 0.0 <= a * b
  {
  }

  /** A stick value in [-1, 1] moves its axis by at most `distMax` pixels, whatever the sign. */
  lemma AxisOffsetBounded(j: real, distMax: nat, mod: int)
    requires -1.0 <= j <= 1.0
    requires mod == 1 || mod == -1
    ensures -(distMax as int) <= AxisOffset(j, distMax, mod) <= distMax
  {
    var d := distMax as real;
    var v := j * d;
    NonNegRealProduct(1.0 - j, d);
    NonNegRealProduct(1.0 + j, d);
    assert (1.0 - j) * d == d - v && (1.0 + j) * d == d + v;
    assert j * d * 1 as real == v;
    assert -d <= v <= d;
    FlippedAxisMirrors(j, distMax);
  }

  /** A stick inside the unit square keeps the cursor within `distMax` pixels of the centre on each axis. */
  lemma CursorWithinReach(centre: Point, jx: real, jy: real, distMax: nat, m: Mapping)
    requires -1.0 <= jx <= 1.0 && -1.0 <= jy <= 1.0
    ensures -(distMax as int) <= CursorPos(centre, jx, jy, distMax, m).x - centre.x <= distMax
    ensures -(distMax as int) <= CursorPos(centre, jx, jy, distMax, m).y - centre.y <= distMax
  {
    AxisOffsetBounded(jx, distMax, Mods(m).0);
    AxisOffsetBounded(jy, distMax, Mods(m).1);
  }

  /** A centred stick leaves the cursor on the screen centre, whatever the mapping. */
  lemma CentredStickCentredCursor(centre: Point, distMax: nat, m: Mapping)
    ensures CursorPos(centre, 0.0, 0.0, distMax, m) == centre
  {
  }
}
