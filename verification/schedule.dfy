/**
 * The event schedule of a trial (experiment.py, lines 157-167): the trial
 * factors drawn with `randrange`, and the two tickets registered with the
 * event manager. A ticket is a time in milliseconds from trial start; the event
 * manager's `before(name)` holds while the elapsed trial time is below it and
 * `after(name)` once it is reached.
 */
module Schedule {

  /** The names of the tickets a trial registers. */
  datatype Ticket = TargetOn | Timeout

  const ONSET_START: int := 1000
  const ONSET_STOP: int := 3000
  const ONSET_STEP: int := 100

  /** How long after target onset the trial times out. */
  const TIMEOUT_AFTER_ONSET: int := 15000

  /** `evm.before(name)` for a ticket registered at `at` ms, asked at elapsed trial time `elapsedMs`. */
  predicate Before(elapsedMs: real, at: int)
  {
    elapsedMs < at as real
  }

  /**
   * The values `randrange(start, stop, step)` can return, in increasing order:
   * `start`, `start + step`, ... while below `stop`; none when `start >= stop`.
   */
  function RandRangeValues(start: int, stop: int, step: int): (r: seq<int>)
    requires step > 0
    ensures forall i | 0 <= i < |r| :: r[i] == start + i * step
    ensures forall i | 0 <= i < |r| :: start <= r[i] < stop
    ensures start < stop <==> |r| > 0
    ensures |r| > 0 ==> stop <= r[|r| - 1] + step
    decreases stop - start
  {
    if start >= stop then [] else [start] + RandRangeValues(start + step, stop, step)
  }

  /** The target onsets `randrange(1000, 3000, 100)` can draw. */
  function OnsetValues(): seq<int>
  {
    RandRangeValues(ONSET_START, ONSET_STOP, ONSET_STEP)
  }

  /** The time of the timeout ticket for a given target onset. */
  function TimeoutTicket(onset: int): int
  {
    onset + TIMEOUT_AFTER_ONSET
  }

  /**
   * The onset window: exactly the twenty multiples of 100 from 1000 to 2900, so
   * the timeout ticket falls between 16000 and 17900 ms and always after the onset.
   */
  lemma OnsetWindow(onset: int)
    ensures |OnsetValues()| == 20
    ensures onset in OnsetValues() <==> 1000 <= onset <= 2900 && onset % 100 == 0
    ensures onset in OnsetValues() ==> 16000 <= TimeoutTicket(onset) <= 17900
  {
    var r := OnsetValues();
    var n := |r|;
    assert n > 0;
    assert r[n - 1] == 1000 + (n - 1) * 100;
    assert n == 20;
    if onset in r {
      var i :| 0 <= i < n && r[i] == onset;
      assert onset == 1000 + i * 100;
      assert onset % 100 == 0 by { MultipleOfHundred(10 + i); }
    }
    if 1000 <= onset <= 2900 && onset % 100 == 0 {
      var i := (onset - 1000) / 100;
      assert onset == 1000 + i * 100;
      assert r[i] == onset;
    }
  }

  lemma MultipleOfHundred(k: int)
    ensures (k * 100) % 100 == 0
  {
  }

  /** `v` is one of the values `randrange(start, stop, step)` can return, by arithmetic. */
  predicate Drawable(v: int, start: int, stop: int, step: int)
    requires step > 0
  {
    start <= v < stop && (v - start) % step == 0
  }

  /** The arithmetic test agrees with membership in the enumerated range. */
  lemma DrawableIsInRange(v: int, start: int, stop: int, step: int)
    requires step > 0
    ensures Drawable(v, start, stop, step) <==> v in RandRangeValues(start, stop, step)
  {
    if v in RandRangeValues(start, stop, step) {
      InRangeIsDrawable(v, start, stop, step);
    }
    if Drawable(v, start, stop, step) {
      DrawableInRange(v, start, stop, step);
    }
  }

  lemma InRangeIsDrawable(v: int, start: int, stop: int, step: int)
    requires step > 0 && v in RandRangeValues(start, stop, step)
    ensures Drawable(v, start, stop, step)
  {
    var r := RandRangeValues(start, stop, step);
    var i :| 0 <= i < |r| && r[i] == v;
    assert v - start == i * step;
    MultipleMod(i, step);
  }

  lemma DrawableInRange(v: int, start: int, stop: int, step: int)
    requires step > 0 && Drawable(v, start, stop, step)
    ensures v in RandRangeValues(start, stop, step)
  {
    var r := RandRangeValues(start, stop, step);
    var i := (v - start) / step;
    assert v - start == i * step;
    assert 0 <= i;
    assert |r| > 0;
    assert start + (|r| - 1) * step + step > start + i * step;
    assert (|r| - 1) * step + step == |r| * step;
    LessByFactor(i, |r|, step);
    assert r[i] == v;
  }

  lemma MultipleMod(i: int, step: int)
    requires step > 0
    ensures (i * step) % step == 0
  {
    var q := (i * step) / step;
    var m := (i * step) % step;
    var k := i - q;
    assert k * step == i * step - q * step;
    assert k * step == m;
    if k >= 1 {
      NonNegIntProduct(k - 1, step);
    } else if k <= -1 {
      NonNegIntProduct(-k, step);
    }
  }

  lemma NonNegIntProduct(a: int, b: int)
    requires 0 <= a && 0 <= b
    ensures 0 <= a * b
  {
  }

  lemma LessByFactor(i: int, n: int, step: int)
    requires step > 0 && i * step < n * step
    ensures i < n
  {
    if i >= n {
      NonNegIntProduct(i - n, step);
    }
  }
}
