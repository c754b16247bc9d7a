/**
 * Properties of whole runs of the trial loop: what holds after every prefix of
 * the frames, given a clock that never runs backwards.
 */
module TrialRuns {
  import opened Wrappers
  import opened Screen
  import opened Schedule
  import opened TrialStep

  /** Once an iteration stops the loop, later frames are never looked at. */
  lemma {:induction false} RunStopped(c: TrialConfig, frames: seq<Frame>, i: nat)
    requires i <= |frames|
    requires Run(c, frames[..i]).1 != Running
    ensures Run(c, frames) == Run(c, frames[..i])
    decreases |frames| - i
  {
    if i == |frames| {
      assert frames[..i] == frames;
    } else {
      assert frames[..i + 1][..i] == frames[..i];
      RunStopped(c, frames, i + 1);
    }
  }

  /**
   * What a later state keeps of an earlier one: a truthy latch is never
   * overwritten (a latched zero may be), a set latch is never cleared, and the
   * sample log only grows at its end.
   */
  predicate Evolves(v: Vars, w: Vars)
  {
    && (Truthy(v.targetOn) ==> w.targetOn == v.targetOn)
    && (Truthy(v.movementRt) ==> w.movementRt == v.movementRt && w.initialAngle == v.initialAngle)
    && (Truthy(v.contactRt) ==> w.contactRt == v.contactRt)
    && (v.targetOn.Some? ==> w.targetOn.Some?)
    && (v.movementRt.Some? ==> w.movementRt.Some?)
    && (v.initialAngle.Some? ==> w.initialAngle.Some?)
    && (v.contactRt.Some? ==> w.contactRt.Some?)
    && (v.responseRt.Some? ==> w.responseRt.Some?)
    && (v.err.Some? ==> w.err.Some?)
    && v.axisData <= w.axisData
  }

  lemma EvolvesTransitive(u: Vars, v: Vars, w: Vars)
    requires Evolves(u, v) && Evolves(v, w)
    ensures Evolves(u, w)
  {
  }

  lemma TrackEvolves(c: TrialConfig, v: Vars, f: Frame, p: Point)
    ensures Evolves(v, Track(c, v, f, p).0)
  {
  }

  /** Every iteration keeps the earlier state's latches and log. */
  lemma AdvanceEvolves(c: TrialConfig, v: Vars, f: Frame)
    ensures Evolves(v, Advance(c, v, f).0)
  {
    if Before(f.loopMs, c.timeoutTicket) {
      var p := Cursor(c, f);
      var v1 := LatchMovement(c, v, f, p);
      assert Evolves(v, v1);
      if FrameError(c, v, f) == NA {
        var v2 := v1.(err := Some(NA));
        var v3 := LogSample(c, v2, f, p);
        var v4 := StampOnset(c, v3, f);
        assert Evolves(v1, v3);
        assert Evolves(v3, v4);
        TrackEvolves(c, v4, f, p);
        EvolvesTransitive(v, v1, v3);
        EvolvesTransitive(v, v3, v4);
        EvolvesTransitive(v, v4, Track(c, v4, f, p).0);
      }
    }
  }

  /** The state after any prefix of the frames is kept by the state after all of them. */
  lemma {:induction false} RunEvolves(c: TrialConfig, frames: seq<Frame>, i: nat)
    requires i <= |frames|
    ensures Evolves(Run(c, frames[..i]).0, Run(c, frames).0)
    decreases |frames|
  {
    if i == |frames| {
      assert frames[..i] == frames;
    } else {
      var pre := frames[..|frames| - 1];
      assert pre[..i] == frames[..i];
      RunEvolves(c, pre, i);
      var r := Run(c, pre);
      if r.1 == Running {
        AdvanceEvolves(c, r.0, frames[|frames| - 1]);
        EvolvesTransitive(Run(c, frames[..i]).0, r.0, Run(c, frames).0);
      }
    }
  }

  /** The clock readings inside one frame are positive and in program order. */
  predicate Timed(f: Frame)
  {
    && 0.0 < f.inputTime <= f.onsetClock <= f.contactClock <= f.responseClock
    && f.loopMs <= f.checkMs <= f.stampMs
  }

  /** Every frame is timed, and each frame's readings come after the previous frame's. */
  predicate Chained(frames: seq<Frame>)
  {
    && (forall i | 0 <= i < |frames| :: Timed(frames[i]))
    && (forall i | 0 < i < |frames| ::
          frames[i - 1].responseClock <= frames[i].inputTime && frames[i - 1].stampMs <= frames[i].loopMs)
  }

  /** The last clock reading of the frames, or 0 before the first frame. */
  function Now(frames: seq<Frame>): real
  {
    if |frames| == 0 then 0.0 else frames[|frames| - 1].responseClock
  }

  /** Nothing latched, logged or tracked: the state of every frame before onset. */
  predicate Quiet(v: Vars)
  {
    && v.movementRt.None? && v.initialAngle.None? && v.contactRt.None? && v.responseRt.None?
    && !v.overTarget && v.axisData == [] && v.lastX == -1 && v.lastY == -1
  }

  /** No two consecutive samples have the same position. */
  predicate NoRepeats(d: seq<Sample>)
  {
    forall i | 0 < i < |d| :: d[i - 1].x != d[i].x || d[i - 1].y != d[i].y
  }

  /** `(last_x, last_y)` is the last logged position, or (-1, -1) before the first sample. */
  predicate LastIsLogged(v: Vars)
  {
    if v.axisData == [] then v.lastX == -1 && v.lastY == -1
    else v.lastX == v.axisData[|v.axisData| - 1].x && v.lastY == v.axisData[|v.axisData| - 1].y
  }

  predicate SamplesOffCentre(c: TrialConfig, d: seq<Sample>)
  {
    forall i | 0 <= i < |d| :: Point(d[i].x, d[i].y) != c.centre
  }

  /** Sample times never decrease and lie between 0 and `bound`. */
  predicate SamplesInOrder(d: seq<Sample>, bound: int)
  {
    && (forall i, j | 0 <= i < j < |d| :: d[i].ms <= d[j].ms)
    && (forall i | 0 <= i < |d| :: 0 <= d[i].ms <= bound)
  }

  /** The invariant of the loop's locals while it keeps running, `now` being the last clock reading. */
  predicate Inv(c: TrialConfig, v: Vars, now: real)
  {
    && (v.targetOn.None? ==> Quiet(v))
    && (v.targetOn.Some? ==>
          0.0 < v.targetOn.value <= now && SamplesInOrder(v.axisData, ElapsedMs(v.targetOn.value, now)))
    && (v.movementRt.Some? <==> v.initialAngle.Some?)
    && (v.movementRt.Some? ==> v.movementRt.value >= 0.0)
    && (v.contactRt.Some? ==> v.contactRt.value >= 0.0)
    && v.responseRt.None?
    && v.err in {None, Some(NA)}
    && NoRepeats(v.axisData)
    && LastIsLogged(v)
    && SamplesOffCentre(c, v.axisData)
  }

  lemma ElapsedMonotone(t0: real, a: real, b: real)
    requires t0 <= a <= b
    ensures 0 <= ElapsedMs(t0, a) <= ElapsedMs(t0, b)
  {
    assert (a - t0) * 1000.0 <= (b - t0) * 1000.0;
    TruncMonotone((a - t0) * 1000.0, (b - t0) * 1000.0);
  }

  /** The logger keeps the sample invariants. */
  lemma LogKeepsSamples(c: TrialConfig, v: Vars, f: Frame, p: Point, now: real)
    requires v.targetOn.Some? && 0.0 < v.targetOn.value <= now <= f.inputTime
    requires SamplesInOrder(v.axisData, ElapsedMs(v.targetOn.value, now))
    requires NoRepeats(v.axisData) && LastIsLogged(v) && SamplesOffCentre(c, v.axisData)
    requires f.inputTime <= f.responseClock
    ensures var w := LogSample(c, v, f, p);
      && SamplesInOrder(w.axisData, ElapsedMs(v.targetOn.value, f.responseClock))
      && NoRepeats(w.axisData) && LastIsLogged(w) && SamplesOffCentre(c, w.axisData)
  {
    var t0 := v.targetOn.value;
    ElapsedMonotone(t0, now, f.inputTime);
    ElapsedMonotone(t0, f.inputTime, f.responseClock);
    var w := LogSample(c, v, f, p);
    var d := v.axisData;
    if |w.axisData| > |d| {
      assert w.axisData == d + [w.axisData[|d|]];
      assert p != c.centre;
    }
  }

  /** One running iteration keeps the invariant, given the frame's clock comes after `now`. */
  lemma StepKeepsInv(c: TrialConfig, v: Vars, f: Frame, now: real)
    requires Inv(c, v, now) && Timed(f) && now <= f.inputTime
    ensures Step(c, v, f).1 == Running ==> Inv(c, Step(c, v, f).0, f.responseClock)
  {
    var p := Cursor(c, f);
    if FrameError(c, v, f) == NA {
      var v2 := LatchMovement(c, v, f, p).(err := Some(NA));
      var v4 := StampOnset(c, LogSample(c, v2, f, p), f);
      PreTrackInv(c, v, f, now);
      TrackKeepsInv(c, v4, f, p);
    }
  }

  /** The state that reaches the over-target check satisfies what tracking needs. */
  lemma PreTrackInv(c: TrialConfig, v: Vars, f: Frame, now: real)
    requires Inv(c, v, now) && Timed(f) && now <= f.inputTime
    ensures var p := Cursor(c, f);
      var v4 := StampOnset(c, LogSample(c, LatchMovement(c, v, f, p).(err := Some(NA)), f, p), f);
      && (v4.targetOn.Some? ==> 0.0 < v4.targetOn.value <= f.onsetClock)
      && (v4.targetOn.None? ==> Quiet(v4))
      && (v4.targetOn.Some? ==> SamplesInOrder(v4.axisData, ElapsedMs(v4.targetOn.value, f.responseClock)))
      && (v4.movementRt.Some? <==> v4.initialAngle.Some?) && (v4.movementRt.Some? ==> v4.movementRt.value >= 0.0)
      && (v4.contactRt.Some? ==> v4.contactRt.value >= 0.0) && v4.responseRt.None? && v4.err in {None, Some(NA)}
      && NoRepeats(v4.axisData) && LastIsLogged(v4) && SamplesOffCentre(c, v4.axisData)
  {
    var p := Cursor(c, f);
    var v1 := LatchMovement(c, v, f, p);
    var v2 := v1.(err := Some(NA));
    var v3 := LogSample(c, v2, f, p);
    if v.targetOn.Some? {
      assert Truthy(v.targetOn);
      LogKeepsSamples(c, v2, f, p, now);
      ElapsedMonotone(v.targetOn.value, now, f.responseClock);
      assert StampOnset(c, v3, f) == v3;
    } else {
      assert v3 == v2;
    }
  }

  /** Tracking keeps the invariant when it keeps running. */
  lemma TrackKeepsInv(c: TrialConfig, v: Vars, f: Frame, p: Point)
    requires Timed(f)
    requires v.targetOn.Some? ==> 0.0 < v.targetOn.value <= f.onsetClock
    requires v.targetOn.None? ==> Quiet(v)
    requires v.targetOn.Some? ==> SamplesInOrder(v.axisData, ElapsedMs(v.targetOn.value, f.responseClock))
    requires v.targetOn.Some? ==> v.targetOn.value <= f.responseClock
    requires (v.movementRt.Some? <==> v.initialAngle.Some?) && (v.movementRt.Some? ==> v.movementRt.value >= 0.0)
    requires (v.contactRt.Some? ==> v.contactRt.value >= 0.0) && v.responseRt.None? && v.err in {None, Some(NA)}
    requires NoRepeats(v.axisData) && LastIsLogged(v) && SamplesOffCentre(c, v.axisData)
    ensures Track(c, v, f, p).1 == Running ==> Inv(c, Track(c, v, f, p).0, f.responseClock)
  {
  }

  /** While the loop runs, its locals satisfy the invariant at the latest clock reading. */
  lemma {:induction false} RunKeepsInv(c: TrialConfig, frames: seq<Frame>)
    requires Chained(frames)
    ensures Run(c, frames).1 == Running ==> Inv(c, Run(c, frames).0, Now(frames))
    decreases |frames|
  {
    if |frames| > 0 {
      var n := |frames|;
      var pre := frames[..n - 1];
      assert Chained(pre);
      RunKeepsInv(c, pre);
      var r := Run(c, pre);
      if r.1 == Running {
        var f := frames[n - 1];
        assert Now(pre) <= f.inputTime by {
          if n > 1 { assert frames[n - 2].responseClock <= frames[n - 1].inputTime; }
        }
        StepKeepsInv(c, r.0, f, Now(pre));
      }
    }
  }

  /**
   * The target cannot be reached before onset: every cursor within the
   * cursor's own size from the centre is off the target.
   */
  ghost predicate TargetClear(c: TrialConfig)
  {
    forall p: Point :: DistSq(p, c.centre) <= c.cursorSize * c.cursorSize ==> !OnTarget(c, p)
  }

  /**
   * With the target clear of the centre, no iteration subtracts an unset
   * onset: contact needs a stamped onset because the cursor cannot reach the
   * target without a movement error first, and a response needs one because a
   * pressed trigger before the onset ticket is "too_soon".
   */
  lemma StepNeverCrashes(c: TrialConfig, v: Vars, f: Frame)
    requires TargetClear(c) && Timed(f)
    ensures Advance(c, v, f).1 != Crashed
  {
    var p := Cursor(c, f);
    if Before(f.loopMs, c.timeoutTicket) && Tracked(c, v, f) && !Truthy(v.targetOn) {
      assert !BeyondCursor(c, p);
      assert !OnTarget(c, p);
    }
  }

  /** No run over a chained frame sequence ends in a TypeError when the target is clear of the centre. */
  lemma {:induction false} RunNeverCrashes(c: TrialConfig, frames: seq<Frame>)
    requires TargetClear(c) && Chained(frames)
    ensures Run(c, frames).1 != Crashed
    decreases |frames|
  {
    if |frames| > 0 {
      var pre := frames[..|frames| - 1];
      assert Chained(pre);
      RunNeverCrashes(c, pre);
      StepNeverCrashes(c, Run(c, pre).0, frames[|frames| - 1]);
    }
  }

  /** A recycled attempt has logged nothing and latched nothing. */
  lemma {:induction false} RecycledLeavesNoData(c: TrialConfig, frames: seq<Frame>)
    requires Chained(frames)
    ensures Run(c, frames).1 == Recycled ==> Quiet(Run(c, frames).0) && Run(c, frames).0.targetOn.None?
    decreases |frames|
  {
    if |frames| > 0 {
      var pre := frames[..|frames| - 1];
      assert Chained(pre);
      RecycledLeavesNoData(c, pre);
      RunKeepsInv(c, pre);
      var r := Run(c, pre);
      if r.1 == Running {
        StepErr(c, r.0, frames[|frames| - 1]);
      }
    }
  }

  /** What one iteration does to `err` and `response_rt`, by how it ended. */
  lemma StepErr(c: TrialConfig, v: Vars, f: Frame)
    ensures Step(c, v, f).1 == Running ==>
      Step(c, v, f).0.err == Some(NA) && Step(c, v, f).0.responseRt == v.responseRt
    ensures Step(c, v, f).1 == Responded ==> Step(c, v, f).0.err == Some(NA) && Step(c, v, f).0.responseRt.Some?
    ensures Step(c, v, f).1 in {ErrorEnded, Recycled} ==>
      Step(c, v, f).0.err.Some? && Step(c, v, f).0.err != Some(NA)
      && Step(c, v, f).0 == LatchMovement(c, v, f, Cursor(c, f)).(err := Step(c, v, f).0.err)
    ensures Step(c, v, f).1 != TimedOut
    ensures Step(c, v, f).0.err.Some?
  {
    var p := Cursor(c, f);
    if FrameError(c, v, f) == NA {
      var v4 := StampOnset(c, LogSample(c, LatchMovement(c, v, f, p).(err := Some(NA)), f, p), f);
      assert v4.err == Some(NA) && v4.responseRt == v.responseRt;
    }
  }

  /** A loop that has not stopped has taken no response, and its `err` is unbound or "NA". */
  lemma {:induction false} RunningHasNoError(c: TrialConfig, frames: seq<Frame>)
    ensures Run(c, frames).1 in {Running, TimedOut} ==>
      Run(c, frames).0.responseRt.None? && Run(c, frames).0.err in {None, Some(NA)}
    ensures Run(c, frames).1 == Responded ==>
      Run(c, frames).0.responseRt.Some? && Run(c, frames).0.err == Some(NA)
    ensures Run(c, frames).1 == ErrorEnded ==>
      Run(c, frames).0.err.Some? && Run(c, frames).0.err != Some(NA)
    decreases |frames|
  {
    if |frames| > 0 {
      var pre := frames[..|frames| - 1];
      RunningHasNoError(c, pre);
      StepErr(c, Run(c, pre).0, frames[|frames| - 1]);
    }
  }

  /**
   * The sample log at any point: no sample repeats its predecessor's position,
   * none is on the centre, nothing is logged before onset, and the times are in
   * order between 0 and the milliseconds since onset at clock reading `now`.
   */
  predicate WellLogged(c: TrialConfig, v: Vars, now: real)
  {
    && NoRepeats(v.axisData)
    && SamplesOffCentre(c, v.axisData)
    && (v.targetOn.None? ==> v.axisData == [])
    && (v.targetOn.Some? ==>
          0.0 < v.targetOn.value <= now && SamplesInOrder(v.axisData, ElapsedMs(v.targetOn.value, now)))
  }

  /** A well-formed log stays well-formed at any later clock reading. */
  lemma WellLoggedLater(c: TrialConfig, v: Vars, a: real, b: real)
    requires a <= b && WellLogged(c, v, a)
    ensures WellLogged(c, v, b)
  {
    if v.targetOn.Some? {
      ElapsedMonotone(v.targetOn.value, a, b);
    }
  }

  /** Whichever way an iteration ends, the log it leaves is well-formed at the frame's last clock reading. */
  lemma StepKeepsLog(c: TrialConfig, v: Vars, f: Frame, now: real)
    requires Inv(c, v, now) && Timed(f) && now <= f.inputTime
    ensures WellLogged(c, Step(c, v, f).0, f.responseClock)
  {
    var p := Cursor(c, f);
    var e := FrameError(c, v, f);
    if e != NA {
      var v1 := LatchMovement(c, v, f, p);
      assert Step(c, v, f).0 == v1.(err := Some(e));
      assert WellLogged(c, v, now);
      WellLoggedLater(c, v, now, f.responseClock);
    } else {
      PreTrackInv(c, v, f, now);
      var v4 := StampOnset(c, LogSample(c, LatchMovement(c, v, f, p).(err := Some(NA)), f, p), f);
      assert Step(c, v, f) == Track(c, v4, f, p);
      TrackKeepsLog(c, v4, f, p);
    }
  }

  /** Tracking touches neither the log nor the onset stamp. */
  lemma TrackKeepsLog(c: TrialConfig, v: Vars, f: Frame, p: Point)
    ensures Track(c, v, f, p).0.axisData == v.axisData
    ensures Track(c, v, f, p).0.targetOn == v.targetOn
    ensures Track(c, v, f, p).0.lastX == v.lastX && Track(c, v, f, p).0.lastY == v.lastY
  {
  }

  /** Over chained frames the log is well-formed at the last clock reading, however the loop ended. */
  lemma {:induction false} RunWellLogged(c: TrialConfig, frames: seq<Frame>)
    requires Chained(frames)
    ensures WellLogged(c, Run(c, frames).0, Now(frames))
    decreases |frames|
  {
    if |frames| > 0 {
      var pre := frames[..|frames| - 1];
      var f := frames[|frames| - 1];
      assert Chained(pre);
      RunWellLogged(c, pre);
      assert Now(pre) <= f.inputTime by {
        if |pre| > 0 {
          assert pre[|pre| - 1] == frames[|frames| - 2];
        }
      }
      var r := Run(c, pre);
      if r.1 == Running && Before(f.loopMs, c.timeoutTicket) {
        RunKeepsInv(c, pre);
        StepKeepsLog(c, r.0, f, Now(pre));
      } else {
        WellLoggedLater(c, r.0, Now(pre), Now(frames));
      }
    }
  }
}
