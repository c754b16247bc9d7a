/**
 * What a trial hands back (experiment.py, lines 302-339): the outcome record,
 * with "NA" for every value that was never set, and the decision to write the
 * logged samples, taken on `err == "NA"`.
 */
module Results {
  import opened Wrappers
  import opened Screen
  import opened Schedule
  import opened TrialStep
  import opened TrialRuns

  /** A record field: `Unset` is the string "NA" experiment.py writes for a value never set. */
  datatype Field<T> = Unset | Val(value: T)

  /** The dict the trial returns. Block and trial numbers are copied from the harness and left out. */
  datatype TrialOutcome = TrialOutcome(
    trialType: TrialType,
    mapping: Mapping,
    targetOnset: Field<int>,
    targetDist: int,
    targetAngle: int,
    movementRt: Field<real>,
    contactRt: Field<real>,
    responseRt: Field<real>,
    initialAngle: Field<real>,
    err: ErrCode,
    targetX: int,
    targetY: int)

  /**
   * How `trial()` ends: the frames ran out before the loop stopped, a
   * TrialException recycles the attempt, an exception escapes, or the outcome
   * is returned together with the samples written to the database.
   */
  datatype TrialResult =
    | Unfinished
    | Recycle
    | Crash
    | Finished(outcome: TrialOutcome, written: seq<Sample>)

  /** `"NA" if x is None else x * 1000`. */
  function Millis(o: Option<real>): Field<real>
  {
    if o.None? then Unset else Val(o.value * 1000.0)
  }

  /** `"NA" if x is None else x`. */
  function Plain(o: Option<real>): Field<real>
  {
    if o.None? then Unset else Val(o.value)
  }

  /** The returned dict, built from the configuration and the loop's final locals. */
  function Assemble(c: TrialConfig, v: Vars, e: ErrCode): (o: TrialOutcome)
    ensures o.err == e && o.trialType == c.trialType && o.mapping == c.mapping
    ensures o.targetOnset.Unset? <==> !Truthy(v.targetOn)
    ensures o.targetOnset.Val? ==> o.targetOnset.value == c.targetOnset
    ensures o.movementRt.Unset? <==> v.movementRt.None?
    ensures o.contactRt.Unset? <==> v.contactRt.None?
    ensures o.responseRt.Unset? <==> v.responseRt.None?
    ensures o.initialAngle.Unset? <==> v.initialAngle.None?
    ensures v.movementRt.Some? ==> o.movementRt == Val(v.movementRt.value * 1000.0)
    ensures v.contactRt.Some? ==> o.contactRt == Val(v.contactRt.value * 1000.0)
    ensures v.responseRt.Some? ==> o.responseRt == Val(v.responseRt.value * 1000.0)
    ensures v.initialAngle.Some? ==> o.initialAngle == Val(v.initialAngle.value)
    ensures o.targetDist == c.targetDist && o.targetAngle == c.targetAngle
    ensures (o.targetX, o.targetY) == (c.targetLoc.x, c.targetLoc.y)
  {
    TrialOutcome(
      c.trialType, c.mapping,
      if Truthy(v.targetOn) then Val(c.targetOnset) else Unset,
      c.targetDist, c.targetAngle,
      Millis(v.movementRt), Millis(v.contactRt), Millis(v.responseRt), Plain(v.initialAngle),
      e, c.targetLoc.x, c.targetLoc.y)
  }

  /**
   * After the loop: a recycled attempt or a TypeError produce nothing; a loop
   * that never bound `err` fails at `err == "NA"` (UnboundLocalError); otherwise
   * the record is returned and the samples are written exactly when `err` is "NA".
   */
  function Conclude(c: TrialConfig, r: (Vars, Status)): (t: TrialResult)
    ensures t == Unfinished <==> r.1 == Running
    ensures t == Recycle <==> r.1 == Recycled
    ensures t.Finished? <==> r.1 in {TimedOut, ErrorEnded, Responded} && r.0.err.Some?
    ensures t.Finished? ==> t.outcome.err == r.0.err.value
    ensures t.Finished? && t.outcome.err == NA ==> t.written == r.0.axisData
    ensures t.Finished? && t.outcome.err != NA ==> t.written == []
  {
    var (v, st) := r;
    match st
    case Running => Unfinished
    case Recycled => Recycle
    case Crashed => Crash
    case _ =>
      if v.err.None? then Crash
      else Finished(Assemble(c, v, v.err.value), if v.err.value == NA then v.axisData else [])
  }

  /** The result of running the loop over the frames and finishing the trial. */
  function TrialOf(c: TrialConfig, frames: seq<Frame>): (t: TrialResult)
    ensures |frames| == 0 ==> t == Unfinished
    ensures t.Finished? ==> t.outcome.trialType == c.trialType && t.outcome.mapping == c.mapping
  {
    Conclude(c, Run(c, frames))
  }

  /**
   * Each timing field and `initial_angle` is "NA" exactly when it was never
   * latched at any point of the run, and `target_onset` exactly when the target
   * was never shown.
   */
  lemma NeverLatchedIsNA(c: TrialConfig, frames: seq<Frame>)
    requires TrialOf(c, frames).Finished?
    ensures var o := TrialOf(c, frames).outcome;
      && (o.movementRt.Unset? <==> forall i | 0 <= i <= |frames| :: Run(c, frames[..i]).0.movementRt.None?)
      && (o.initialAngle.Unset? <==> forall i | 0 <= i <= |frames| :: Run(c, frames[..i]).0.initialAngle.None?)
      && (o.contactRt.Unset? <==> forall i | 0 <= i <= |frames| :: Run(c, frames[..i]).0.contactRt.None?)
      && (o.responseRt.Unset? <==> forall i | 0 <= i <= |frames| :: Run(c, frames[..i]).0.responseRt.None?)
      && (o.targetOnset.Unset? <==> forall i | 0 <= i <= |frames| :: !Truthy(Run(c, frames[..i]).0.targetOn))
  {
    var v := Run(c, frames).0;
    assert frames[..|frames|] == frames;
    forall i | 0 <= i <= |frames|
      ensures Evolves(Run(c, frames[..i]).0, v)
    {
      RunEvolves(c, frames, i);
    }
  }

  /**
   * A finished trial records `err` "NA" exactly when it ended by a response or
   * by the timeout, and then writes every logged sample; a trial broken off by
   * an error writes none. A response always has its time recorded, a timeout
   * never.
   */
  lemma WrittenExactlyWithoutError(c: TrialConfig, frames: seq<Frame>)
    requires TrialOf(c, frames).Finished?
    ensures var (v, st) := Run(c, frames);
      var t := TrialOf(c, frames);
      && (t.outcome.err == NA <==> st in {Responded, TimedOut})
      && t.written == (if st == ErrorEnded then [] else v.axisData)
      && (st == Responded ==> t.outcome.responseRt.Val?)
      && (st == TimedOut ==> t.outcome.responseRt.Unset?)
  {
    RunningHasNoError(c, frames);
  }

  /**
   * `err` is left unbound, so finishing the trial raises, exactly when the
   * frames run out or the timeout has fired before the first pass of the loop.
   */
  lemma {:induction false} UnboundErrOnlyWithoutPass(c: TrialConfig, frames: seq<Frame>)
    ensures Run(c, frames).0.err.None? <==>
      |frames| == 0 || !Before(frames[0].loopMs, c.timeoutTicket)
  {
    if |frames| > 0 {
      var first := frames[..1];
      assert first[..|first| - 1] == [];
      assert Run(c, first) == Advance(c, Init(), frames[0]);
      if Before(frames[0].loopMs, c.timeoutTicket) {
        StepErr(c, Init(), frames[0]);
        RunEvolves(c, frames, 1);
      } else {
        RunStopped(c, frames, 1);
      }
    }
  }

  /**
   * A trial that errs before the target appears is recycled with nothing
   * logged. With the target clear of the centre, a trial over chained frames
   * raises only when its first loop test already finds the timeout fired.
   */
  lemma NoDataWithoutTarget(c: TrialConfig, frames: seq<Frame>)
    requires Chained(frames)
    ensures TrialOf(c, frames) == Recycle ==> Run(c, frames).0.axisData == []
    ensures TargetClear(c) ==>
      (TrialOf(c, frames) == Crash <==> |frames| > 0 && !Before(frames[0].loopMs, c.timeoutTicket))
  {
    RecycledLeavesNoData(c, frames);
    RunningHasNoError(c, frames);
    UnboundErrOnlyWithoutPass(c, frames);
    if TargetClear(c) {
      RunNeverCrashes(c, frames);
      if |frames| > 0 && !Before(frames[0].loopMs, c.timeoutTicket) {
        var first := frames[..1];
        assert first[..|first| - 1] == [];
        assert Run(c, first) == (Init(), TimedOut);
        RunStopped(c, frames, 1);
      }
    }
  }

  /**
   * The samples written for a finished trial over chained frames: no sample
   * repeats its predecessor's position, none is on the centre, and any sample
   * at all means the target was shown, with times in order from 0 to the
   * milliseconds between onset and the last clock reading.
   */
  lemma WrittenSamplesWellFormed(c: TrialConfig, frames: seq<Frame>)
    requires Chained(frames) && TrialOf(c, frames).Finished?
    ensures var t := TrialOf(c, frames);
      var v := Run(c, frames).0;
      && NoRepeats(t.written)
      && SamplesOffCentre(c, t.written)
      && (t.written != [] ==>
            t.outcome.targetOnset.Val? && SamplesInOrder(t.written, ElapsedMs(v.targetOn.value, Now(frames))))
  {
    RunWellLogged(c, frames);
  }
}
