/**
 * The processing screen of `app/teacher/results/new/page.tsx`: a progress
 * counter that an interval timer raises by 2 every tick until it reaches
 * 100, then stops and schedules the move to the report; a stage index of
 * five messages derived from the progress; and a row of five dots of which
 * those up to the stage are lit.
 *
 * The timer is left to the caller: each call of `Tick` is one firing of the
 * interval, each call of `SyncStage` one run of the effect that follows a
 * change of progress.
 */
module ProcessingResults {

  const Done: nat := 100
  const Increment: nat := 2
  const StageCount: nat := 5
  const ProgressPerStage: nat := 20

  /** The stage messages. */
  const Stages: seq<string> := [
    "Analyzing responses...", "Identifying learning patterns...", "Detecting potential gaps...",
    "Generating recommendations...", "Creating report..."]

  /** The stage a progress shows: one per 20 points, the last from 80 on. */
  function StageOf(progress: nat): (stage: nat)
    ensures stage < StageCount && stage < |Stages|
    ensures stage * ProgressPerStage <= progress
    ensures stage < StageCount - 1 ==> progress < (stage + 1) * ProgressPerStage
  {
    var s := progress / ProgressPerStage;
    if s < StageCount - 1 then s else StageCount - 1
  }

  /** The stage never goes back as the progress grows. */
  lemma StageMonotone(p: nat, q: nat)
    requires p <= q
    ensures StageOf(p) <= StageOf(q)
  {
  }

  /** One firing of the interval on the progress alone. */
  function Advance(progress: nat): nat
  {
    if progress >= Done then Done else progress + Increment
  }

  /** The progress after `n` firings from 0. */
  function ProgressAfter(n: nat): nat
  {
    if n == 0 then 0 else Advance(ProgressAfter(n - 1))
  }

  /** From 0, the progress after `n` firings is `2n`, capped at 100; it is always even. */
  lemma {:induction false} ProgressAfterValue(n: nat)
    ensures ProgressAfter(n) == if 2 * n < Done then 2 * n else Done
    ensures ProgressAfter(n) % 2 == 0 && ProgressAfter(n) <= Done
  {
    if n > 0 {
      ProgressAfterValue(n - 1);
    }
  }

  /** The lit dots: dot `i` is lit exactly when `i` is at most the stage. */
  function Dots(stage: nat): (dots: seq<bool>)
    ensures |dots| == StageCount
  {
    seq(StageCount, i requires 0 <= i < StageCount => i <= stage)
  }

  /** The lit dots are a prefix of the row, one more than the stage index. */
  lemma DotsRule(stage: nat)
    requires stage < StageCount
    ensures forall i :: 0 <= i < StageCount ==> (Dots(stage)[i] <==> i <= stage)
    ensures forall i, j :: 0 <= i <= j < StageCount && Dots(stage)[j] ==> Dots(stage)[i]
    ensures Dots(stage)[..stage + 1] == seq(stage + 1, _ => true)
  {
  }

  class Processing {
    var progress: nat
    var stage: nat
    var running: bool
    var redirectScheduled: bool

    /**
     * The progress is even and at most 100; the interval stops only at 100,
     * and then the redirect is scheduled; the stage shown never runs ahead
     * of the progress.
     */
    predicate Valid()
      reads this
    {
      progress % 2 == 0 && progress <= Done
      && (!running ==> progress == Done && redirectScheduled)
      && (redirectScheduled ==> !running)
      && stage <= StageOf(progress)
    }

    constructor ()
      ensures Valid()
      ensures progress == 0 && stage == 0 && running && !redirectScheduled
    {
      progress, stage, running, redirectScheduled := 0, 0, true, false;
    }

    /** One firing of the interval: below 100 it adds 2; at 100 it stops and schedules the redirect. */
    method Tick()
      requires Valid() && running
      modifies this
      ensures Valid()
      ensures progress == Advance(old(progress)) && stage == old(stage)
      ensures old(progress) < Done ==> running && !redirectScheduled
      ensures old(progress) >= Done ==> !running && redirectScheduled
    {
      if progress >= Done {
        running := false;
        redirectScheduled := true;
        progress := Done;
      } else {
        StageMonotone(progress, progress + Increment);
        progress := progress + Increment;
      }
    }

    /** The effect after a change of progress: show the stage it calls for. */
    method SyncStage()
      requires Valid()
      modifies this
      ensures Valid()
      ensures stage == StageOf(progress) && old(stage) <= stage
      ensures progress == old(progress) && running == old(running) && redirectScheduled == old(redirectScheduled)
    {
      stage := StageOf(progress);
    }
  }
}
