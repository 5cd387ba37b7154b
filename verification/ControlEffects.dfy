/** What each command brings about, field by field: from every state of the invariant, whatever is delivered, stops or
    takes time between the phases of its handler. */
module ControlEffects {
  import opened Prelude
  import opened RetryConfig
  import opened ControlLoop

  /** The handler under way in s is back at the select, or at the exit, after exactly these steps. */
  predicate Ends(l: Limits, s: Loop, steps: seq<Step>)
    requires LimitsOk(l)
  {
    && (forall k {:trigger Run(l, s, steps[..k])} :: 0 <= k < |steps| ==> !Over(Run(l, s, steps[..k])))
    && Over(Run(l, s, steps))
  }

  predicate Over(s: Loop) { s.phase.AtSelect? || s.phase.Exited? }

  /** What every step of a handler keeps holds at its end. */
  lemma {:induction false} HandlerKeeps(l: Limits, s: Loop, steps: seq<Step>, good: Loop -> bool)
    requires LimitsOk(l) && Inv(l, s) && good(s)
    requires forall k {:trigger Run(l, s, steps[..k])} :: 0 <= k < |steps| ==> !Over(Run(l, s, steps[..k]))
    requires forall r, step {:trigger Next(l, r, step)} :: Inv(l, r) && good(r) && !Over(r) ==> good(Next(l, r, step))
    ensures Inv(l, Run(l, s, steps)) && good(Run(l, s, steps))
  {
    if |steps| > 0 {
      var before := steps[..|steps| - 1];
      forall k | 0 <= k < |before| ensures !Over(Run(l, s, before[..k])) {
        assert before[..k] == steps[..k];
      }
      HandlerKeeps(l, s, before, good);
      StepKeeps(l, Run(l, s, before), steps[|steps| - 1]);
    }
  }

  lemma NothingLeft(l: Limits, s: Loop, steps: seq<Step>)
    requires LimitsOk(l) && Over(s) && Ends(l, s, steps)
    ensures Run(l, s, steps) == s
  {
    var first := Run(l, s, steps[..0]);
    assert first == s;
  }

  function CountContinues(steps: seq<Step>): nat {
    if |steps| == 0 then 0
    else CountContinues(steps[..|steps| - 1]) + if steps[|steps| - 1].Continue? then 1 else 0
  }

  predicate OverBy(l: Limits, s: Loop, steps: seq<Step>, n: nat)
    requires LimitsOk(l) && n <= |steps|
  {
    Over(Run(l, s, steps[..n]))
  }

  predicate OverSometime(l: Limits, s: Loop, steps: seq<Step>)
    requires LimitsOk(l)
  {
    exists n :: 0 <= n <= |steps| && OverBy(l, s, steps, n)
  }

  lemma PhaseGoesBy(l: Limits, s: Loop, step: Step)
    requires LimitsOk(l) && !Over(s)
    ensures Left(Next(l, s, step).phase) + (if step.Continue? then 1 else 0) == Left(s.phase)
  {
  }

  lemma OverByEarlier(l: Limits, s: Loop, steps: seq<Step>)
    requires LimitsOk(l) && |steps| > 0 && OverSometime(l, s, steps[..|steps| - 1])
    ensures OverSometime(l, s, steps)
  {
    var before := steps[..|steps| - 1];
    var n :| 0 <= n <= |before| && OverBy(l, s, before, n);
    assert before[..n] == steps[..n];
    assert OverBy(l, s, steps, n);
  }

  /** Until it has ended, a handler has one phase less to go after each move of the control goroutine; nothing else
      matters to it. */
  lemma {:induction false} PhasesGoBy(l: Limits, s: Loop, steps: seq<Step>)
    requires LimitsOk(l)
    ensures OverSometime(l, s, steps)
            || Left(Run(l, s, steps).phase) + CountContinues(steps) == Left(s.phase)
  {
    if |steps| > 0 {
      var before := steps[..|steps| - 1];
      PhasesGoBy(l, s, before);
      if OverSometime(l, s, before) {
        OverByEarlier(l, s, steps);
      } else {
        assert before[..|before|] == before;
        assert !OverBy(l, s, before, |before|);
        PhaseGoesBy(l, Run(l, s, before), steps[|steps| - 1]);
      }
    }
  }

  /** Every handler ends: four moves of the control goroutine are enough, whatever comes between them. */
  lemma HandlersEnd(l: Limits, s: Loop, steps: seq<Step>)
    requires LimitsOk(l) && CountContinues(steps) >= 4
    ensures OverSometime(l, s, steps)
  {
    PhasesGoBy(l, s, steps);
    assert steps[..|steps|] == steps;
    assert OverBy(l, s, steps, |steps|) <==> Over(Run(l, s, steps));
  }

  // ----- Run -----

  /** The whole pipeline is up, told exactly the controls, with its gate open and the clock on. */
  predicate Started(s: Loop, r: Loop, contextDone: bool) {
    && r.run.Running? && r.startedAt == Some(s.now) && !r.sourceError
    && r.pipeline == Some(Pipeline(s.controls, true, false, contextDone, false))
    && r.total == s.total && r.elapsedBefore == s.elapsedBefore
  }

  predicate FailedToStart(s: Loop, r: Loop) {
    && r.run.Faulted? && r.sourceError && r.pipeline.None? && r.startedAt.None?
    && r.total == s.total && r.elapsedBefore == s.elapsedBefore
  }

  /** The gate is open, the clock is on from the command, and everything delivered before is counted. */
  predicate Resumed(s: Loop, r: Loop) {
    && r.run.Running? && r.startedAt == Some(s.now) && r.pausedStatus.None? && !r.sourceError
    && r.pipeline.Some? && r.pipeline.value.senders && !r.pipeline.value.gateClosed
    && r.total >= s.total + s.counter && r.elapsedBefore == s.elapsedBefore
  }

  predicate Resuming(s: Loop, r: Loop) {
    && r.run.Running? && r.startedAt == Some(s.now) && r.elapsedBefore == s.elapsedBefore && r.controls == s.controls
    && (match r.phase
        case ResumeCollect => r.total == s.total && r.counter >= s.counter
        case ResumeOpen => r.total >= s.total + s.counter && r.pausedStatus.None?
        case AtSelect => r.total >= s.total + s.counter && r.pausedStatus.None?
        case _ => false)
  }

  lemma ResumingStep(l: Limits, s: Loop, r: Loop, step: Step)
    requires LimitsOk(l) && Resuming(s, r) && !Over(r) && Inv(l, r)
    ensures Resuming(s, Next(l, r, step))
  {
  }

  lemma ResumeEnds(l: Limits, s: Loop, s1: Loop, steps: seq<Step>)
    requires LimitsOk(l) && Inv(l, s1) && Resuming(s, s1) && Ends(l, s1, steps)
    ensures var r := Run(l, s1, steps); Resumed(s, r) && r.controls == s.controls
  {
    var good := r => Resuming(s, r);
    forall r, step | Inv(l, r) && good(r) && !Over(r) ensures good(Next(l, r, step)) { ResumingStep(l, s, r, step); }
    HandlerKeeps(l, s1, steps, good);
  }

  /** The end of a run command: from idle, the pipeline is up and running if the source opens, and the loop faulted with
      nothing built if not; from paused it goes on; otherwise nothing happens. */
  lemma RunTakesEffect(l: Limits, s: Loop, sourceOpens: bool, contextDone: bool, steps: seq<Step>)
    requires LimitsOk(l) && Inv(l, s) && s.phase.AtSelect?
    requires Ends(l, Next(l, s, RunCommand(sourceOpens, contextDone)), steps)
    ensures var r := Run(l, Next(l, s, RunCommand(sourceOpens, contextDone)), steps);
      && r.controls == s.controls
      && match s.run
         case Idle => if sourceOpens then Started(s, r, contextDone) else FailedToStart(s, r)
         case Paused => Resumed(s, r)
         case _ => r == s
  {
    var s1 := Next(l, s, RunCommand(sourceOpens, contextDone));
    StepKeeps(l, s, RunCommand(sourceOpens, contextDone));
    if s.run.Paused? { ResumeEnds(l, s, s1, steps); } else { NothingLeft(l, s1, steps); }
  }

  // ----- Pause -----

  /** The time that the clock has been on for when it is stopped between s and r. */
  predicate ClockStopped(s: Loop, r: Loop) {
    && r.startedAt.None? && s.startedAt.Some?
    && s.now - s.startedAt.value <= r.elapsedBefore - s.elapsedBefore <= r.now - s.startedAt.value
  }

  /** The gate is closed, the clock off, and the status kept shows what has been counted so far. */
  predicate PausedNow(s: Loop, r: Loop) {
    && r.run.Paused? && ClockStopped(s, r) && !r.sourceError
    && r.pipeline.Some? && r.pipeline.value.senders && r.pipeline.value.gateClosed
    && r.total >= s.total + s.counter
    && r.pausedStatus == Some(Snapshot(r.total, r.elapsedBefore / 1_000_000))
  }

  predicate Pausing(s: Loop, r: Loop) {
    && r.controls == s.controls && s.startedAt.Some? && s.startedAt.value <= s.now <= r.now
    && (match r.phase
        case PauseStamp => r.total == s.total && r.counter >= s.counter && ClockRuns(s, r)
        case PauseCollect => r.total == s.total && r.counter >= s.counter && ClockRuns(s, r) && StampedSince(s, r)
        case PauseFinish => r.total >= s.total + s.counter && ClockRuns(s, r) && StampedSince(s, r)
        case AtSelect =>
          && r.run.Paused? && r.total >= s.total + s.counter && ClockStopped(s, r)
          && r.pausedStatus == Some(Snapshot(r.total, r.elapsedBefore / 1_000_000))
        case _ => false)
  }

  predicate ClockRuns(s: Loop, r: Loop) {
    r.run.Running? && r.startedAt == s.startedAt && r.elapsedBefore == s.elapsedBefore
  }

  predicate StampedSince(s: Loop, r: Loop) { r.stamp.Some? && s.now <= r.stamp.value <= r.now }

  lemma PausingStep(l: Limits, s: Loop, r: Loop, step: Step)
    requires LimitsOk(l) && Pausing(s, r) && !Over(r) && Inv(l, r)
    ensures Pausing(s, Next(l, r, step))
  {
  }

  lemma PauseEnds(l: Limits, s: Loop, s1: Loop, steps: seq<Step>)
    requires LimitsOk(l) && Inv(l, s1) && Pausing(s, s1) && Ends(l, s1, steps)
    ensures var r := Run(l, s1, steps); PausedNow(s, r) && r.controls == s.controls
  {
    var good := r => Pausing(s, r);
    forall r, step | Inv(l, r) && good(r) && !Over(r) ensures good(Next(l, r, step)) { PausingStep(l, s, r, step); }
    HandlerKeeps(l, s1, steps, good);
  }

  /** The end of a pause command. */
  lemma PauseTakesEffect(l: Limits, s: Loop, steps: seq<Step>)
    requires LimitsOk(l) && Inv(l, s) && s.phase.AtSelect? && Ends(l, Next(l, s, PauseCommand), steps)
    ensures var r := Run(l, Next(l, s, PauseCommand), steps);
      r.controls == s.controls && if s.run.Running? then PausedNow(s, r) else r == s
  {
    var s1 := Next(l, s, PauseCommand);
    StepKeeps(l, s, PauseCommand);
    if s.run.Running? { PauseEnds(l, s, s1, steps); } else { NothingLeft(l, s1, steps); }
  }

  // ----- Reset -----

  /** Nothing is left of the run, and all that was delivered is known to Prometheus. */
  predicate Fresh(r: Loop) {
    && r.run.Idle? && r.pipeline.None? && r.total == 0 == r.counter && r.elapsedBefore == 0 && r.startedAt.None?
    && !r.sourceError && r.pausedStatus.None? && r.prom == r.past.delivered
  }

  predicate Clearing(s: Loop, r: Loop) {
    && r.controls == s.controls
    && match r.phase
       case ResetJoin | ResetCollect | ResetStore | ResetFinish => true
       case AtSelect => Fresh(r)
       case _ => false
  }

  lemma ClearingStep(l: Limits, s: Loop, r: Loop, step: Step)
    requires LimitsOk(l) && Clearing(s, r) && !Over(r) && Inv(l, r)
    ensures Clearing(s, Next(l, r, step))
  {
  }

  lemma ResetEnds(l: Limits, s: Loop, s1: Loop, steps: seq<Step>)
    requires LimitsOk(l) && Inv(l, s1) && Clearing(s, s1) && Ends(l, s1, steps)
    ensures var r := Run(l, s1, steps); Fresh(r) && r.controls == s.controls
  {
    var good := r => Clearing(s, r);
    forall r, step | Inv(l, r) && good(r) && !Over(r) ensures good(Next(l, r, step)) { ClearingStep(l, s, r, step); }
    HandlerKeeps(l, s1, steps, good);
  }

  /** The end of a reset command: rejected while running, and else idle, with no pipeline and no progress. */
  lemma ResetTakesEffect(l: Limits, s: Loop, steps: seq<Step>)
    requires LimitsOk(l) && Inv(l, s) && s.phase.AtSelect? && Ends(l, Next(l, s, ResetCommand), steps)
    ensures var r := Run(l, Next(l, s, ResetCommand), steps);
      r.controls == s.controls && if s.run.Running? then r == s else Fresh(r)
  {
    var s1 := Next(l, s, ResetCommand);
    StepKeeps(l, s, ResetCommand);
    if s.run.Running? { NothingLeft(l, s1, steps); } else { ResetEnds(l, s, s1, steps); }
  }

  // ----- Source error -----

  /** The pipeline is gone, the error stored, the clock off, and everything delivered is counted. */
  predicate FaultedNow(s: Loop, r: Loop) {
    && r.run.Faulted? && r.sourceError && r.pipeline.None? && r.startedAt.None? && r.pausedStatus.None?
    && r.counter == 0 && r.total >= s.total + s.counter && r.prom == r.past.delivered
    && r.elapsedBefore == s.elapsedBefore + if s.startedAt.Some? then s.now - s.startedAt.value else 0
  }

  predicate Faulting(s: Loop, r: Loop) {
    && r.controls == s.controls && r.run.Faulted? && r.sourceError && r.startedAt.None?
    && r.elapsedBefore == s.elapsedBefore + (if s.startedAt.Some? then s.now - s.startedAt.value else 0)
    && match r.phase
       case FaultJoin | FaultCollect => r.total == s.total && r.counter >= s.counter
       case FaultStore => r.total >= s.total + s.counter && r.pausedStatus.None?
       case AtSelect => r.total >= s.total + s.counter && r.pausedStatus.None? && r.counter == 0
       case _ => false
  }

  lemma FaultingStep(l: Limits, s: Loop, r: Loop, step: Step)
    requires LimitsOk(l) && Faulting(s, r) && !Over(r) && Inv(l, r)
    ensures Faulting(s, Next(l, r, step))
  {
  }

  lemma FaultEnds(l: Limits, s: Loop, s1: Loop, steps: seq<Step>)
    requires LimitsOk(l) && Inv(l, s1) && Faulting(s, s1) && Ends(l, s1, steps)
    ensures var r := Run(l, s1, steps); FaultedNow(s, r) && r.controls == s.controls
  {
    var good := r => Faulting(s, r);
    forall r, step | Inv(l, r) && good(r) && !Over(r) ensures good(Next(l, r, step)) { FaultingStep(l, s, r, step); }
    HandlerKeeps(l, s1, steps, good);
  }

  /** The end of a source error: one can only come while there is a pipeline. */
  lemma ErrorTakesEffect(l: Limits, s: Loop, steps: seq<Step>)
    requires LimitsOk(l) && Inv(l, s) && s.phase.AtSelect? && Ends(l, Next(l, s, SourceFails), steps)
    ensures var r := Run(l, Next(l, s, SourceFails), steps);
      r.controls == s.controls && if s.pipeline.Some? then FaultedNow(s, r) else r == s
  {
    var s1 := Next(l, s, SourceFails);
    StepKeeps(l, s, SourceFails);
    if s.pipeline.Some? { FaultEnds(l, s, s1, steps); } else { NothingLeft(l, s1, steps); }
  }

  // ----- Quit -----

  predicate Leaving(s: Loop, r: Loop) {
    match r.phase
    case ExitJoin | ExitCollect | Exited => r.controls == s.controls && r.run == s.run
    case _ => false
  }

  lemma LeavingStep(l: Limits, s: Loop, r: Loop, step: Step)
    requires LimitsOk(l) && Leaving(s, r) && !Over(r)
    ensures Leaving(s, Next(l, r, step))
  {
  }

  lemma LeavingEnds(l: Limits, s: Loop, s1: Loop, steps: seq<Step>)
    requires LimitsOk(l) && Inv(l, s1) && Leaving(s, s1) && Ends(l, s1, steps)
    ensures Leaving(s, Run(l, s1, steps)) && Inv(l, Run(l, s1, steps))
  {
    var good := r => Leaving(s, r);
    forall r, step | Inv(l, r) && good(r) && !Over(r) ensures good(Next(l, r, step)) { LeavingStep(l, s, r, step); }
    HandlerKeeps(l, s1, steps, good);
  }

  /** The end of the loop: no pipeline is left, and every transaction ever delivered is in both totals. */
  lemma QuitTakesEffect(l: Limits, s: Loop, steps: seq<Step>)
    requires LimitsOk(l) && Inv(l, s) && s.phase.AtSelect? && Ends(l, Next(l, s, Quit), steps)
    ensures var r := Run(l, Next(l, s, Quit), steps);
      && r.phase.Exited? && r.pipeline.None? && r.counter == 0
      && r.prom == r.past.delivered && r.total == r.past.sinceReset
  {
    StepKeeps(l, s, Quit);
    LeavingEnds(l, s, Next(l, s, Quit), steps);
  }

  // ----- Settings and ticks -----

  /** What a control may be set to, and when. */
  predicate MaySet(l: Limits, run: RunState, setting: Setting)
    requires LimitsOk(l)
  {
    match setting
    case ReadBatchSize(n) => run.Idle? && Contains(l.readBatchSize, n)
    case ReaderCapacity(n) => run.Idle? && n in l.readerCapacity
    case SenderCapacity(n) => run.Idle? && n in l.senderCapacity
    case ReaderWorkers(n) => Contains(l.readerWorkers, n)
    case SenderWorkers(n) => Contains(l.senderWorkers, n)
    case RequestedTps(n) => Contains(l.requestedTps, n)
    case Installed(on) => on in l.installed
  }

  /** The controls with one of them set, in the order of their declaration. */
  predicate Stored(c: Controls, setting: Setting, d: Controls) {
    && d.readBatchSize == (if setting.ReadBatchSize? then setting.size else c.readBatchSize)
    && d.readerWorkers == (if setting.ReaderWorkers? then setting.count else c.readerWorkers)
    && d.readerCapacity == (if setting.ReaderCapacity? then setting.size else c.readerCapacity)
    && d.senderCapacity == (if setting.SenderCapacity? then setting.size else c.senderCapacity)
    && d.requestedTps == (if setting.RequestedTps? then setting.tps else c.requestedTps)
    && d.installed == (if setting.Installed? then setting.on else c.installed)
    && d.senderWorkers == (if setting.SenderWorkers? then setting.count else c.senderWorkers)
  }

  predicate OnlySettings(s: Loop, r: Loop) {
    && r == s.(controls := r.controls, pipeline := r.pipeline) && r.pipeline.Some? == s.pipeline.Some?
    && (s.pipeline.Some? ==> r.pipeline == Some(s.pipeline.value.(told := r.pipeline.value.told)))
  }

  /** A setting is stored if and only if the control may be set to it; nothing else changes but what the pipeline is
      told, and what it has been told is the controls again, but for a reader pool or throttler that has stopped. */
  lemma SettingTakesEffect(l: Limits, s: Loop, setting: Setting)
    requires LimitsOk(l) && Inv(l, s) && s.phase.AtSelect?
    ensures var r := Next(l, s, Set(setting));
      if MaySet(l, s.run, setting) then
        && Stored(s.controls, setting, r.controls) && OnlySettings(s, r)
        && (r.pipeline.Some? ==> Obeys(r.pipeline.value, r.controls))
      else r == s
  {
    StepKeeps(l, s, Set(setting));
  }

  /** A tick moves the counter into both totals and changes nothing else. */
  lemma TickTakesEffect(l: Limits, s: Loop)
    requires LimitsOk(l) && Inv(l, s) && s.phase.AtSelect?
    ensures var r := Next(l, s, Tick);
      && r.counter == 0 && r.total == s.total + s.counter && r.total == r.past.sinceReset
      && r.prom == s.prom + s.counter && r.prom == r.past.delivered
      && r == s.(counter := r.counter, total := r.total, prom := r.prom)
  {
    StepKeeps(l, s, Tick);
  }
}
