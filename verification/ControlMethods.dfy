/** The lifecycle cell and the event loop's handlers as the source writes them. A handler run without
    interruption is proved to be its phases in order. */
module ControlMethods {
  import opened Prelude
  import opened RetryConfig
  import opened ControlEffects
  import opened ControlLoop

  class RunStateCell {
    var state: RunState

    constructor ()
      ensures state.Idle?
    {
      state := Idle;
    }

    method Run() returns (ok: bool)
      modifies this
      ensures ok == Allowed(old(state), ToRunning) && state == Moved(old(state), ToRunning)
    {
      if state.Idle? || state.Paused? {
        state := Running;
        return true;
      }
      return false;
    }

    method Pause() returns (ok: bool)
      modifies this
      ensures ok == Allowed(old(state), ToPaused) && state == Moved(old(state), ToPaused)
    {
      if state.Running? {
        state := Paused;
        return true;
      }
      return false;
    }

    method Reset() returns (ok: bool)
      modifies this
      ensures ok == Allowed(old(state), ToResetting) && state == Moved(old(state), ToResetting)
    {
      if state.Paused? || state.Faulted? {
        state := Resetting;
        return true;
      }
      return false;
    }

    method Fault() returns (ok: bool)
      modifies this
      ensures ok == Allowed(old(state), ToFaulted) && state == Moved(old(state), ToFaulted)
    {
      if state.Running? || state.Paused? {
        state := Faulted;
        return true;
      }
      return false;
    }

    method FaultStart() returns (ok: bool)
      modifies this
      ensures ok == Allowed(old(state), ToFaultedAtStart) && state == Moved(old(state), ToFaultedAtStart)
    {
      if state.Idle? {
        state := Faulted;
        return true;
      }
      return false;
    }

    method CompleteReset() returns (ok: bool)
      modifies this
      ensures ok == Allowed(old(state), ToIdle) && state == Moved(old(state), ToIdle)
    {
      if state.Resetting? {
        state := Idle;
        return true;
      }
      return false;
    }
  }

  /** The handler's remaining phases, with nothing in between. */
  function Settle(s: Loop): Loop
    decreases Left(s.phase)
  {
    if Left(s.phase) == 0 then s else Settle(Go(s))
  }

  lemma {:induction false} SettleKeeps(l: Limits, s: Loop)
    requires LimitsOk(l) && Inv(l, s)
    ensures Inv(l, Settle(s)) && Left(Settle(s).phase) == 0
    decreases Left(s.phase)
  {
    if Left(s.phase) > 0 {
      GoKeeps(l, s);
      SettleKeeps(l, Go(s));
    }
  }

  // ----- Each handler at once -----

  lemma SettleStep(s: Loop)
    requires Left(s.phase) > 0
    ensures Settle(s) == Settle(Go(s))
  {
  }

  function AfterResume(s: Loop): Loop {
    CollectCompleted(s).(run := Running, startedAt := Some(s.now), pausedStatus := None,
                         pipeline := WithGate(s.pipeline, false),
                         crashed := s.crashed || !HasSenders(s.pipeline))
  }

  lemma ResumePhases(l: Limits, s: Loop, sourceOpens: bool, contextDone: bool)
    requires LimitsOk(l) && Inv(l, s) && s.phase.AtSelect? && s.run.Paused?
    ensures Settle(Select(l, s, RunCommand(sourceOpens, contextDone))) == AfterResume(s)
  {
    var s1 := Select(l, s, RunCommand(sourceOpens, contextDone));
    SettleStep(s1);
    SettleStep(Go(s1));
  }

  /** The interval that the clock has been on for. */
  function Ran(s: Loop): nat { if s.startedAt.Some? then Sub(s.now, s.startedAt.value) else 0 }

  function AfterPause(s: Loop): Loop {
    s.(run := Paused, pipeline := WithGate(s.pipeline, true), crashed := s.crashed || !HasSenders(s.pipeline),
       startedAt := None, stamp := None,
       elapsedBefore := s.elapsedBefore + Ran(s), counter := 0, total := s.total + s.counter,
       prom := s.prom + s.counter,
       pausedStatus := Some(Snapshot(s.total + s.counter, ElapsedMs(s, s.now))))
  }

  lemma PausePhases(l: Limits, s: Loop)
    requires LimitsOk(l) && Inv(l, s) && s.phase.AtSelect? && s.run.Running?
    ensures Settle(Select(l, s, PauseCommand)) == AfterPause(s)
  {
    var s1 := Select(l, s, PauseCommand);
    var s2 := Go(s1);
    SettleStep(s1);
    SettleStep(s2);
    SettleStep(Go(s2));
  }

  function AfterReset(s: Loop): Loop {
    ZeroProgress(CollectCompleted(if s.run.Idle? then s else StopRuntime(s))).(run := Idle)
  }

  lemma ResetPhases(l: Limits, s: Loop)
    requires LimitsOk(l) && Inv(l, s) && s.phase.AtSelect? && !s.run.Running?
    ensures Settle(Select(l, s, ResetCommand)) == AfterReset(s)
  {
    var s1 := Select(l, s, ResetCommand);
    var s2 := if s.run.Idle? then s1 else Go(s1);
    SettleStep(s1);
    SettleStep(s2);
    SettleStep(Go(s2));
    SettleStep(Go(Go(s2)));
    assert Go(Go(Go(s2))) == AfterReset(s);
  }

  function AfterFault(s: Loop): Loop {
    s.(run := Faulted, pipeline := None, startedAt := None, stamp := None,
       elapsedBefore := s.elapsedBefore + Ran(s), sourceError := true, pausedStatus := None,
       counter := 0, total := s.total + s.counter, prom := s.prom + s.counter)
  }

  lemma FaultPhases(l: Limits, s: Loop)
    requires LimitsOk(l) && Inv(l, s) && s.phase.AtSelect? && (s.run.Running? || s.run.Paused?)
    ensures Settle(Select(l, s, SourceFails)) == AfterFault(s)
  {
    var s1 := Select(l, s, SourceFails);
    var s2 := Go(s1);
    SettleStep(s1);
    SettleStep(s2);
    SettleStep(Go(s2));
    assert Go(Go(s2)) == AfterFault(s);
  }

  function AfterQuit(s: Loop): Loop { CollectCompleted(StopRuntime(s)).(phase := Exited) }

  lemma QuitPhases(l: Limits, s: Loop)
    requires LimitsOk(l) && Inv(l, s) && s.phase.AtSelect?
    ensures Settle(Select(l, s, Quit)) == AfterQuit(s)
  {
    var s1 := Select(l, s, Quit);
    SettleStep(s1);
    SettleStep(Go(s1));
  }

  /** The loop's state; it moves its lifecycle as the cell's methods do. */
  class EventLoop {
    const limits: Limits
    var run: RunState
    var controls: Controls
    var pipeline: Option<Pipeline>
    var now: nat
    var startedAt: Option<nat>
    var elapsedBefore: nat
    var sourceError: bool
    var pausedStatus: Option<Snapshot>
    var counter: nat
    var total: nat
    var prom: nat
    ghost var phase: Phase
    ghost var crashed: bool
    ghost var past: Past

    ghost function View(): Loop
      reads this
    {
      Loop(run, controls, pipeline, phase, now, None, startedAt, elapsedBefore, sourceError,
           pausedStatus, counter, total, prom, crashed, past)
    }

    ghost predicate Valid()
      reads this
    {
      LimitsOk(limits) && Inv(limits, View()) && (phase.AtSelect? || phase.Exited?)
    }

    constructor (limits: Limits, controls: Controls, now: nat)
      requires LimitsOk(limits) && Within(limits, controls)
      ensures Valid() && View() == Initial(controls, now)
    {
      this.limits, this.controls, this.now := limits, controls, now;
      run, pipeline, startedAt, elapsedBefore := Idle, None, None, 0;
      sourceError, pausedStatus, counter, total, prom := false, None, 0, 0, 0;
      phase, crashed, past := AtSelect, false, Past(0, 0, 0);
    }

    method CollectCompleted() returns (delta: nat)
      modifies `counter, `total, `prom
      ensures counter == 0 && total == old(total) + delta && prom == old(prom) + delta && delta == old(counter)
    {
      delta, counter := counter, 0;
      total := total + delta;
      prom := prom + delta;
    }

    method PauseElapsed(at: nat)
      requires startedAt.Some? ==> startedAt.value <= at
      modifies `elapsedBefore, `startedAt
      ensures startedAt.None?
      ensures elapsedBefore == old(elapsedBefore) + if old(startedAt).Some? then at - old(startedAt).value else 0
    {
      if startedAt.None? { return; }
      elapsedBefore := elapsedBefore + (at - startedAt.value);
      startedAt := None;
    }

    function ElapsedMs(at: nat): (ms: nat)
      reads `elapsedBefore, `startedAt, `run
      ensures var elapsed := elapsedBefore + if run.Running? && startedAt.Some? then at - startedAt.value else 0;
              if elapsed < 0 then ms == 0 else ms * 1_000_000 <= elapsed < (ms + 1) * 1_000_000
      ensures ms == ElapsedOf(elapsedBefore, run.Running?, startedAt, at)
    {
      var running := if run.Running? && startedAt.Some? then at - startedAt.value else 0;
      if elapsedBefore + running < 0 then 0 else (elapsedBefore + running) / 1_000_000
    }

    method StopRuntime()
      modifies `pipeline
      ensures pipeline.None?
    {
      pipeline := None;
    }

    method ResetProgress()
      modifies `counter, `total, `prom, `elapsedBefore, `startedAt, `sourceError, `pausedStatus, `past
      ensures total == 0 == counter && elapsedBefore == 0 && startedAt.None? && !sourceError && pausedStatus.None?
      ensures prom == old(prom) + old(counter) && past == old(past).(sinceReset := 0, ran := 0)
    {
      var delta := CollectCompleted();
      counter := 0;
      total, elapsedBefore, startedAt, sourceError, pausedStatus := 0, 0, None, false, None;
      past := past.(sinceReset := 0, ran := 0);
    }

    /** The invariant, and the handler's phases in order. */
    ghost predicate Handled(s: Loop, command: Step)
      requires LimitsOk(limits)
      reads this
    {
      Valid() && View() == Settle(Select(limits, s, command))
    }

    lemma SettledKeeps(s: Loop, command: Step)
      requires LimitsOk(limits) && Inv(limits, s) && s.phase.AtSelect? && Enabled(s, command)
      requires !command.Deliver? && !command.Pass? && !command.Set? && !command.ReaderStops? && !command.ThrottlerStops?
      ensures Inv(limits, Settle(Select(limits, s, command))) && Left(Settle(Select(limits, s, command)).phase) == 0
    {
      SelectKeeps(limits, s, command);
      SettleKeeps(limits, Select(limits, s, command));
    }

    /** cmdRun. */
    method HandleRun(sourceOpens: bool, contextDone: bool)
      requires Valid() && phase.AtSelect?
      modifies `run, `pipeline, `startedAt, `sourceError, `pausedStatus, `counter, `total, `prom, `crashed
      ensures Handled(old(View()), RunCommand(sourceOpens, contextDone))
      ensures match old(run)
              case Idle =>
                if sourceOpens then Started(old(View()), View(), contextDone) else FailedToStart(old(View()), View())
              case Paused => Resumed(old(View()), View())
              case _ => View() == old(View())
    {
      SettledKeeps(View(), RunCommand(sourceOpens, contextDone));
      if run.Idle? {
        LaunchOrFail(sourceOpens, contextDone);
        return;
      }
      if run.Faulted? { return; }
      if run.Paused? {
        ResumePhases(limits, View(), sourceOpens, contextDone);
        ResumeRun();
      }
    }

    method LaunchOrFail(sourceOpens: bool, contextDone: bool)
      requires Valid() && phase.AtSelect? && run.Idle?
      modifies `run, `pipeline, `startedAt, `sourceError
      ensures LimitsOk(limits) && View() == Select(limits, old(View()), RunCommand(sourceOpens, contextDone))
    {
      if !sourceOpens {
        sourceError := true;
        run := Moved(run, ToFaultedAtStart);
        return;
      }
      pipeline := Some(Pipeline(controls, true, false, contextDone, false));
      run := Moved(run, ToRunning);
      startedAt := Some(now);
    }

    method ResumeRun()
      requires run.Paused?
      modifies `run, `pipeline, `startedAt, `pausedStatus, `counter, `total, `prom, `crashed
      ensures View() == AfterResume(old(View()))
    {
      run := Moved(run, ToRunning);
      startedAt := Some(now);
      var delta := CollectCompleted();
      pausedStatus, crashed := None, crashed || !HasSenders(pipeline);
      pipeline := WithGate(pipeline, false);
    }

    /** cmdPause. */
    method HandlePause()
      requires Valid() && phase.AtSelect?
      modifies `run, `pipeline, `startedAt, `elapsedBefore, `pausedStatus, `counter, `total, `prom, `crashed
      ensures Handled(old(View()), PauseCommand)
      ensures if old(run).Running? then PausedNow(old(View()), View()) else View() == old(View())
    {
      SettledKeeps(View(), PauseCommand);
      if !run.Running? { return; }
      PausePhases(limits, View());
      PauseRun();
    }

    method PauseRun()
      requires run.Running? && (startedAt.Some? ==> startedAt.value <= now)
      modifies `run, `pipeline, `startedAt, `elapsedBefore, `pausedStatus, `counter, `total, `prom, `crashed
      ensures run.Paused? && pipeline == WithGate(old(pipeline), true)
      ensures crashed == (old(crashed) || !HasSenders(old(pipeline)))
      ensures startedAt.None? && elapsedBefore == old(elapsedBefore) + Ran(old(View()))
      ensures counter == 0 && total == old(total) + old(counter) && prom == old(prom) + old(counter)
      ensures pausedStatus == Some(Snapshot(total, old(ElapsedMs(now))))
    {
      crashed, pipeline := crashed || !HasSenders(pipeline), WithGate(pipeline, true);
      var at := now;
      var delta := CollectCompleted();
      var status := Snapshot(total, ElapsedMs(at));
      PauseElapsed(at);
      run, pausedStatus := Moved(run, ToPaused), Some(status);
    }

    /** cmdReset; false: rejected. */
    method HandleReset() returns (accepted: bool)
      requires Valid() && phase.AtSelect?
      modifies `run, `pipeline, `startedAt, `elapsedBefore, `sourceError, `pausedStatus
      modifies `counter, `total, `prom, `past
      ensures Handled(old(View()), ResetCommand)
      ensures accepted == !old(run).Running?
      ensures if accepted then Fresh(View()) else View() == old(View())
    {
      SettledKeeps(View(), ResetCommand);
      if run.Running? { return false; }
      ResetPhases(limits, View());
      ResetRun();
      return true;
    }

    method ResetRun()
      requires !run.Running? && !run.Resetting?
      modifies `run, `pipeline, `startedAt, `elapsedBefore, `sourceError, `pausedStatus
      modifies `counter, `total, `prom, `past
      ensures View() == AfterReset(old(View()))
    {
      if !run.Idle? {
        run := Moved(run, ToResetting);
        StopRuntime();
      }
      ResetProgress();
      run := Moved(run, ToIdle);
    }

    /** A source error from the reader pool. */
    method HandleSourceError()
      requires Valid() && phase.AtSelect? && pipeline.Some?
      modifies `run, `pipeline, `startedAt, `elapsedBefore, `sourceError, `pausedStatus, `counter, `total, `prom
      ensures Handled(old(View()), SourceFails) && FaultedNow(old(View()), View())
    {
      SettledKeeps(View(), SourceFails);
      FaultPhases(limits, View());
      FaultRun();
    }

    method FaultRun()
      requires (run.Running? || run.Paused?) && (startedAt.Some? ==> startedAt.value <= now)
      modifies `run, `pipeline, `startedAt, `elapsedBefore, `sourceError, `pausedStatus, `counter, `total, `prom
      ensures View() == AfterFault(old(View()))
    {
      PauseElapsed(now);
      run, sourceError := Moved(run, ToFaulted), true;
      StopRuntime();
      ResetFaultedMeasurements();
    }

    method ResetFaultedMeasurements()
      modifies `pausedStatus, `counter, `total, `prom
      ensures counter == 0 && total == old(total) + old(counter)
      ensures prom == old(prom) + old(counter) && pausedStatus.None?
    {
      var delta := CollectCompleted();
      pausedStatus, counter := None, 0;
    }

    /** The commands that set a control. */
    method HandleSet(setting: Setting) returns (rejected: bool)
      requires Valid() && phase.AtSelect?
      modifies `controls, `pipeline
      ensures Valid() && rejected == !MaySet(limits, run, setting)
      ensures if rejected then View() == old(View())
              else Stored(old(controls), setting, controls) && OnlySettings(old(View()), View())
    {
      StepKeeps(limits, View(), Set(setting));
      SettingTakesEffect(limits, View(), setting);
      rejected := Rejects(setting);
      if rejected { return; }
      var before := controls;
      Store(setting);
      TellRuntime(before, setting);
    }

    method Store(setting: Setting)
      modifies `controls
      ensures controls == With(old(controls), setting)
    {
      match setting
      case ReadBatchSize(size) => controls := controls.(readBatchSize := size);
      case ReaderCapacity(size) => controls := controls.(readerCapacity := size);
      case SenderCapacity(size) => controls := controls.(senderCapacity := size);
      case ReaderWorkers(count) => controls := controls.(readerWorkers := count);
      case SenderWorkers(count) => controls := controls.(senderWorkers := count);
      case RequestedTps(tps) => controls := controls.(requestedTps := tps);
      case Installed(on) => controls := controls.(installed := on);
    }

    method Rejects(setting: Setting) returns (rejected: bool)
      requires LimitsOk(limits)
      ensures rejected == !Accepts(limits, View(), setting)
    {
      match setting
      case ReadBatchSize(size) =>
        if !run.Idle? { return true; }
        rejected := !Contains(limits.readBatchSize, size);
      case ReaderCapacity(size) => rejected := !run.Idle? || size !in limits.readerCapacity;
      case SenderCapacity(size) => rejected := !run.Idle? || size !in limits.senderCapacity;
      case ReaderWorkers(count) => rejected := !Contains(limits.readerWorkers, count);
      case SenderWorkers(count) => rejected := !Contains(limits.senderWorkers, count);
      case RequestedTps(tps) => rejected := !Contains(limits.requestedTps, tps);
      case Installed(on) => rejected := on !in limits.installed;
    }

    /** Reconciling the pools and updating the throttler, where there are any. */
    method TellRuntime(before: Controls, setting: Setting)
      modifies `pipeline
      ensures pipeline == TellPipeline(old(pipeline), before, setting)
    {
      if pipeline.None? { return; }
      var p := pipeline.value;
      match setting {
        case ReaderWorkers(count) => if !p.readerStopped { p := p.(told := p.told.(readerWorkers := count)); }
        case SenderWorkers(count) => p := p.(told := p.told.(senderWorkers := count));
        case RequestedTps(tps) =>
          if before.requestedTps != tps && !p.throttlerStopped {
            p := p.(told := p.told.(requestedTps := tps, installed := before.installed));
          }
        case Installed(on) =>
          if before.installed != on && !p.throttlerStopped {
            p := p.(told := p.told.(requestedTps := before.requestedTps, installed := on));
          }
        case _ =>
      }
      pipeline := Some(p);
    }

    /** A tick of the metrics. */
    method HandleTick() returns (delta: nat)
      requires Valid() && phase.AtSelect?
      modifies `counter, `total, `prom
      ensures Valid() && counter == 0 && delta == old(counter)
      ensures total == old(total) + delta == past.sinceReset && prom == old(prom) + delta == past.delivered
    {
      StepKeeps(limits, View(), Tick);
      TickTakesEffect(limits, View());
      delta := CollectCompleted();
    }

    /** The deferred end of the loop. */
    method Finish()
      requires Valid() && phase.AtSelect?
      modifies `pipeline, `counter, `total, `prom, `phase
      ensures Handled(old(View()), Quit) && phase.Exited?
      ensures counter == 0 && prom == past.delivered && total == past.sinceReset
    {
      SettledKeeps(View(), Quit);
      QuitPhases(limits, View());
      StopRuntime();
      var delta := CollectCompleted();
      phase := Exited;
    }
  }
}
