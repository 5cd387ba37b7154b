/** The control event loop: lifecycle, totals, elapsed time and the resources of the pipeline. Handlers are
    cut into phases at the points where a worker's delivery, or time, can come between. */
module ControlLoop {
  import opened Prelude
  import opened RetryConfig

  // ----- Lifecycle -----

  datatype RunState = Idle | Running | Paused | Faulted | Resetting

  datatype Transition = ToRunning | ToPaused | ToResetting | ToFaulted | ToFaultedAtStart | ToIdle

  /** The states a transition starts from. */
  predicate Allowed(from: RunState, t: Transition) {
    match t
    case ToRunning => from.Idle? || from.Paused?
    case ToPaused => from.Running?
    case ToResetting => from.Paused? || from.Faulted?
    case ToFaulted => from.Running? || from.Paused?
    case ToFaultedAtStart => from.Idle?
    case ToIdle => from.Resetting?
  }

  function Target(t: Transition): RunState {
    match t
    case ToRunning => Running
    case ToPaused => Paused
    case ToResetting => Resetting
    case ToFaulted | ToFaultedAtStart => Faulted
    case ToIdle => Idle
  }

  /** The state after a transition was asked for: unchanged when it is not allowed. */
  function Moved(from: RunState, t: Transition): RunState {
    if Allowed(from, t) then Target(t) else from
  }

  // ----- State -----

  datatype Controls = Controls(
    readBatchSize: int64, readerWorkers: int64, readerCapacity: int64, senderCapacity: int64,
    requestedTps: int64, installed: bool, senderWorkers: int64)

  /** What the configuration lets each control be. */
  datatype Limits = Limits(
    readBatchSize: Range, readerWorkers: Range, readerCapacity: set<int64>, senderCapacity: set<int64>,
    requestedTps: Range, installed: set<bool>, senderWorkers: Range)

  predicate LimitsOk(l: Limits) {
    l.readBatchSize.step > 0 && l.readerWorkers.step > 0 && l.requestedTps.step > 0 && l.senderWorkers.step > 0
  }

  predicate Within(l: Limits, c: Controls)
    requires LimitsOk(l)
  {
    && Contains(l.readBatchSize, c.readBatchSize) && Contains(l.readerWorkers, c.readerWorkers)
    && c.readerCapacity in l.readerCapacity && c.senderCapacity in l.senderCapacity
    && Contains(l.requestedTps, c.requestedTps) && c.installed in l.installed
    && Contains(l.senderWorkers, c.senderWorkers)
  }

  /** Where the control goroutine is in a handler. */
  datatype Phase =
    | AtSelect
    | ResumeCollect | ResumeOpen
    | PauseStamp | PauseCollect | PauseFinish
    | ResetJoin | ResetCollect | ResetStore | ResetFinish
    | FaultJoin | FaultCollect | FaultStore
    | ExitJoin | ExitCollect | Exited

  datatype Snapshot = Snapshot(total: nat, elapsedMs: nat)

  /** All transactions delivered, those delivered since the last reset, and the time the run clock was on
      since then. */
  datatype Past = Past(delivered: nat, sinceReset: nat, ran: nat)

  /** The stages and both channels, while they exist: the controls they were built with and told since,
      whether the sender pool has goroutines, and whether its gate is closed. A reader pool that has stopped
      itself (for a source error, or because the context is done) ignores a new number of workers, and a
      throttler that has stopped takes no more updates. */
  datatype Pipeline = Pipeline(
    told: Controls, senders: bool, gateClosed: bool, readerStopped: bool, throttlerStopped: bool)

  /** The event loop's state. `past` is history. */
  datatype Loop = Loop(
    run: RunState, controls: Controls, pipeline: Option<Pipeline>, phase: Phase, now: nat, stamp: Option<nat>,
    startedAt: Option<nat>, elapsedBefore: nat, sourceError: bool, pausedStatus: Option<Snapshot>,
    counter: nat, total: nat, prom: nat, crashed: bool, past: Past)

  predicate HasSenders(p: Option<Pipeline>) { p.Some? && p.value.senders }

  function WithGate(p: Option<Pipeline>, closed: bool): Option<Pipeline> {
    if p.Some? then Some(p.value.(gateClosed := closed)) else None
  }

  // ----- What the handlers do -----

  function CollectCompleted(s: Loop): Loop {
    s.(counter := 0, total := s.total + s.counter, prom := s.prom + s.counter)
  }

  function PauseElapsed(s: Loop, now: nat): Loop {
    if s.startedAt.None? then s
    else
      s.(elapsedBefore := s.elapsedBefore + Sub(now, s.startedAt.value), startedAt := None, stamp := None)
  }

  /** Times never go back, so this is their difference. */
  function Sub(now: nat, then_: nat): nat { if now >= then_ then now - then_ else 0 }

  /** In whole ms. A reading from before the start, as a tick can bring one, may take it below zero: then it
      is zero. */
  function ElapsedOf(before: nat, running: bool, startedAt: Option<nat>, now: nat): nat {
    var elapsed := before + if running && startedAt.Some? then now - startedAt.value else 0;
    if elapsed < 0 then 0 else elapsed / 1_000_000
  }

  function ElapsedMs(s: Loop, now: nat): nat { ElapsedOf(s.elapsedBefore, s.run.Running?, s.startedAt, now) }

  /** What the status reports: while paused, the snapshot taken then. */
  function ReportedElapsedMs(s: Loop): nat {
    if s.run.Paused? && s.pausedStatus.Some? then s.pausedStatus.value.elapsedMs else ElapsedMs(s, s.now)
  }

  function ReportedTotal(s: Loop): nat {
    if s.run.Paused? && s.pausedStatus.Some? then s.pausedStatus.value.total else s.total
  }

  function ZeroProgress(s: Loop): Loop {
    s.(total := 0, elapsedBefore := 0, startedAt := None, stamp := None, sourceError := false, pausedStatus := None,
       past := s.past.(sinceReset := 0, ran := 0))
  }

  /** runtime.stop: every goroutine is joined and both channels are closed. */
  function StopRuntime(s: Loop): Loop { s.(pipeline := None) }

  /** A reader pool started under a context that is done already has no workers. */
  function Launch(s: Loop, contextDone: bool): Loop {
    s.(pipeline := Some(Pipeline(s.controls, true, false, contextDone, false)),
       run := Moved(s.run, ToRunning), startedAt := Some(s.now))
  }

  // ----- Steps -----

  datatype Setting =
    | ReadBatchSize(size: int64) | ReaderWorkers(count: int64) | ReaderCapacity(size: int64)
    | SenderCapacity(size: int64) | RequestedTps(tps: int64) | Installed(on: bool) | SenderWorkers(count: int64)

  datatype Step =
    | Deliver(transactions: nat)
    | Pass(time: nat)
    | RunCommand(sourceOpens: bool, contextDone: bool)
    | PauseCommand
    | ResetCommand
    | Set(setting: Setting)
    | SourceFails
    | Tick
    | Quit
    | Continue
    | ReaderStops
    | ThrottlerStops

  /** Batch size and capacities can be set only while idle; each value must be one the configuration has. */
  predicate Accepts(l: Limits, s: Loop, setting: Setting)
    requires LimitsOk(l)
  {
    match setting
    case ReadBatchSize(n) => s.run.Idle? && Contains(l.readBatchSize, n)
    case ReaderWorkers(n) => Contains(l.readerWorkers, n)
    case ReaderCapacity(n) => s.run.Idle? && n in l.readerCapacity
    case SenderCapacity(n) => s.run.Idle? && n in l.senderCapacity
    case RequestedTps(n) => Contains(l.requestedTps, n)
    case Installed(on) => on in l.installed
    case SenderWorkers(n) => Contains(l.senderWorkers, n)
  }

  function With(c: Controls, setting: Setting): Controls {
    match setting
    case ReadBatchSize(n) => c.(readBatchSize := n)
    case ReaderWorkers(n) => c.(readerWorkers := n)
    case ReaderCapacity(n) => c.(readerCapacity := n)
    case SenderCapacity(n) => c.(senderCapacity := n)
    case RequestedTps(n) => c.(requestedTps := n)
    case Installed(on) => c.(installed := on)
    case SenderWorkers(n) => c.(senderWorkers := n)
  }

  /** A pipeline is told of the settings it can take, the throttler only of ones that change. */
  function Told(p: Pipeline, before: Controls, setting: Setting): Pipeline {
    match setting
    case ReaderWorkers(n) => if p.readerStopped then p else p.(told := p.told.(readerWorkers := n))
    case SenderWorkers(n) => p.(told := p.told.(senderWorkers := n))
    case RequestedTps(n) =>
      if p.throttlerStopped || before.requestedTps == n then p
      else p.(told := p.told.(requestedTps := n, installed := before.installed))
    case Installed(on) =>
      if p.throttlerStopped || before.installed == on then p
      else p.(told := p.told.(requestedTps := before.requestedTps, installed := on))
    case _ => p
  }

  function TellPipeline(p: Option<Pipeline>, before: Controls, setting: Setting): Option<Pipeline> {
    if p.Some? then Some(Told(p.value, before, setting)) else None
  }

  function Select(l: Limits, s: Loop, step: Step): Loop
    requires LimitsOk(l)
  {
    match step
    case RunCommand(sourceOpens, contextDone) =>
      if s.run.Idle? then
        if sourceOpens then Launch(s, contextDone)
        else s.(run := Moved(s.run, ToFaultedAtStart), sourceError := true)
      else if s.run.Paused? then
        s.(run := Moved(s.run, ToRunning), startedAt := Some(s.now), phase := ResumeCollect)
      else s
    case PauseCommand =>
      if s.run.Running? then
        s.(pipeline := WithGate(s.pipeline, true), crashed := s.crashed || !HasSenders(s.pipeline), phase := PauseStamp)
      else s
    case ResetCommand =>
      if s.run.Paused? || s.run.Faulted? then s.(run := Moved(s.run, ToResetting), phase := ResetJoin)
      else if s.run.Idle? then s.(phase := ResetCollect)
      else s
    case Set(setting) =>
      if Accepts(l, s, setting) then
        s.(controls := With(s.controls, setting), pipeline := TellPipeline(s.pipeline, s.controls, setting))
      else s
    case SourceFails =>
      if Allowed(s.run, ToFaulted) then
        PauseElapsed(s, s.now).(run := Moved(s.run, ToFaulted), sourceError := true, phase := FaultJoin)
      else s
    case Tick => CollectCompleted(s)
    case Quit => s.(phase := ExitJoin)
    case _ => s
  }

  function Go(s: Loop): Loop {
    match s.phase
    case ResumeCollect => CollectCompleted(s).(pausedStatus := None, phase := ResumeOpen)
    case ResumeOpen =>
      s.(pipeline := WithGate(s.pipeline, false), crashed := s.crashed || !HasSenders(s.pipeline), phase := AtSelect)
    case PauseStamp => s.(stamp := Some(s.now), phase := PauseCollect)
    case PauseCollect => CollectCompleted(s).(phase := PauseFinish)
    case PauseFinish =>
      var at := if s.stamp.Some? then s.stamp.value else s.now;
      PauseElapsed(s, at)
        .(pausedStatus := Some(Snapshot(s.total, ElapsedMs(s, at))), run := Moved(s.run, ToPaused), phase := AtSelect)
    case ResetJoin => StopRuntime(s).(phase := ResetCollect)
    case ResetCollect => CollectCompleted(s).(phase := ResetStore)
    case ResetStore => s.(counter := 0, phase := ResetFinish)
    case ResetFinish => ZeroProgress(s).(run := Moved(s.run, ToIdle), phase := AtSelect)
    case FaultJoin => StopRuntime(s).(phase := FaultCollect)
    case FaultCollect => CollectCompleted(s).(pausedStatus := None, phase := FaultStore)
    case FaultStore => s.(counter := 0, phase := AtSelect)
    case ExitJoin => StopRuntime(s).(phase := ExitCollect)
    case ExitCollect => CollectCompleted(s).(phase := Exited)
    case _ => s
  }

  /** How many phases of the handler are left. */
  function Left(p: Phase): nat {
    match p
    case AtSelect | Exited => 0
    case ResumeOpen | PauseFinish | ResetFinish | FaultStore | ExitCollect => 1
    case ResumeCollect | PauseCollect | ResetStore | FaultCollect | ExitJoin => 2
    case PauseStamp | ResetCollect | FaultJoin => 3
    case ResetJoin => 4
  }

  predicate Enabled(s: Loop, step: Step) {
    match step
    // only live sender workers deliver; the join of the sender pool waits for them
    case Deliver(_) => HasSenders(s.pipeline)
    case Pass(_) => true
    // without a reader pool there is no source error to receive
    case SourceFails => s.phase.AtSelect? && s.pipeline.Some?
    case Continue => !s.phase.AtSelect? && !s.phase.Exited?
    case ReaderStops | ThrottlerStops => s.pipeline.Some?
    case _ => s.phase.AtSelect?
  }

  /** The clock of the run is on from the stamp of its start or resumption to the stamp of its pause. */
  predicate ClockOn(s: Loop) { s.startedAt.Some? && s.stamp.None? }

  function Next(l: Limits, s: Loop, step: Step): Loop
    requires LimitsOk(l)
  {
    if !Enabled(s, step) then s
    else match step
      case Deliver(n) =>
        s.(counter := s.counter + n,
           past := s.past.(delivered := s.past.delivered + n, sinceReset := s.past.sinceReset + n))
      case Pass(time) => s.(now := s.now + time, past := s.past.(ran := s.past.ran + if ClockOn(s) then time else 0))
      case Continue => Go(s)
      case ReaderStops => s.(pipeline := Some(s.pipeline.value.(readerStopped := true)))
      case ThrottlerStops => s.(pipeline := Some(s.pipeline.value.(throttlerStopped := true)))
      case _ => Select(l, s, step)
  }

  function Initial(controls: Controls, now: nat): Loop {
    Loop(Idle, controls, None, AtSelect, now, None, None, 0, false, None, 0, 0, 0, false, Past(0, 0, 0))
  }

  function Run(l: Limits, s: Loop, steps: seq<Step>): Loop
    requires LimitsOk(l)
  {
    if |steps| == 0 then s else Next(l, Run(l, s, steps[..|steps| - 1]), steps[|steps| - 1])
  }

  // ----- What always holds -----

  /** No delivered transaction is lost or counted twice. */
  predicate CountsOk(s: Loop) {
    s.prom + s.counter == s.past.delivered && s.total + s.counter == s.past.sinceReset
  }

  /** The pipeline does what the controls say, but for a reader pool or a throttler that has stopped. */
  predicate Obeys(p: Pipeline, c: Controls) {
    && p.told.readBatchSize == c.readBatchSize && p.told.senderWorkers == c.senderWorkers
    && p.told.readerCapacity == c.readerCapacity && p.told.senderCapacity == c.senderCapacity
    && (!p.readerStopped ==> p.told.readerWorkers == c.readerWorkers)
    && (!p.throttlerStopped ==> p.told.requestedTps == c.requestedTps && p.told.installed == c.installed)
  }

  predicate PipelineUp(s: Loop) { HasSenders(s.pipeline) && Obeys(s.pipeline.value, s.controls) }

  predicate PipelineDown(s: Loop) { s.pipeline.None? }

  predicate GateClosed(p: Option<Pipeline>) { p.Some? && p.value.gateClosed }

  predicate LifecycleOk(s: Loop) {
    match s.phase
    case AtSelect =>
      && !s.run.Resetting?
      && (if s.run.Running? || s.run.Paused? then PipelineUp(s) && GateClosed(s.pipeline) == s.run.Paused?
          else PipelineDown(s))
    case ResumeCollect | ResumeOpen => s.run.Running? && PipelineUp(s)
    case PauseStamp | PauseCollect | PauseFinish => s.run.Running? && PipelineUp(s) && GateClosed(s.pipeline)
    case ResetJoin => s.run.Resetting?
    case ResetCollect | ResetStore | ResetFinish => (s.run.Resetting? || s.run.Idle?) && PipelineDown(s)
    case FaultJoin => s.run.Faulted?
    case FaultCollect | FaultStore => s.run.Faulted? && PipelineDown(s)
    case ExitJoin => true
    case ExitCollect | Exited => PipelineDown(s)
  }

  /** The counter is empty after the join and the collection, so storing zero discards nothing. */
  predicate StoresOk(s: Loop) {
    (s.phase.ResetStore? || s.phase.ResetFinish? || s.phase.FaultStore? || s.phase.Exited?) ==> s.counter == 0
  }

  predicate ErrorOk(s: Loop) {
    match s.phase
    case AtSelect | FaultJoin | FaultCollect | FaultStore => s.sourceError == s.run.Faulted?
    case ResumeCollect | ResumeOpen | PauseStamp | PauseCollect | PauseFinish => !s.sourceError
    case _ => true
  }

  /** Up to when the clock has run. */
  function Until(s: Loop): nat { if s.stamp.Some? then s.stamp.value else s.now }

  predicate ClockOk(s: Loop) {
    && (s.startedAt.Some? ==> s.startedAt.value <= Until(s))
    && (s.stamp.Some? ==>
          s.stamp.value <= s.now && s.startedAt.Some? && (s.phase.PauseCollect? || s.phase.PauseFinish?))
    && (s.phase.PauseCollect? || s.phase.PauseFinish? ==> s.stamp.Some?)
    && s.past.ran == s.elapsedBefore + (if s.startedAt.Some? then Until(s) - s.startedAt.value else 0)
    && (match s.phase
        case AtSelect => s.startedAt.Some? == s.run.Running?
        case ResumeCollect | ResumeOpen | PauseStamp => s.startedAt.Some?
        case ResetJoin | ResetCollect | ResetStore | ResetFinish => s.startedAt.None?
        case FaultJoin | FaultCollect | FaultStore => s.startedAt.None?
        case _ => true)
  }

  predicate SnapshotOk(s: Loop) {
    s.phase.AtSelect? && s.run.Paused? ==>
      && s.pausedStatus.Some? && s.pausedStatus.value.elapsedMs == s.past.ran / 1_000_000
      && s.pausedStatus.value.total <= s.total
  }

  predicate Inv(l: Limits, s: Loop)
    requires LimitsOk(l)
  {
    && !s.crashed && CountsOk(s) && LifecycleOk(s) && StoresOk(s) && ErrorOk(s) && ClockOk(s) && SnapshotOk(s)
    && Within(l, s.controls)
  }

  lemma SelectKeeps(l: Limits, s: Loop, step: Step)
    requires LimitsOk(l) && Inv(l, s) && Enabled(s, step) && s.phase.AtSelect?
    requires !step.Deliver? && !step.Pass? && !step.Set?
    requires !step.ReaderStops? && !step.ThrottlerStops?
    ensures Inv(l, Select(l, s, step))
  {
  }

  lemma SetKeeps(l: Limits, s: Loop, setting: Setting)
    requires LimitsOk(l) && Inv(l, s) && s.phase.AtSelect?
    ensures Inv(l, Select(l, s, Set(setting)))
  {
  }

  lemma PauseGoKeeps(l: Limits, s: Loop)
    requires LimitsOk(l) && Inv(l, s) && (s.phase.PauseStamp? || s.phase.PauseCollect? || s.phase.PauseFinish?)
    ensures Inv(l, Go(s))
  {
  }

  lemma ResetGoKeeps(l: Limits, s: Loop)
    requires LimitsOk(l) && Inv(l, s)
    requires s.phase.ResetJoin? || s.phase.ResetCollect? || s.phase.ResetStore? || s.phase.ResetFinish?
    ensures Inv(l, Go(s))
  {
  }

  lemma OtherGoKeeps(l: Limits, s: Loop)
    requires LimitsOk(l) && Inv(l, s)
    requires s.phase.ResumeCollect? || s.phase.ResumeOpen? || s.phase.FaultJoin? || s.phase.FaultCollect?
             || s.phase.FaultStore?
             || s.phase.ExitJoin? || s.phase.ExitCollect?
    ensures Inv(l, Go(s))
  {
  }

  lemma GoKeeps(l: Limits, s: Loop)
    requires LimitsOk(l) && Inv(l, s)
    ensures Inv(l, Go(s))
  {
    match s.phase
    case AtSelect | Exited =>
    case PauseStamp | PauseCollect | PauseFinish => PauseGoKeeps(l, s);
    case ResetJoin | ResetCollect | ResetStore | ResetFinish => ResetGoKeeps(l, s);
    case _ => OtherGoKeeps(l, s);
  }

  lemma StepKeeps(l: Limits, s: Loop, step: Step)
    requires LimitsOk(l) && Inv(l, s)
    ensures Inv(l, Next(l, s, step))
  {
    if Enabled(s, step) {
      match step
      case Deliver(_) =>
      case Pass(_) =>
      case Continue => GoKeeps(l, s);
      case ReaderStops | ThrottlerStops =>
      case Set(setting) => SetKeeps(l, s, setting);
      case _ => SelectKeeps(l, s, step);
    }
  }

  function Reached(l: Limits, controls: Controls, now: nat, steps: seq<Step>): Loop
    requires LimitsOk(l)
  {
    Run(l, Initial(controls, now), steps)
  }

  lemma {:induction false} ReachedOk(l: Limits, controls: Controls, now: nat, steps: seq<Step>)
    requires LimitsOk(l) && Within(l, controls)
    ensures Inv(l, Reached(l, controls, now, steps))
  {
    if |steps| > 0 {
      ReachedOk(l, controls, now, steps[..|steps| - 1]);
      StepKeeps(l, Reached(l, controls, now, steps[..|steps| - 1]), steps[|steps| - 1]);
    }
  }

  /** At every moment, with deliveries between any two phases: what Prometheus was told and the atomic
      counter are all that was ever delivered; the run's total and the counter what was delivered since
      the last reset. */
  lemma CountsNeverLost(l: Limits, controls: Controls, now: nat, steps: seq<Step>)
    requires LimitsOk(l) && Within(l, controls)
    ensures var s := Reached(l, controls, now, steps);
            s.prom + s.counter == s.past.delivered && s.total + s.counter == s.past.sinceReset
  {
    ReachedOk(l, controls, now, steps);
  }

  /** Storing zero discards nothing, and after the loop has exited everything delivered is accounted for. */
  lemma NothingDiscarded(l: Limits, controls: Controls, now: nat, steps: seq<Step>)
    requires LimitsOk(l) && Within(l, controls)
    ensures var s := Reached(l, controls, now, steps);
      && (s.phase.ResetStore? || s.phase.FaultStore? ==> s.counter == 0 && !HasSenders(s.pipeline))
      && (s.phase.Exited? ==>
            s.counter == 0 && !HasSenders(s.pipeline) && s.prom == s.past.delivered && s.total == s.past.sinceReset)
  {
    ReachedOk(l, controls, now, steps);
  }

  /** Back at the select: running or paused exactly when the whole pipeline exists, doing what the controls say
      (a reader pool or throttler that has stopped itself excepted) and with its gate closed exactly when
      paused; idle or faulted exactly when nothing exists; a source
      error is stored exactly when faulted; resetting is never seen; and no nil pool was used. */
  lemma LifecycleMatchesResources(l: Limits, controls: Controls, now: nat, steps: seq<Step>)
    requires LimitsOk(l) && Within(l, controls) && Reached(l, controls, now, steps).phase.AtSelect?
    ensures var s := Reached(l, controls, now, steps);
      && (s.run.Running? || s.run.Paused? <==> PipelineUp(s))
      && (s.run.Idle? || s.run.Faulted? <==> PipelineDown(s))
      && (PipelineUp(s) ==> GateClosed(s.pipeline) == s.run.Paused?)
      && s.sourceError == s.run.Faulted? && !s.run.Resetting? && !s.crashed && Within(l, s.controls)
  {
    ReachedOk(l, controls, now, steps);
  }

  /** The elapsed time is the time the run's clock has been on since the last reset; while paused the status
      shows it as it was at the pause, and it does not move until the run is resumed. */
  lemma ElapsedIsRunningTime(l: Limits, controls: Controls, now: nat, steps: seq<Step>)
    requires LimitsOk(l) && Within(l, controls) && Reached(l, controls, now, steps).phase.AtSelect?
    ensures var s := Reached(l, controls, now, steps);
      && ElapsedMs(s, s.now) == s.past.ran / 1_000_000 == ReportedElapsedMs(s)
      && ReportedTotal(s) <= s.total
      && (ClockOn(s) <==> s.run.Running?)
  {
    ReachedOk(l, controls, now, steps);
  }

  /** A finished reset leaves a pipeline that is down, with zero progress, whatever it interrupted. */
  lemma ResetIsClean(l: Limits, controls: Controls, now: nat, steps: seq<Step>)
    requires LimitsOk(l) && Within(l, controls) && Reached(l, controls, now, steps).phase.ResetFinish?
    ensures var s := Go(Reached(l, controls, now, steps));
      && s.run.Idle? && PipelineDown(s) && s.total == 0 == s.counter && s.past.ran == 0 == ElapsedMs(s, s.now)
      && !s.sourceError && s.prom == s.past.delivered
  {
    ReachedOk(l, controls, now, steps);
  }
}
