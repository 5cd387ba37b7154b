/** Starting, joining and closing the pipeline's goroutines and channels, in every interleaving. */
module PipelineRuntime {
  import opened Prelude

  // ----- State -----

  /** The goroutine that closes the reader pool's done channel: it waits for the pool's context, then, with
      the pool marked as stopping, for the workers. */
  datatype Closer = NoPool | WaitingContext | WaitingWorkers | DoneClosed

  datatype Throttler = NotStarted | Running | Exited

  /** The resources of one run: how often each channel was closed, the contexts, and the goroutines alive.
      Only reader workers send on the reader channel, and only the throttler on the sender channel. */
  datatype Resources = Resources(
    readerCloses: nat, senderCloses: nat, cancelled: bool, poolCancelled: bool, poolStopping: bool,
    readers: nat, closer: Closer, throttler: Throttler, senders: nat, senderStopping: bool)

  /** Where the control goroutine is: outside of start and stop, between two steps of start, or before a
      step of stop. */
  datatype Control =
    | Free | MadeChannels | StartedPool
    | StoppingSender | JoiningSender | Cancelling | WaitingPool | WaitingThrottler
    | ClosingReader | ClosingSender | Clearing

  /** The fields of the runtime name the run whose resource they hold; `runs` is every run so far. */
  datatype Runtime = Runtime(
    runs: seq<Resources>, readerBatches: Option<nat>, senderBatches: Option<nat>, context: Option<nat>,
    readerPool: Option<nat>, throttler: Option<nat>, senderPool: Option<nat>, control: Control, panicked: bool)

  // ----- Steps -----

  datatype Step =
    // start, startSender, and the reconciles of the control goroutine
    | MakeChannels
    | StartPool(workers: nat)
    | FailStart
    | StartThrottler
    | StartSender(goroutines: Pos)
    | AddReaders(count: nat)
    | AddSenders(count: nat)
    // stop, which may be called at any time outside of start
    | BeginStop
    | StopStep
    // goroutines of run g
    | ReaderSends(g: nat)
    | ReaderReplaces(g: nat)
    | ReaderExits(g: nat)
    | PoolFails(g: nat)
    | CloserWakes(g: nat)
    | CloserCloses(g: nat)
    | ThrottlerSends(g: nat)
    | ThrottlerExits(g: nat)
    | SenderReplaces(g: nat)
    | SenderExits(g: nat)
    // the context the run's context comes from
    | CancelParent(g: nat)

  predicate PoolRuns(r: Resources) { !r.poolStopping && !r.poolCancelled && !r.cancelled }

  predicate Enabled(s: Runtime, step: Step) {
    match step
    case MakeChannels => s.control.Free? && s.readerBatches.None? && s.senderBatches.None? && s.context.None?
                         && s.readerPool.None? && s.throttler.None? && s.senderPool.None?
    case StartPool(_) => s.control.MadeChannels?
    case FailStart => s.control.MadeChannels?
    case StartThrottler => s.control.StartedPool?
    case StartSender(_) => s.control.Free? && s.senderPool.None? && Live(s, s.context) && Live(s, s.senderBatches)
    case AddReaders(_) => s.control.Free? && Live(s, s.readerPool) && PoolRuns(s.runs[s.readerPool.value])
    case AddSenders(_) => s.control.Free? && Live(s, s.senderPool) && !s.runs[s.senderPool.value].senderStopping
    case BeginStop => s.control.Free?
    case StopStep =>
      (match s.control
       case StoppingSender | Cancelling | ClosingReader | ClosingSender | Clearing => true
       case JoiningSender => Live(s, s.senderPool) && s.runs[s.senderPool.value].senders == 0
       case WaitingPool => Live(s, s.readerPool) ==> s.runs[s.readerPool.value].closer.DoneClosed?
       case WaitingThrottler => Live(s, s.throttler) ==> s.runs[s.throttler.value].throttler.Exited?
       case _ => false)
    case ReaderSends(g) => g < |s.runs| && s.runs[g].readers > 0
    case ReaderReplaces(g) => g < |s.runs| && s.runs[g].readers > 0 && PoolRuns(s.runs[g])
    case ReaderExits(g) => g < |s.runs| && s.runs[g].readers > 0
    case PoolFails(g) => g < |s.runs| && s.runs[g].readers > 0
    case CloserWakes(g) =>
      g < |s.runs| && s.runs[g].closer.WaitingContext? && (s.runs[g].cancelled || s.runs[g].poolCancelled)
    case CloserCloses(g) => g < |s.runs| && s.runs[g].closer.WaitingWorkers? && s.runs[g].readers == 0
    case ThrottlerSends(g) => g < |s.runs| && s.runs[g].throttler.Running?
    case ThrottlerExits(g) =>
      g < |s.runs| && s.runs[g].throttler.Running? && (s.runs[g].cancelled || s.runs[g].readerCloses > 0)
    case SenderReplaces(g) => g < |s.runs| && s.runs[g].senders > 0 && !s.runs[g].senderStopping
    case SenderExits(g) => g < |s.runs| && s.runs[g].senders > 0
    case CancelParent(g) => g < |s.runs|
  }

  /** A field that is set, to a run that exists. */
  predicate Live(s: Runtime, field: Option<nat>) { field.Some? && field.value < |s.runs| }

  function On(s: Runtime, g: nat, r: Resources): Runtime
    requires g < |s.runs|
  {
    s.(runs := s.runs[g := r])
  }

  const NEW_RUN := Resources(0, 0, false, false, false, 0, NoPool, NotStarted, 0, false)

  /** Closing a channel; closing it again panics. */
  function CloseReader(s: Runtime, field: Option<nat>): Runtime {
    if !Live(s, field) then s
    else
      var r := s.runs[field.value];
      On(s, field.value, r.(readerCloses := r.readerCloses + 1)).(panicked := s.panicked || r.readerCloses > 0)
  }

  function CloseSender(s: Runtime, field: Option<nat>): Runtime {
    if !Live(s, field) then s
    else
      var r := s.runs[field.value];
      On(s, field.value, r.(senderCloses := r.senderCloses + 1)).(panicked := s.panicked || r.senderCloses > 0)
  }

  function CancelRun(s: Runtime): Runtime {
    if Live(s, s.context) then On(s, s.context.value, s.runs[s.context.value].(cancelled := true)) else s
  }

  /** One step of stop: join the sender pool, cancel, wait for the reader pool and the throttler, close. */
  function Stop(s: Runtime): Runtime {
    match s.control
    case StoppingSender =>
      if Live(s, s.senderPool) then
        On(s, s.senderPool.value, s.runs[s.senderPool.value].(senderStopping := true)).(control := JoiningSender)
      else s.(control := Cancelling)
    case JoiningSender => s.(senderPool := None, control := Cancelling)
    case Cancelling => CancelRun(s).(control := WaitingPool)
    case WaitingPool => s.(control := WaitingThrottler)
    case WaitingThrottler => s.(control := ClosingReader)
    case ClosingReader => CloseReader(s, s.readerBatches).(control := ClosingSender)
    case ClosingSender => CloseSender(s, s.senderBatches).(control := Clearing)
    case Clearing =>
      s.(readerBatches := None, senderBatches := None, context := None, readerPool := None,
         throttler := None, control := Free)
    case _ => s
  }

  function Next(s: Runtime, step: Step): Runtime {
    if !Enabled(s, step) then s
    else
      var last := |s.runs| - 1;
      match step
      case MakeChannels =>
        s.(runs := s.runs + [NEW_RUN], readerBatches := Some(|s.runs|), senderBatches := Some(|s.runs|),
           context := Some(|s.runs|), control := MadeChannels)
      case StartPool(workers) =>
        if !Live(s, s.context) then s
        else On(s, s.context.value, s.runs[s.context.value].(readers := workers, closer := WaitingContext))
             .(readerPool := s.context, control := StartedPool)
      case FailStart =>
        CloseSender(CloseReader(CancelRun(s), s.readerBatches), s.senderBatches)
          .(context := None, readerBatches := None, senderBatches := None, control := Free)
      case StartThrottler =>
        if !Live(s, s.context) then s
        else On(s, s.context.value, s.runs[s.context.value].(throttler := Running))
             .(throttler := s.context, control := Free)
      case StartSender(goroutines) =>
        On(s, s.context.value, s.runs[s.context.value].(senders := goroutines)).(senderPool := s.context)
      case AddReaders(count) => On(s, s.readerPool.value, MoreReaders(s.runs[s.readerPool.value], count))
      case AddSenders(count) =>
        On(s, s.senderPool.value, s.runs[s.senderPool.value].(senders := s.runs[s.senderPool.value].senders + count))
      case BeginStop => s.(control := StoppingSender)
      case StopStep => Stop(s)
      // sending on a closed channel panics
      case ReaderSends(g) => s.(panicked := s.panicked || s.runs[g].readerCloses > 0)
      case ReaderReplaces(g) => On(s, g, MoreReaders(s.runs[g], 1))
      case ReaderExits(g) => On(s, g, s.runs[g].(readers := s.runs[g].readers - 1))
      case PoolFails(g) => On(s, g, s.runs[g].(poolCancelled := true))
      case CloserWakes(g) => On(s, g, s.runs[g].(poolStopping := true, closer := WaitingWorkers))
      case CloserCloses(g) => On(s, g, s.runs[g].(closer := DoneClosed))
      case ThrottlerSends(g) => s.(panicked := s.panicked || s.runs[g].senderCloses > 0)
      case ThrottlerExits(g) => On(s, g, s.runs[g].(throttler := Exited))
      case SenderReplaces(g) => On(s, g, s.runs[g].(senders := s.runs[g].senders + 1))
      case SenderExits(g) => On(s, g, s.runs[g].(senders := s.runs[g].senders - 1))
      case CancelParent(g) => On(s, g, s.runs[g].(cancelled := true))
  }

  function MoreReaders(r: Resources, count: nat): Resources { r.(readers := r.readers + count) }

  const INITIAL := Runtime([], None, None, None, None, None, None, Free, false)

  function Run(s: Runtime, steps: seq<Step>): Runtime {
    if |steps| == 0 then s else Next(Run(s, steps[..|steps| - 1]), steps[|steps| - 1])
  }

  function Reached(steps: seq<Step>): Runtime { Run(INITIAL, steps) }

  // ----- What always holds -----

  /** Once its context is done, the pool only loses workers; with its done channel closed it has none. */
  predicate PoolOk(r: Resources) {
    && (r.poolStopping ==> r.poolCancelled || r.cancelled)
    && (r.closer.WaitingWorkers? || r.closer.DoneClosed? ==> r.poolStopping)
    && (r.closer.DoneClosed? ==> r.readers == 0)
    && (r.closer.NoPool? ==> r.readers == 0)
  }

  predicate ReadersGone(r: Resources) { r.closer.NoPool? || r.closer.DoneClosed? }

  /** Joined and closed: no goroutine is left, the context is cancelled, and each channel was closed once. */
  predicate Dead(r: Resources) {
    && PoolOk(r) && ReadersGone(r) && !r.throttler.Running? && r.senders == 0 && r.cancelled
    && r.readerCloses == 1 && r.senderCloses == 1
  }

  predicate AllSet(s: Runtime, g: nat) {
    s.readerBatches == s.senderBatches == s.context == s.readerPool == s.throttler == Some(g)
  }

  predicate NoneSet(s: Runtime) {
    s.readerBatches == s.senderBatches == s.context == s.readerPool == s.throttler == None
  }

  predicate SenderField(s: Runtime, g: nat, r: Resources) {
    s.senderPool == Some(g) || (s.senderPool == None && r.senders == 0)
  }

  /** What the control goroutine's position says about the last run. */
  predicate LastOk(s: Runtime, g: nat, r: Resources) {
    match s.control
    case MadeChannels =>
      s.readerBatches == s.senderBatches == s.context == Some(g) && s.readerPool == s.throttler == s.senderPool == None
      && r.closer.NoPool? && r.throttler.NotStarted? && r.senders == 0 && r.readerCloses == r.senderCloses == 0
    case StartedPool =>
      s.readerBatches == s.senderBatches == s.context == s.readerPool == Some(g) && s.throttler == s.senderPool == None
      && !r.closer.NoPool? && r.throttler.NotStarted? && r.senders == 0 && r.readerCloses == r.senderCloses == 0
    case Free | StoppingSender => IdleOk(s, r) || (RunningOk(s, g, r) && SenderField(s, g, r))
    case JoiningSender => RunningOk(s, g, r) && s.senderPool == Some(g) && r.senderStopping
    case Cancelling => IdleOk(s, r) || (RunningOk(s, g, r) && s.senderPool == None && r.senders == 0)
    case WaitingPool => IdleOk(s, r) || (RunningOk(s, g, r) && s.senderPool == None && r.senders == 0 && r.cancelled)
    case WaitingThrottler =>
      IdleOk(s, r) || (RunningOk(s, g, r) && s.senderPool == None && r.senders == 0 && ReadersGone(r) && r.cancelled)
    case ClosingReader =>
      IdleOk(s, r) || (RunningOk(s, g, r) && s.senderPool == None && r.senders == 0 && ReadersGone(r)
                       && r.throttler.Exited? && r.cancelled)
    case ClosingSender =>
      IdleOk(s, r) || (AllSet(s, g) && s.senderPool == None && r.senders == 0 && PoolOk(r) && ReadersGone(r)
                       && r.throttler.Exited? && r.cancelled && r.readerCloses == 1 && r.senderCloses == 0)
    case Clearing => IdleOk(s, r) || (AllSet(s, g) && s.senderPool == None && Dead(r))
  }

  predicate IdleOk(s: Runtime, r: Resources) { NoneSet(s) && s.senderPool == None && Dead(r) }

  predicate RunningOk(s: Runtime, g: nat, r: Resources) {
    AllSet(s, g) && !r.closer.NoPool? && !r.throttler.NotStarted? && r.readerCloses == r.senderCloses == 0
  }

  predicate EarlierDead(runs: seq<Resources>) {
    forall g :: 0 <= g < |runs| - 1 ==> Dead(runs[g])
  }

  predicate Inv(s: Runtime) {
    && !s.panicked && EarlierDead(s.runs)
    && if |s.runs| == 0 then
         NoneSet(s) && s.senderPool == None && !s.control.MadeChannels? && !s.control.StartedPool?
         && !s.control.JoiningSender?
       else PoolOk(s.runs[|s.runs| - 1]) && LastOk(s, |s.runs| - 1, s.runs[|s.runs| - 1])
  }

  /** A goroutine of a dead run has no step that matters. */
  lemma DeadStays(s: Runtime, g: nat, step: Step)
    requires Inv(s) && g < |s.runs| - 1 && Enabled(s, step) && Goroutine(step) == Some(g)
    ensures Inv(Next(s, step))
  {
    assert Dead(s.runs[g]);
    assert step.CancelParent?;
  }

  function Goroutine(step: Step): Option<nat> {
    match step
    case ReaderSends(g) => Some(g)
    case ReaderReplaces(g) => Some(g)
    case ReaderExits(g) => Some(g)
    case PoolFails(g) => Some(g)
    case CloserWakes(g) => Some(g)
    case CloserCloses(g) => Some(g)
    case ThrottlerSends(g) => Some(g)
    case ThrottlerExits(g) => Some(g)
    case SenderReplaces(g) => Some(g)
    case SenderExits(g) => Some(g)
    case CancelParent(g) => Some(g)
    case _ => None
  }

  lemma ReaderKeeps(s: Runtime, step: Step)
    requires Inv(s) && Enabled(s, step) && |s.runs| > 0 && Goroutine(step) == Some(|s.runs| - 1)
    requires step.ReaderSends? || step.ReaderReplaces? || step.ReaderExits? || step.PoolFails?
             || step.CloserWakes? || step.CloserCloses?
    ensures Inv(Next(s, step))
  {
  }

  lemma OtherKeeps(s: Runtime, step: Step)
    requires Inv(s) && Enabled(s, step) && |s.runs| > 0 && Goroutine(step) == Some(|s.runs| - 1)
    requires step.ThrottlerSends? || step.ThrottlerExits? || step.SenderReplaces? || step.SenderExits?
             || step.CancelParent?
    ensures Inv(Next(s, step))
  {
  }

  lemma JoinKeeps(s: Runtime)
    requires Inv(s) && Enabled(s, StopStep)
    requires s.control.StoppingSender? || s.control.JoiningSender? || s.control.Cancelling?
             || s.control.WaitingPool? || s.control.WaitingThrottler?
    ensures Inv(Next(s, StopStep))
  {
  }

  lemma CloseKeeps(s: Runtime)
    requires Inv(s) && Enabled(s, StopStep)
    requires s.control.ClosingReader? || s.control.ClosingSender? || s.control.Clearing?
    ensures Inv(Next(s, StopStep))
  {
  }

  lemma StartKeeps(s: Runtime, step: Step)
    requires Inv(s) && Enabled(s, step) && Goroutine(step).None? && !step.StopStep?
    ensures Inv(Next(s, step))
  {
    if step.MakeChannels? && |s.runs| > 0 {
      assert Dead(s.runs[|s.runs| - 1]);
    }
  }

  lemma StepKeeps(s: Runtime, step: Step)
    requires Inv(s)
    ensures Inv(Next(s, step))
  {
    if Enabled(s, step) {
      var g := Goroutine(step);
      if g.None? {
        if !step.StopStep? {
          StartKeeps(s, step);
        } else if s.control.ClosingReader? || s.control.ClosingSender? || s.control.Clearing? {
          CloseKeeps(s);
        } else {
          JoinKeeps(s);
        }
      } else if g.value < |s.runs| - 1 {
        DeadStays(s, g.value, step);
      } else if step.ThrottlerSends? || step.ThrottlerExits? || step.SenderReplaces? || step.SenderExits?
                || step.CancelParent? {
        OtherKeeps(s, step);
      } else {
        ReaderKeeps(s, step);
      }
    }
  }

  lemma {:induction false} ReachedOk(steps: seq<Step>)
    ensures Inv(Reached(steps))
  {
    if |steps| > 0 {
      ReachedOk(steps[..|steps| - 1]);
      StepKeeps(Reached(steps[..|steps| - 1]), steps[|steps| - 1]);
    }
  }

  /** No interleaving sends on a closed channel or closes one twice. */
  lemma NeverPanics(steps: seq<Step>)
    ensures !Reached(steps).panicked
    ensures forall g :: 0 <= g < |Reached(steps).runs| ==>
              Reached(steps).runs[g].readerCloses <= 1 && Reached(steps).runs[g].senderCloses <= 1
  {
    ReachedOk(steps);
  }

  /** A closed reader channel has no reader worker left, and a closed sender channel no throttler. */
  lemma ClosedHasNoSender(steps: seq<Step>, g: nat)
    requires g < |Reached(steps).runs|
    ensures var r := Reached(steps).runs[g];
      && (r.readerCloses > 0 ==> r.readers == 0 && ReadersGone(r))
      && (r.senderCloses > 0 ==> !r.throttler.Running? && r.senders == 0 && r.readers == 0)
  {
    ReachedOk(steps);
    var s := Reached(steps);
    if g < |s.runs| - 1 {
      assert Dead(s.runs[g]);
    }
  }

  /** Whenever nothing is set outside of stop (at first, after a failed start, after any stop), every run so
      far is joined, with each of its channels closed exactly once. */
  lemma QuietWhenIdle(steps: seq<Step>)
    requires Reached(steps).control.Free? && Reached(steps).context.None?
    ensures NoneSet(Reached(steps)) && Reached(steps).senderPool.None?
    ensures forall g :: 0 <= g < |Reached(steps).runs| ==> Dead(Reached(steps).runs[g])
  {
    ReachedOk(steps);
  }

  /** After stop, whatever came before and however often it is called, nothing is set. */
  lemma StopClears(steps: seq<Step>)
    requires Reached(steps).control.Clearing?
    ensures var s := Next(Reached(steps), StopStep); s.control.Free? && NoneSet(s) && s.senderPool.None?
                                                     && forall g :: 0 <= g < |s.runs| ==> Dead(s.runs[g])
  {
    ReachedOk(steps);
  }

  function Stops(n: nat): seq<Step> { seq(n, _ => StopStep) }

  /** Where a stop with nothing to stop goes next. */
  function Then(at: Control): Control {
    match at
    case StoppingSender => Cancelling
    case Cancelling => WaitingPool
    case WaitingPool => WaitingThrottler
    case WaitingThrottler => ClosingReader
    case ClosingReader => ClosingSender
    case ClosingSender => Clearing
    case _ => Free
  }

  function AfterStops(n: nat): Control { if n == 0 then StoppingSender else Then(AfterStops(n - 1)) }

  predicate OfStop(at: Control) { !at.MadeChannels? && !at.StartedPool? && !at.JoiningSender? }

  lemma NothingToStop(s: Runtime, at: Control)
    requires NoneSet(s) && s.senderPool.None? && OfStop(at)
    ensures Next(s.(control := at), StopStep) == s.(control := Then(at))
  {
  }

  lemma {:induction false} StopsSkip(s: Runtime, n: nat)
    requires NoneSet(s) && s.senderPool.None?
    ensures Run(s.(control := StoppingSender), Stops(n)) == s.(control := AfterStops(n)) && OfStop(AfterStops(n))
  {
    if n > 0 {
      StopsSkip(s, n - 1);
      assert Stops(n)[..n - 1] == Stops(n - 1);
      NothingToStop(s, AfterStops(n - 1));
    }
  }

  lemma {:induction false} StopsEnd(n: nat)
    requires n >= 7
    ensures AfterStops(n).Free?
  {
    if n > 7 {
      StopsEnd(n - 1);
    } else {
      assert AfterStops(3).WaitingThrottler?;
      assert AfterStops(5).ClosingSender?;
    }
  }

  /** With nothing set, a stop goes through all its steps, closes nothing, and leaves everything as it was. */
  lemma SecondStopClosesNothing(s: Runtime, n: nat)
    requires NoneSet(s) && s.senderPool.None? && s.control.Free? && n >= 7
    ensures Run(Next(s, BeginStop), Stops(n)) == s
  {
    StopsSkip(s, n);
    StopsEnd(n);
  }

  // ----- Starts and stops end -----

  lemma {:induction false} RunBoth(s: Runtime, a: seq<Step>, b: seq<Step>)
    ensures Run(s, a + b) == Run(Run(s, a), b)
  {
    if |b| == 0 {
      assert a + b == a;
    } else {
      RunBoth(s, a, b[..|b| - 1]);
      assert (a + b)[..|a + b| - 1] == a + b[..|b| - 1];
    }
  }

  lemma RunFirst(s: Runtime, step: Step, rest: seq<Step>)
    ensures Run(s, [step] + rest) == Run(Next(s, step), rest)
  {
    assert [step][..0] == [] && Run(s, [step]) == Next(Run(s, []), step);
    RunBoth(s, [step], rest);
  }

  predicate Starting(s: Runtime, g: nat) {
    && |s.runs| == g + 1
    && (s.control.MadeChannels? || s.control.StartedPool? || (s.control.Free? && AllSet(s, g)))
  }

  /** No step of these fails the start, begins the stop, or starts anything after the start has ended. */
  predicate OnlyStarts(steps: seq<Step>) {
    forall k :: 0 <= k < |steps| ==> !steps[k].FailStart? && !steps[k].BeginStop?
  }

  lemma StartingStep(s: Runtime, g: nat, step: Step)
    requires Inv(s) && Starting(s, g) && !step.FailStart? && !step.BeginStop?
    ensures Starting(Next(s, step), g)
  {
  }

  lemma {:induction false} StartingRun(s: Runtime, g: nat, steps: seq<Step>)
    requires Inv(s) && Starting(s, g) && OnlyStarts(steps)
    ensures Inv(Run(s, steps)) && Starting(Run(s, steps), g)
  {
    if |steps| > 0 {
      var before := steps[..|steps| - 1];
      StartingRun(s, g, before);
      StartingStep(Run(s, before), g, steps[|steps| - 1]);
      StepKeeps(Run(s, before), steps[|steps| - 1]);
    }
  }

  predicate Built(s: Runtime, g: nat) {
    && |s.runs| == g + 1 && AllSet(s, g)
    && s.runs[g].readerCloses == 0 == s.runs[g].senderCloses
    && !s.runs[g].closer.NoPool? && !s.runs[g].throttler.NotStarted?
  }

  lemma StartedIsBuilt(s: Runtime, g: nat)
    requires Inv(s) && Starting(s, g) && s.control.Free?
    ensures Built(s, g)
  {
  }

  /** A start that does not fail has built everything when it ends, whatever its goroutines have done by then: both
      channels open, a context, the reader pool with the goroutine that closes it, and the throttler. */
  lemma StartBuilds(before: seq<Step>, steps: seq<Step>)
    requires Enabled(Reached(before), MakeChannels) && OnlyStarts(steps)
    requires Run(Next(Reached(before), MakeChannels), steps).control.Free?
    ensures Built(Run(Next(Reached(before), MakeChannels), steps), |Reached(before).runs|)
  {
    ReachedOk(before);
    StartMakes(Reached(before), steps);
  }

  lemma StartMakes(s: Runtime, steps: seq<Step>)
    requires Inv(s) && Enabled(s, MakeChannels) && OnlyStarts(steps) && Run(Next(s, MakeChannels), steps).control.Free?
    ensures Built(Run(Next(s, MakeChannels), steps), |s.runs|)
  {
    var s1 := Next(s, MakeChannels);
    StepKeeps(s, MakeChannels);
    StartingRun(s1, |s.runs|, steps);
    StartedIsBuilt(Run(s1, steps), |s.runs|);
  }

  /** Of the last run: how many goroutines send to each channel, and how many deliver. */
  predicate Alive(s: Runtime, readers: nat, throttler: Throttler, senders: nat) {
    |s.runs| > 0
    && var r := s.runs[|s.runs| - 1]; r.readers == readers && r.throttler == throttler && r.senders == senders
  }

  /** The goroutines asked for are the ones that start, on the run under way. */
  lemma StartsGoroutines(s: Runtime, step: Step, readers: nat, throttler: Throttler, senders: nat)
    requires Inv(s) && Enabled(s, step) && Alive(s, readers, throttler, senders)
    ensures match step
            case MakeChannels => Alive(Next(s, step), 0, NotStarted, 0)
            case StartPool(n) => readers == 0 && Alive(Next(s, step), n, throttler, senders)
            case StartThrottler => throttler.NotStarted? && Alive(Next(s, step), readers, Running, senders)
            case StartSender(n) => senders == 0 && Alive(Next(s, step), readers, throttler, n)
            case AddReaders(n) => Alive(Next(s, step), readers + n, throttler, senders)
            case AddSenders(n) => Alive(Next(s, step), readers, throttler, senders + n)
            case _ => true
  {
  }

  predicate InStop(at: Control) { !at.Free? && !at.MadeChannels? && !at.StartedPool? }

  function StopsLeft(at: Control): nat {
    match at
    case StoppingSender => 8
    case JoiningSender => 7
    case Cancelling => 6
    case WaitingPool => 5
    case WaitingThrottler => 4
    case ClosingReader => 3
    case ClosingSender => 2
    case Clearing => 1
    case _ => 0
  }

  /** What the goroutines of a run have left to do before it is joined. */
  function WorkLeft(r: Resources): nat {
    r.senders + r.readers + (if r.throttler.Running? then 1 else 0)
    + match r.closer
      case NoPool | DoneClosed => 0
      case WaitingContext => 2
      case WaitingWorkers => 1
  }

  /** What can happen next to bring a stop nearer to its end. */
  function NextOfStop(s: Runtime): Step {
    var g := |s.runs| - 1;
    if Enabled(s, StopStep) || g < 0 then StopStep
    else
      match s.control
      case JoiningSender => SenderExits(g)
      case WaitingPool =>
        if s.runs[g].closer.WaitingContext? then CloserWakes(g)
        else if s.runs[g].readers > 0 then ReaderExits(g)
        else CloserCloses(g)
      case _ => ThrottlerExits(g)
  }

  function LastWork(s: Runtime): nat { if |s.runs| == 0 then 0 else WorkLeft(s.runs[|s.runs| - 1]) }

  lemma StopGoesOn(s: Runtime)
    requires InStop(s.control) && Enabled(s, StopStep)
    ensures var r := Next(s, StopStep).control; (InStop(r) || r.Free?) && StopsLeft(r) < StopsLeft(s.control)
  {
  }

  lemma StopWaits(s: Runtime)
    requires Inv(s) && InStop(s.control) && !Enabled(s, StopStep)
    ensures Enabled(s, NextOfStop(s)) && Next(s, NextOfStop(s)).control == s.control
    ensures LastWork(Next(s, NextOfStop(s))) < LastWork(s)
  {
  }

  lemma StopProceeds(s: Runtime)
    requires Inv(s) && InStop(s.control)
    ensures var r := Next(s, NextOfStop(s));
      && (InStop(r.control) || r.control.Free?)
      && (StopsLeft(r.control) < StopsLeft(s.control) || (r.control == s.control && LastWork(r) < LastWork(s)))
  {
    if Enabled(s, StopStep) { StopGoesOn(s); } else { StopWaits(s); }
  }

  /** A stop is never stuck: from every reached state inside it, whatever it waits for, the goroutines have steps that
      let it end, with nothing set and every run joined. */
  lemma {:induction false} StopCanEnd(s: Runtime) returns (steps: seq<Step>)
    requires Inv(s) && InStop(s.control)
    ensures var r := Run(s, steps); r.control.Free? && NoneSet(r) && r.senderPool.None?
    decreases StopsLeft(s.control), LastWork(s)
  {
    var step := NextOfStop(s);
    var r := Next(s, step);
    StopProceeds(s);
    StepKeeps(s, step);
    var rest: seq<Step> := [];
    if InStop(r.control) { rest := StopCanEnd(r); } else { EndOfStop(s); }
    RunFirst(s, step, rest);
    steps := [step] + rest;
  }

  lemma EndOfStop(s: Runtime)
    requires Inv(s) && InStop(s.control) && Next(s, NextOfStop(s)).control.Free?
    ensures var r := Next(s, NextOfStop(s)); NoneSet(r) && r.senderPool.None?
  {
  }

  lemma StopNeverStuck(before: seq<Step>)
    requires InStop(Reached(before).control)
    ensures exists steps :: var r := Run(Reached(before), steps); r.control.Free? && NoneSet(r) && r.senderPool.None?
  {
    ReachedOk(before);
    var steps := StopCanEnd(Reached(before));
  }

  // ----- Draining a closed channel -----

  class Channel<T> {
    var closed: bool
    var buffer: seq<T>

    constructor ()
      ensures !closed && buffer == []
    {
      closed, buffer := false, [];
    }

    /** Closes the channel, which must be open, and discards what is buffered. */
    method CloseAndDrain()
      requires !closed
      modifies this
      ensures closed && buffer == []
    {
      closed := true;
      while |buffer| > 0
        invariant closed
        decreases |buffer|
      {
        buffer := buffer[1..];
      }
    }
  }
}
