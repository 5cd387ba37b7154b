/** What holds of the simulation after any sequence of public calls, for every outcome source. */
module SimulationTheorems {
  import opened Prelude
  import opened SimTypes
  import opened Channels
  import opened SenderWorkers
  import opened PoolHistory
  import opened PoolProofs
  import opened Simulation
  import opened SimulationProofs

  function Reached(src: OutcomeSource, config: Config, readerCapacity: nat, senderCapacity: nat,
                   actions: seq<Action>): Sim {
    Run(Stepping(src), Initial(config, readerCapacity, senderCapacity), actions)
  }

  lemma ReachedKeeps(src: OutcomeSource, config: Config, readerCapacity: nat, senderCapacity: nat, actions: seq<Action>)
    ensures SimInv(Reached(src, config, readerCapacity, senderCapacity, actions))
  {
    InitialKeeps(config, readerCapacity, senderCapacity);
    SteppingKeeps(src);
    RunKeeps(Stepping(src), Initial(config, readerCapacity, senderCapacity), actions);
  }

  // ----- Order and place -----

  /** First-in first-out, nothing lost or invented: the batches in the order of their first attempts, then
      the sender queue, the held batch and the reader queue, are exactly numbers 0, 1, ... in order. */
  lemma GlobalFifo(src: OutcomeSource, config: Config, readerCapacity: nat, senderCapacity: nat, actions: seq<Action>)
    ensures var s := Reached(src, config, readerCapacity, senderCapacity, actions);
            var line := FirstAttempts(s.pool.history) + s.sender.channel.items
                        + (if s.held.Some? then [s.held.value] else []) + s.reader.channel.items;
            |line| == s.nextSequence && forall k :: 0 <= k < |line| ==> line[k].sequence == k
  {
    ReachedKeeps(src, config, readerCapacity, senderCapacity, actions);
  }

  function Numbered(k: nat): Batch -> nat { (b: Batch) => if b.sequence == k then 1 else 0 }

  lemma {:induction false} NumberedOnce(bs: seq<Batch>, n: nat, k: nat)
    requires InSequence(bs, n)
    ensures Sum(bs, Numbered(k)) == if k < n then 1 else 0
  {
    if n > 0 {
      NumberedOnce(bs[..n - 1], n - 1, k);
    }
  }

  function HeldCount(s: Sim, k: nat): nat { Sum(HeldSeq(s), Numbered(k)) }

  /** In how many places batch k is: queues, throttler, workers, final outcomes. */
  function Places(s: Sim, k: nat): nat {
    Sum(s.reader.channel.items, Numbered(k)) + HeldCount(s, k) + Sum(s.sender.channel.items, Numbered(k))
    + Sum(s.pool.workers, Owns(k)) + Sum(s.pool.history, FinalsOf(k))
  }

  lemma OnePlace(s: Sim, k: nat)
    requires SimInv(s)
    ensures Places(s, k) == if k < s.nextSequence then 1 else 0
  {
    var f := FirstAttempts(s.pool.history);
    NumberedOnce(Pipeline(s), s.nextSequence, k);
    assert OnceFor(s.pool.workers, s.pool.history, k);
    assert InSequence(f, |f|);
    NumberedOnce(f, |f|, k);
    SumConcat(f, s.sender.channel.items, Numbered(k));
    SumConcat(f + s.sender.channel.items, HeldSeq(s), Numbered(k));
    SumConcat(f + s.sender.channel.items + HeldSeq(s), s.reader.channel.items, Numbered(k));
  }

  /** Every batch created is in exactly one place, or has exactly one final outcome; no two workers own
      the same batch; a batch never created is nowhere. */
  lemma ExactlyOnce(src: OutcomeSource, config: Config, readerCapacity: nat, senderCapacity: nat,
                    actions: seq<Action>, k: nat)
    ensures var s := Reached(src, config, readerCapacity, senderCapacity, actions);
            Places(s, k) == if k < s.nextSequence then 1 else 0
    ensures var ws := Reached(src, config, readerCapacity, senderCapacity, actions).pool.workers;
            forall i, j :: 0 <= i < j < |ws| && ws[i].batch.Some? && ws[j].batch.Some? ==>
              ws[i].batch.value.sequence != ws[j].batch.value.sequence
  {
    ReachedKeeps(src, config, readerCapacity, senderCapacity, actions);
    var s := Reached(src, config, readerCapacity, senderCapacity, actions);
    OnePlace(s, k);
    forall i, j | 0 <= i < j < |s.pool.workers| && s.pool.workers[i].batch.Some? && s.pool.workers[j].batch.Some?
      ensures s.pool.workers[i].batch.value.sequence != s.pool.workers[j].batch.value.sequence
    {
      OneOwner(s.pool.workers, s.pool.history, i, j);
    }
  }

  /** Conservation: transactions sent by the reader are buffered, held, owned, delivered or given up. */
  lemma Conservation(src: OutcomeSource, config: Config, readerCapacity: nat, senderCapacity: nat, actions: seq<Action>)
    ensures var s := Reached(src, config, readerCapacity, senderCapacity, actions);
            s.reader.channel.sentTransactions
              == Sum(s.reader.channel.items, Tx) + HeldTx(s) + Sum(s.sender.channel.items, Tx)
                 + Sum(s.pool.workers, OwnedTx) + s.pool.totals.successfulTransactions
                 + s.pool.totals.terminalTransactions
  {
    ReachedKeeps(src, config, readerCapacity, senderCapacity, actions);
  }

  // ----- The attempt ledger -----

  function StartsBelow(n: nat): Event -> nat { (e: Event) => if e.Started? && e.batch.sequence < n then 1 else 0 }

  lemma {:induction false} ThreeEach(h: seq<Event>, n: nat)
    requires HistoryOk(h)
    ensures Sum(h, StartsBelow(n)) <= 3 * n
  {
    if n == 0 {
      SumZero(h, StartsBelow(0));
    } else {
      ThreeEach(h, n - 1);
      SumSplit(h, StartsBelow(n), StartsBelow(n - 1), StartsOf(n - 1));
    }
  }

  lemma LedgerOf(s: Sim)
    requires SimInv(s)
    ensures var (t, ws) := (s.pool.totals, s.pool.workers);
      && t.started == t.completed + Sum(ws, IsInFlight)
      && t.started == s.sender.channel.receivedBatches + t.retryStarted
      && t.completed == t.succeeded + t.failed
      && t.failed == t.rejected + t.timedOut + t.networkErrors
      && t.failed == t.retryStarted + Sum(ws, IsBackoff) + t.terminalBatches
      && s.sender.channel.receivedBatches == Sum(ws, IsBusy) + t.succeeded + t.terminalBatches
      && t.started <= 3 * s.sender.channel.receivedBatches
  {
    var h := s.pool.history;
    var n := |FirstAttempts(h)|;
    ThreeEach(h, n);
    SumEqual(h, IsStart, StartsBelow(n));
  }

  lemma AttemptLedgerHolds(src: OutcomeSource, config: Config, readerCapacity: nat, senderCapacity: nat,
                           actions: seq<Action>)
    ensures var s := Reached(src, config, readerCapacity, senderCapacity, actions);
      var (t, ws) := (s.pool.totals, s.pool.workers);
      && t.started == t.completed + Sum(ws, IsInFlight)
      && t.started == s.sender.channel.receivedBatches + t.retryStarted
      && t.completed == t.succeeded + t.failed
      && t.failed == t.rejected + t.timedOut + t.networkErrors
      && t.failed == t.retryStarted + Sum(ws, IsBackoff) + t.terminalBatches
      && s.sender.channel.receivedBatches == Sum(ws, IsBusy) + t.succeeded + t.terminalBatches
      && t.started <= 3 * s.sender.channel.receivedBatches
  {
    ReachedKeeps(src, config, readerCapacity, senderCapacity, actions);
    LedgerOf(Reached(src, config, readerCapacity, senderCapacity, actions));
  }

  /** Every counter is the sum it stands for over the attempts since the last reset; the latest outcome is that of the
      attempt that ended last; and a worker's flag tells exactly whether an earlier attempt of its batch ended without
      a response. */
  lemma CountersMatchHistory(src: OutcomeSource, config: Config, readerCapacity: nat, senderCapacity: nat,
                             actions: seq<Action>)
    ensures var p := Reached(src, config, readerCapacity, senderCapacity, actions).pool;
      && p.totals == CountsOf(p.history) && LatestIs(p.latest, LastEnd(p.history))
      && p.totals.duplicateRiskTransactions == DuplicateRisk(p.history)
      && p.totals.ambiguousTerminalTransactions == AmbiguousTerminal(p.history)
      && forall i :: 0 <= i < |p.workers| && p.workers[i].batch.Some? ==>
           (p.workers[i].hadAmbiguousOutcome <==> AmbiguousBefore(p.history, p.workers[i].batch.value.sequence))
           && p.workers[i].attempt == Sum(p.history, StartsOf(p.workers[i].batch.value.sequence)) <= RETRY_MAX_ATTEMPTS
  {
    ReachedKeeps(src, config, readerCapacity, senderCapacity, actions);
    var p := Reached(src, config, readerCapacity, senderCapacity, actions).pool;
    forall i | 0 <= i < |p.workers| && p.workers[i].batch.Some?
      ensures (p.workers[i].hadAmbiguousOutcome <==> AmbiguousBefore(p.history, p.workers[i].batch.value.sequence))
      ensures p.workers[i].attempt == Sum(p.history, StartsOf(p.workers[i].batch.value.sequence)) <= RETRY_MAX_ATTEMPTS
    {
      assert OwnerOk(p.workers[i], p.history);
    }
  }

  // ----- Work conservation -----

  predicate Loaded(p: Pool) { forall i :: 0 <= i < |p.workers| ==> !Available(p.workers[i]) }

  predicate QueueServed(s: Sim) { |s.sender.channel.items| > 0 ==> Loaded(s.pool) }

  predicate Served(s: Sim) {
    && QueueServed(s)
    && (s.held.Some? ==> Loaded(s.pool) && |s.sender.channel.items| == s.sender.channel.applied)
  }

  lemma DrainServes(src: OutcomeSource, s: Sim)
    requires SimInv(s)
    ensures QueueServed(Drain(src, s))
  {
    DrainKeeps(src, s);
    var r := Drain(src, s);
    if |r.sender.channel.items| > 0 { NoneIdleAnywhere(r.pool); }
  }

  lemma FlushServes(src: OutcomeSource, s: Sim)
    requires SimInv(s) && QueueServed(s)
    ensures Served(Flush(src, s).s)
  {
    if s.held.Some? {
      if s.sender.channel.applied == 0 {
        if NextIdle(s.pool).None? { NoneIdleAnywhere(s.pool); }
      } else if CanSend(s.sender.channel) {
        SendHeldKeeps(s);
        DrainServes(src, SendHeld(s));
      }
    }
  }

  lemma AdmitHeadServes(src: OutcomeSource, s: Sim)
    requires SimInv(s) && Served(s) && s.held.None?
    ensures Served(AdmitHead(src, s).s)
  {
    if |s.reader.channel.items| > 0
       && !(s.config.throttlerInstalled && s.tokens < s.reader.channel.items[0].transactions as real) {
      TakeHeadKeeps(s);
      FlushServes(src, TakeHead(s));
    }
  }

  lemma AdmitTurnServes(src: OutcomeSource, s: Sim)
    requires SimInv(s) && Served(s)
    ensures Served(AdmitTurn(src, s).s)
  {
    FlushKeeps(src, s);
    FlushServes(src, s);
    if !Flush(src, s).blocked { AdmitHeadServes(src, Flush(src, s).s); }
  }

  lemma AdmitServes(src: OutcomeSource, s: Sim)
    requires SimInv(s) && Served(s)
    ensures Served(Admit(src, s).s)
  {
    var good := r => SimInv(r) && Served(r);
    forall r | good(r) ensures good(AdmitTurn(src, r).s) {
      AdmitTurnKeeps(src, r);
      AdmitTurnServes(src, r);
    }
    AdmitFromKeeps(src, s, |s.reader.channel.items|, good);
  }

  lemma ProduceTurnServes(src: OutcomeSource, s: Sim)
    requires SimInv(s) && Served(s) && s.credit >= s.config.readBatchSize
    ensures Served(ProduceTurn(src, s).s)
  {
    if s.reader.channel.applied == 0 && s.held.None?
       && !(s.config.throttlerInstalled && s.tokens < s.config.readBatchSize as real) {
      PassThroughKeeps(s);
      FlushServes(src, PassThrough(s));
    }
  }

  lemma {:induction false} ProduceServes(src: OutcomeSource, s: Sim)
    requires SimInv(s) && Served(s)
    ensures Served(Produce(src, s).s)
    decreases s.credit
  {
    if s.credit >= s.config.readBatchSize {
      ProduceTurnKeeps(src, s);
      ProduceTurnServes(src, s);
      if !ProduceTurn(src, s).ends {
        ProduceServes(src, ProduceTurn(src, s).s);
      }
    }
  }

  lemma TrailServes(src: OutcomeSource, t: Trail)
    requires Kept(t) && t.drained == Drain(src, t.start) && t.flushed == Flush(src, t.drained)
    requires t.admitted == Admit(src, t.flushed.s) && t.produced == Produce(src, Earn(t.admitted.s))
    ensures Served(t.produced.s)
  {
    DrainServes(src, t.start);
    FlushServes(src, t.drained);
    AdmitServes(src, t.flushed.s);
    EarnKeeps(t.admitted.s);
    ProduceServes(src, Earn(t.admitted.s));
  }

  lemma EndServes(t: Trail)
    requires Served(t.produced.s)
    ensures Served(t.End())
  {
  }

  /** At the end of every step, a waiting batch means that no worker is free to take it, and a held batch
      means in addition that the sender queue is exactly full. */
  lemma WorkConserving(src: OutcomeSource, s: Sim)
    requires SimInv(s)
    ensures var r := AdvanceStep(src, s);
      && (|r.sender.channel.items| > 0 ==> forall i :: 0 <= i < |r.pool.workers| ==> !Available(r.pool.workers[i]))
      && (r.held.Some? ==> |r.sender.channel.items| == r.sender.channel.applied
                           && forall i :: 0 <= i < |r.pool.workers| ==> !Available(r.pool.workers[i]))
  {
    TrailKeeps(src, s);
    TrailServes(src, TrailOf(src, s));
    EndServes(TrailOf(src, s));
  }

  // ----- The rate window -----

  function PlusChannel(a: ChannelActivity, b: ChannelActivity): ChannelActivity {
    ChannelActivity(a.inputBatches + b.inputBatches, a.inputTransactions + b.inputTransactions,
                    a.outputBatches + b.outputBatches, a.outputTransactions + b.outputTransactions,
                    a.handoffBatches + b.handoffBatches)
  }

  function PlusHttp(a: HttpActivity, b: HttpActivity): HttpActivity {
    HttpActivity(a.started + b.started, a.retryStarted + b.retryStarted, a.completed + b.completed,
                 a.succeeded + b.succeeded, a.rejected + b.rejected, a.terminalFailed + b.terminalFailed)
  }

  function Plus(a: StepActivity, b: StepActivity): StepActivity {
    StepActivity(PlusChannel(a.reader, b.reader), PlusChannel(a.sender, b.sender), PlusHttp(a.http, b.http))
  }

  const NO_ACTIVITY := StepActivity(NO_CHANNEL_ACTIVITY, NO_CHANNEL_ACTIVITY, NO_HTTP_ACTIVITY)

  /** The aggregate that the rates are computed from. */
  function Aggregate(window: seq<StepActivity>): StepActivity {
    if |window| == 0 then NO_ACTIVITY
    else Plus(Aggregate(window[..|window| - 1]), window[|window| - 1])
  }

  function ChannelTotals(c: Channel): ChannelActivity {
    ChannelActivity(c.sentBatches, c.sentTransactions, c.receivedBatches, c.receivedTransactions, c.handoffs)
  }

  /** The running totals since the last reset, arranged like one step's activity. */
  function RunningTotals(s: Sim): StepActivity {
    StepActivity(ChannelTotals(s.reader.channel), ChannelTotals(s.sender.channel), VolumesOf(s.pool.history))
  }

  lemma LinkGrows(c: Channel, l: Link)
    requires l.Ahead() == Link(c, NO_CHANNEL_ACTIVITY).Ahead()
    ensures ChannelTotals(l.channel) == PlusChannel(ChannelTotals(c), l.activity)
  {
  }

  lemma HttpGrows(p: Pool, q: Pool)
    requires Ahead(q) == Ahead(p.(http := NO_HTTP_ACTIVITY))
    ensures VolumesOf(q.history) == PlusHttp(VolumesOf(p.history), q.http)
  {
  }

  lemma EndTotals(t: Trail)
    ensures t.End().activities == Pushed(t.produced.s.activities, ActivityOf(t.produced.s))
    ensures ActivityOf(t.End()) == ActivityOf(t.produced.s) && RunningTotals(t.End()) == RunningTotals(t.produced.s)
  {
  }

  /** During a step every running total grows by exactly what the step's activity says. */
  lemma TrailGrows(t: Trail, s: Sim)
    requires Kept(t) && Offset(t.start) == Offset(Begin(s))
    ensures RunningTotals(t.produced.s) == Plus(RunningTotals(s), ActivityOf(t.produced.s))
  {
    var r := t.produced.s;
    LinkGrows(s.reader.channel, r.reader);
    LinkGrows(s.sender.channel, r.sender);
    HttpGrows(s.pool, r.pool);
  }

  predicate Grows(s: Sim, r: Sim) {
    && r.activities == Pushed(s.activities, ActivityOf(r))
    && RunningTotals(r) == Plus(RunningTotals(s), ActivityOf(r))
  }

  ghost predicate StepsGrow(step: Sim -> Sim) {
    forall s {:trigger step(s)} :: SimInv(s) ==> Grows(s, step(s))
  }

  lemma SteppingGrows(src: OutcomeSource)
    ensures StepsGrow(Stepping(src)) && StepsWell(Stepping(src))
  {
    SteppingKeeps(src);
    forall s | SimInv(s) ensures Grows(s, Stepping(src)(s)) { StepGrows(src, s); }
  }

  lemma StepGrows(src: OutcomeSource, s: Sim)
    requires SimInv(s)
    ensures Grows(s, AdvanceStep(src, s))
  {
    var t := TrailOf(src, s);
    TrailKeeps(src, s);
    OpenedKeeps(src, s);
    TrailGrows(t, s);
    EndTotals(t);
  }

  function CountSteps(actions: seq<Action>): nat {
    if |actions| == 0 then 0
    else CountSteps(actions[..|actions| - 1]) + if actions[|actions| - 1].Step? then 1 else 0
  }

  predicate KeepsWindow(actions: seq<Action>) {
    forall k :: 0 <= k < |actions| ==> !actions[k].Clear? && !actions[k].ResetAll?
  }

  function Last<T>(xs: seq<T>, k: nat): seq<T>
    requires k <= |xs|
  { xs[|xs| - k..] }

  lemma PushedLast(window: seq<StepActivity>, a: StepActivity, k: nat)
    requires k <= |window| <= RATE_WINDOW_STEPS && k < RATE_WINDOW_STEPS
    ensures |Pushed(window, a)| == if |window| < RATE_WINDOW_STEPS then |window| + 1 else RATE_WINDOW_STEPS
    ensures Last(Pushed(window, a), k + 1) == Last(window, k) + [a]
  {
  }

  /** With totals t0 and n0 entries before, and k entries pushed since: how many entries the window holds,
      and that the newest k add up to the growth of the totals. */
  predicate Tallies(t0: StepActivity, n0: nat, t: StepActivity, window: seq<StepActivity>, k: nat) {
    && |window| == (if n0 + k < RATE_WINDOW_STEPS then n0 + k else RATE_WINDOW_STEPS)
    && (k <= RATE_WINDOW_STEPS ==> t == Plus(t0, Aggregate(Last(window, k))))
  }

  predicate Agrees(s: Sim, r: Sim, k: nat) {
    Tallies(RunningTotals(s), |s.activities|, RunningTotals(r), r.activities, k)
  }

  lemma AggregateLast(window: seq<StepActivity>, a: StepActivity)
    ensures Aggregate(window + [a]) == Plus(Aggregate(window), a)
  {
    assert (window + [a])[..|window|] == window;
  }

  lemma PlusAssociates(a: StepActivity, b: StepActivity, c: StepActivity)
    ensures Plus(Plus(a, b), c) == Plus(a, Plus(b, c))
  {
  }

  lemma TalliesAtFirst(t0: StepActivity, window: seq<StepActivity>)
    requires |window| <= RATE_WINDOW_STEPS
    ensures Tallies(t0, |window|, t0, window, 0)
  {
    assert Last(window, 0) == [];
  }

  lemma TalliesNext(t0: StepActivity, n0: nat, t: StepActivity, window: seq<StepActivity>, a: StepActivity, k: nat)
    requires Tallies(t0, n0, t, window, k) && n0 <= RATE_WINDOW_STEPS
    ensures Tallies(t0, n0, Plus(t, a), Pushed(window, a), k + 1)
  {
    if k < RATE_WINDOW_STEPS {
      PushedLast(window, a, k);
      AggregateLast(Last(window, k), a);
      PlusAssociates(t0, Aggregate(Last(window, k)), a);
    }
  }

  lemma QuietTotals(step: Sim -> Sim, q: Sim, a: Action)
    requires !a.Step? && !a.Clear? && !a.ResetAll?
    ensures RunningTotals(Act(step, q, a)) == RunningTotals(q) && Act(step, q, a).activities == q.activities
  {
  }

  lemma ActAgrees(step: Sim -> Sim, s: Sim, q: Sim, a: Action, k: nat)
    requires SimInv(q) && StepsGrow(step) && Agrees(s, q, k) && |s.activities| <= RATE_WINDOW_STEPS
    requires !a.Clear? && !a.ResetAll?
    ensures Agrees(s, Act(step, q, a), k + if a.Step? then 1 else 0)
  {
    if a.Step? {
      assert Grows(q, step(q));
      TalliesNext(RunningTotals(s), |s.activities|, RunningTotals(q), q.activities, ActivityOf(step(q)), k);
    } else {
      QuietTotals(step, q, a);
    }
  }

  /** The newest k entries of the window, k steps after some state, add up to exactly what every running
      total has grown by since; the window holds as many of the steps as fit into a hundred. */
  lemma {:induction false} WindowAgrees(step: Sim -> Sim, s: Sim, actions: seq<Action>)
    requires SimInv(s) && |s.activities| <= RATE_WINDOW_STEPS && KeepsWindow(actions)
    requires StepsWell(step) && StepsGrow(step)
    ensures Agrees(s, Run(step, s, actions), CountSteps(actions))
  {
    if |actions| > 0 {
      var before, last := actions[..|actions| - 1], actions[|actions| - 1];
      WindowAgrees(step, s, before);
      RunKeeps(step, s, before);
      ActAgrees(step, s, Run(step, s, before), last, CountSteps(before));
    } else {
      TalliesAtFirst(RunningTotals(s), s.activities);
    }
  }

  /** The window holds exactly the last n steps. */
  lemma TallyOfAll(s: Sim, r: Sim, n: nat)
    requires Agrees(s, r, n) && |s.activities| <= 100 && (n == 100 || (s.activities == [] && n < 100))
    ensures |r.activities| == n && RunningTotals(r) == Plus(RunningTotals(s), Aggregate(r.activities))
  {
    assert Last(r.activities, |r.activities|) == r.activities;
  }

  /** So after a clear, or after at least a hundred steps, each rate is the growth of its total over the
      steps in the window. */
  lemma RatesAreGrowth(src: OutcomeSource, s: Sim, actions: seq<Action>)
    requires SimInv(s) && |s.activities| <= 100 && KeepsWindow(actions)
    requires CountSteps(actions) == 100 || (s.activities == [] && CountSteps(actions) < 100)
    ensures var r := Run(Stepping(src), s, actions);
      && |r.activities| == CountSteps(actions)
      && RunningTotals(r) == Plus(RunningTotals(s), Aggregate(r.activities))
  {
    SteppingGrows(src);
    WindowAgrees(Stepping(src), s, actions);
    TallyOfAll(s, Run(Stepping(src), s, actions), CountSteps(actions));
  }

  predicate WindowBounded(s: Sim) { |s.activities| <= RATE_WINDOW_STEPS }

  lemma {:induction false} WindowStaysBounded(step: Sim -> Sim, s: Sim, actions: seq<Action>)
    requires SimInv(s) && WindowBounded(s) && StepsWell(step) && StepsGrow(step)
    ensures WindowBounded(Run(step, s, actions)) && SimInv(Run(step, s, actions))
  {
    RunKeeps(step, s, actions);
    if |actions| > 0 {
      var before, last := actions[..|actions| - 1], actions[|actions| - 1];
      WindowStaysBounded(step, s, before);
      ActStaysBounded(step, Run(step, s, before), last);
    }
  }

  lemma ActStaysBounded(step: Sim -> Sim, s: Sim, a: Action)
    requires SimInv(s) && WindowBounded(s) && StepsGrow(step)
    ensures WindowBounded(Act(step, s, a))
  {
    if a.Step? {
      assert Grows(s, step(s));
    } else if !a.Clear? && !a.ResetAll? {
      QuietTotals(step, s, a);
    }
  }

  /** n steps from s on, the window holds those and nothing older. */
  predicate OnlyNewSteps(s: Sim, n: nat) {
    n == 100 || (s.activities == [] && n < 100)
  }

  /** In every reachable state the window holds at most a hundred steps, and none after a clear or a reset; and from any
      of them on, as soon as it holds nothing older, the rates are the growth of the totals. */
  lemma ReachedRatesAreGrowth(src: OutcomeSource, config: Config, readerCapacity: nat, senderCapacity: nat,
                              before: seq<Action>, actions: seq<Action>)
    requires KeepsWindow(actions)
    ensures var s := Reached(src, config, readerCapacity, senderCapacity, before);
      && |s.activities| <= 100
      && (before == [] || before[|before| - 1].Clear? || before[|before| - 1].ResetAll? ==> s.activities == [])
      && (OnlyNewSteps(s, CountSteps(actions)) ==>
            var r := Run(Stepping(src), s, actions);
            && |r.activities| == CountSteps(actions)
            && RunningTotals(r) == Plus(RunningTotals(s), Aggregate(r.activities)))
  {
    var s0 := Initial(config, readerCapacity, senderCapacity);
    InitialKeeps(config, readerCapacity, senderCapacity);
    SteppingGrows(src);
    WindowStaysBounded(Stepping(src), s0, before);
    var s := Run(Stepping(src), s0, before);
    if OnlyNewSteps(s, CountSteps(actions)) {
      RatesAreGrowth(src, s, actions);
    }
  }
}
