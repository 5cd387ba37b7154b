/** The simulation as the object it is: each method changes the fields step by step and is proved to do
    exactly what its function in Simulation says. */
module FixedStep {
  import opened Prelude
  import opened SimTypes
  import opened Channels
  import opened SenderWorkers
  import opened PoolHistory
  import opened PoolProofs
  import opened Simulation
  import opened SimulationProofs
  import opened SimulationTheorems

  /** Draining the sender queue never looks at the held batch. */
  lemma {:induction false} DrainIgnoresHeld(src: OutcomeSource, s: Sim, held: Option<Batch>)
    ensures Drain(src, s.(held := held)) == Drain(src, s).(held := held)
    decreases |s.sender.channel.items|
  {
    if DrainTurn(src, s).Some? {
      DrainIgnoresHeld(src, DrainTurn(src, s).value, held);
    }
  }

  /** No guard of the passes over the workers throws, and some worker stays active. */
  predicate CanBegin(src: OutcomeSource, s: Sim) {
    var b := Begin(s);
    AllShaped(b.pool.workers) && |Active(Passed(EnvOf(src, b), b.pool).workers)| > 0
  }

  lemma AlwaysBegins(src: OutcomeSource, s: Sim)
    requires SimInv(s)
    ensures CanBegin(src, s)
  {
    var b := Begin(s);
    var env := EnvOf(src, b);
    PassesKeep(env, b.pool);
    SeatsRanked(b.pool.workers, Passed(env, b.pool).workers, s.config.senderWorkers);
    FinalizeKeeps(Passed(env, b.pool), s.config.senderWorkers);
  }

  class FixedStepSimulation {
    var config: Config
    const readerChannel: StatefulChannel
    const senderChannel: StatefulChannel
    const attemptOutcomeSource: OutcomeSource
    /** The activity of the step in progress, or of the latest one. */
    var activity: StepActivity
    var activities: seq<StepActivity>
    var workers: seq<Worker>
    var nextWorkerIndex: nat
    var readerTransactionCredit: nat
    var throttlerTokens: real
    var pendingThrottledBatch: Option<Batch>
    var nextBatchSequence: nat
    var failureCredit: real
    /** How often the outcome source has been asked. */
    var calls: nat
    var latest: Latest
    var totals: Totals
    var elapsedMs: nat
    var limitedMs: nat
    ghost var history: seq<Event>

    ghost function PoolView(): Pool
      reads this
    {
      Pool(workers, nextWorkerIndex, failureCredit, calls, latest, totals, activity.http, history)
    }

    ghost function View(): Sim
      reads this, readerChannel, senderChannel
    {
      Sim(config, Link(readerChannel.View(), activity.reader), Link(senderChannel.View(), activity.sender),
          PoolView(), activities, readerTransactionCredit, throttlerTokens, pendingThrottledBatch,
          nextBatchSequence, elapsedMs, limitedMs)
    }

    ghost predicate Valid()
      reads this, readerChannel, senderChannel
    {
      readerChannel != senderChannel && SimInv(View())
    }

    function Now(): Env
      reads this
    {
      Env(attemptOutcomeSource, config, elapsedMs)
    }

    constructor (config: Config, readerChannelCapacity: nat, senderChannelCapacity: nat, source: OutcomeSource)
      ensures Valid() && fresh(readerChannel) && fresh(senderChannel) && attemptOutcomeSource == source
      ensures View() == Initial(config, readerChannelCapacity, senderChannelCapacity)
    {
      this.config := config;
      readerChannel := new StatefulChannel(readerChannelCapacity);
      senderChannel := new StatefulChannel(senderChannelCapacity);
      attemptOutcomeSource := source;
      activity, activities := StepActivity(NO_CHANNEL_ACTIVITY, NO_CHANNEL_ACTIVITY, NO_HTTP_ACTIVITY), [];
      workers := FreshWorkers(0, config.senderWorkers);
      nextWorkerIndex, readerTransactionCredit, throttlerTokens := 0, 0, 0.0;
      pendingThrottledBatch, nextBatchSequence, failureCredit, calls := None, 0, 0.0, 0;
      latest, totals, elapsedMs, limitedMs, history := NO_LATEST, ZERO_TOTALS, 0, 0, [];
      new;
      InitialKeeps(config, readerChannelCapacity, senderChannelCapacity);
    }

    // ----- Attempts -----

    /** What the caller's source answers, or else the simulation's own choice. */
    method ChooseOutcome(context: AttemptContext) returns (selected: Outcome)
      requires context.targetErrorRatePercent == config.targetErrorRatePercent
      modifies `calls, `failureCredit
      ensures (selected, failureCredit) == SelectOutcome(Now(), context, old(calls), old(failureCredit))
      ensures calls == old(calls) + 1
    {
      var supplied := attemptOutcomeSource(context, calls);
      calls := calls + 1;
      if supplied.Some? { return supplied.value; }
      selected := DefaultAttemptOutcome(context);
    }

    method StartAttempt(i: nat, attempt: nat)
      requires i < |workers| && workers[i].batch.Some?
      modifies `workers, `failureCredit, `calls, `totals, `activity, `history
      ensures PoolView() == SenderWorkers.StartAttempt(old(Now()), old(PoolView()), i, attempt)
      ensures activity == old(activity).(http := activity.http)
    {
      var worker := workers[i];
      var batch := worker.batch.value;
      var context := AttemptContext(batch, attempt, elapsedMs, config.targetDelayMs,
                                    config.targetErrorRatePercent, config.httpTimeoutMs);
      var selected := ChooseOutcome(context);
      var latencyMs := RoundedStepDuration(selected.latency);
      workers := workers[i := worker.(state := InFlight, attempt := attempt, completeAtMs := elapsedMs + latencyMs,
                                      retryAtMs := 0,
                                      outcome := Some(Outcome(selected.kind, Finite(latencyMs as real))),
                                      attemptLatencyMs := latencyMs)];
      totals := totals.(started := totals.started + 1);
      activity := activity.(http := activity.http.(started := activity.http.started + batch.transactions));
      if attempt > 1 {
        totals := totals.(retryStarted := totals.retryStarted + 1);
        activity := activity.(http := activity.http.(retryStarted := activity.http.retryStarted + batch.transactions));
        if worker.hadAmbiguousOutcome {
          totals := totals.(duplicateRiskTransactions := totals.duplicateRiskTransactions + batch.transactions);
        }
      }
      history := history + [Started(batch, attempt)];
    }

    method DefaultAttemptOutcome(context: AttemptContext) returns (outcome: Outcome)
      requires context.targetErrorRatePercent == config.targetErrorRatePercent
      modifies `failureCredit
      ensures (outcome, failureCredit) == DefaultOutcome(context, old(failureCredit))
    {
      var targetLatencyMs := context.targetDelayMs + 5.0;
      if targetLatencyMs > context.httpTimeoutMs {
        return Outcome(TimedOut, Finite(context.httpTimeoutMs));
      }
      var fails := NextRequestFails();
      return Outcome(Response(if fails then 503 else 200), Finite(targetLatencyMs));
    }

    method NextRequestFails() returns (fails: bool)
      modifies `failureCredit
      ensures (fails, failureCredit) == Fails(old(failureCredit), config.targetErrorRatePercent)
    {
      failureCredit := failureCredit + config.targetErrorRatePercent;
      if failureCredit < 100.0 { return false; }
      failureCredit := failureCredit - 100.0;
      return true;
    }

    /** What every completion records before its outcome is looked at. */
    static ghost function Recorded(p: Pool, i: nat): Pool
      requires i < |p.workers| && Shaped(p.workers[i]) && p.workers[i].state.InFlight?
    {
      var w := p.workers[i];
      p.(history := p.history + [CompletionEvent(w)], totals := p.totals.(completed := p.totals.completed + 1),
         http := p.http.(completed := p.http.completed + w.batch.value.transactions),
         latest := p.latest.(latencyMs := Some(w.attemptLatencyMs)))
    }

    method CompleteAttempt(i: nat)
      requires i < |workers| && Shaped(workers[i]) && workers[i].state.InFlight?
      modifies `workers, `totals, `activity, `latest, `history
      ensures PoolView() == SenderWorkers.CompleteAttempt(old(Now()), old(PoolView()), i)
      ensures activity == old(activity).(http := activity.http)
    {
      var worker := workers[i];
      var batch, outcome := worker.batch.value, worker.outcome.value;
      history := history + [Completed(batch, worker.attempt, outcome.kind)];
      totals := totals.(completed := totals.completed + 1);
      activity := activity.(http := activity.http.(completed := activity.http.completed + batch.transactions));
      latest := latest.(latencyMs := Some(worker.attemptLatencyMs));
      if outcome.kind.Response? {
        CompleteResponse(i, old(PoolView()));
      } else {
        CompleteWithoutResponse(i, old(PoolView()));
      }
    }

    /** The rest of a completion, when the target answered. */
    method CompleteResponse(i: nat, ghost p: Pool)
      requires i < |workers| == |p.workers| && Shaped(p.workers[i]) && p.workers[i].state.InFlight?
      requires p.workers[i].outcome.value.kind.Response? && PoolView() == Recorded(p, i)
      modifies `workers, `totals, `activity, `latest
      ensures PoolView() == SenderWorkers.CompleteAttempt(Now(), p, i)
      ensures activity == old(activity).(http := activity.http)
    {
      var worker := workers[i];
      var code := worker.outcome.value.kind.statusCode;
      var tx := worker.batch.value.transactions;
      latest := latest.(outcome := HttpResponse, statusCode := Some(code),
                        responseLatencyMs := Some(worker.attemptLatencyMs));
      if 200 <= code < 300 {
        totals := totals.(succeeded := totals.succeeded + 1,
                          successfulTransactions := totals.successfulTransactions + tx);
        activity := activity.(http := activity.http.(succeeded := activity.http.succeeded + tx));
        workers := workers[i := worker.(terminalError := false)];
        ReleaseWorker(i);
      } else {
        totals := totals.(failed := totals.failed + 1, rejected := totals.rejected + 1,
                          failedAttemptTransactions := totals.failedAttemptTransactions + tx,
                          http503 := totals.http503 + if code == 503 then 1 else 0);
        activity := activity.(http := activity.http.(rejected := activity.http.rejected + tx));
        if code in RETRYABLE_STATUS_CODES && worker.attempt < RETRY_MAX_ATTEMPTS {
          ScheduleRetry(i);
        } else {
          FailTerminally(i);
        }
      }
      assert workers == p.workers[i := Settled(worker, elapsedMs)];
    }

    /** The rest of a completion, when no answer came. */
    method CompleteWithoutResponse(i: nat, ghost p: Pool)
      requires i < |workers| == |p.workers| && Shaped(p.workers[i]) && p.workers[i].state.InFlight?
      requires !p.workers[i].outcome.value.kind.Response? && PoolView() == Recorded(p, i)
      modifies `workers, `totals, `activity, `latest
      ensures PoolView() == SenderWorkers.CompleteAttempt(Now(), p, i)
      ensures activity == old(activity).(http := activity.http)
    {
      var worker := workers[i];
      var tx := worker.batch.value.transactions;
      workers := workers[i := worker.(hadAmbiguousOutcome := true)];
      RecordNoAnswer(worker.outcome.value.kind.TimedOut?, tx);
      if worker.attempt < RETRY_MAX_ATTEMPTS {
        ScheduleRetry(i);
      } else {
        FailTerminally(i);
      }
      assert workers == p.workers[i := Settled(worker, elapsedMs)];
    }

    method RecordNoAnswer(timedOut: bool, tx: nat)
      modifies `totals, `latest
      ensures var t := old(totals).(failed := old(totals).failed + 1,
                                    failedAttemptTransactions := old(totals).failedAttemptTransactions + tx);
        totals == if timedOut then t.(timedOut := t.timedOut + 1,
                                      ambiguousTimeoutTransactions := t.ambiguousTimeoutTransactions + tx)
                  else t.(networkErrors := t.networkErrors + 1)
      ensures latest == old(latest).(statusCode := None, outcome := if timedOut then Timeout else NetworkError)
    {
      totals := totals.(failed := totals.failed + 1,
                        failedAttemptTransactions := totals.failedAttemptTransactions + tx);
      latest := latest.(statusCode := None);
      if timedOut {
        latest := latest.(outcome := Timeout);
        totals := totals.(timedOut := totals.timedOut + 1,
                          ambiguousTimeoutTransactions := totals.ambiguousTimeoutTransactions + tx);
      } else {
        latest := latest.(outcome := NetworkError);
        totals := totals.(networkErrors := totals.networkErrors + 1);
      }
    }

    method ScheduleRetry(i: nat)
      requires i < |workers| && workers[i].batch.Some? && 1 <= workers[i].attempt < RETRY_MAX_ATTEMPTS
      modifies `workers
      ensures var w := old(workers[i]);
        workers == old(workers)[i :=
          w.(state := Backoff, retryAtMs := elapsedMs + RetryDelayMs(w.batch.value.sequence, w.attempt),
             completeAtMs := 0, outcome := None, attemptLatencyMs := 0)]
    {
      var worker := workers[i];
      worker := worker.(state := Backoff);
      worker := worker.(retryAtMs := elapsedMs + RetryDelayMs(worker.batch.value.sequence, worker.attempt));
      worker := worker.(completeAtMs := 0, outcome := None, attemptLatencyMs := 0);
      workers := workers[i := worker];
    }

    method FailTerminally(i: nat)
      requires i < |workers| && workers[i].batch.Some?
      modifies `workers, `totals, `activity
      ensures workers == old(workers)[i := Released(old(workers[i]).(terminalError := true))]
      ensures totals == TerminalTotals(old(totals), old(workers[i]).batch.value.transactions,
                                       old(workers[i]).hadAmbiguousOutcome)
      ensures activity == old(activity).(http := old(activity).http.(
                terminalFailed := old(activity).http.terminalFailed + old(workers[i]).batch.value.transactions))
    {
      var tx := workers[i].batch.value.transactions;
      totals := totals.(terminalBatches := totals.terminalBatches + 1);
      var failed := workers[i].(terminalError := true);
      totals := totals.(terminalTransactions := totals.terminalTransactions + tx);
      activity := activity.(http := activity.http.(terminalFailed := activity.http.terminalFailed + tx));
      if failed.hadAmbiguousOutcome {
        totals := totals.(ambiguousTerminalTransactions := totals.ambiguousTerminalTransactions + tx);
      }
      workers := workers[i := failed];
      ReleaseWorker(i);
    }

    method ReleaseWorker(i: nat)
      requires i < |workers|
      modifies `workers
      ensures workers == old(workers)[i := Released(old(workers[i]))]
    {
      var worker := workers[i];
      worker := worker.(state := Idle, batch := None, attempt := 0, completeAtMs := 0, retryAtMs := 0);
      worker := worker.(outcome := None, attemptLatencyMs := 0, hadAmbiguousOutcome := false);
      workers := workers[i := worker];
    }

    method CompleteDueAttempts()
      requires AllShaped(workers)
      modifies `workers, `totals, `activity, `latest, `history
      ensures PoolView() == CompleteDue(old(Now()), old(PoolView()))
      ensures activity == old(activity).(http := activity.http)
      ensures |workers| == |old(workers)| && AllShaped(workers)
    {
      var env := Now();
      ghost var n := |workers|;
      var i := 0;
      while i < |workers|
        invariant i <= |workers| == n && AllShaped(workers)
        invariant activity == old(activity).(http := activity.http)
        invariant Pass(Completing(env), PoolView(), i, n) == CompleteDue(env, old(PoolView()))
      {
        assert Completing(env)(PoolView(), i) == CompleteIfDue(env, PoolView(), i);
        CompleteOne(i);
        i := i + 1;
      }
    }

    method CompleteOne(i: nat)
      requires i < |workers| && AllShaped(workers)
      modifies `workers, `totals, `activity, `latest, `history
      ensures PoolView() == CompleteIfDue(old(Now()), old(PoolView()), i)
      ensures activity == old(activity).(http := activity.http)
      ensures |workers| == |old(workers)| && AllShaped(workers)
    {
      if !workers[i].state.InFlight? || workers[i].completeAtMs > elapsedMs { return; }
      CompleteAttempt(i);
    }

    method StartDueRetries()
      requires AllShaped(workers)
      modifies `workers, `failureCredit, `calls, `totals, `activity, `history
      ensures PoolView() == SenderWorkers.StartDueRetries(old(Now()), old(PoolView()))
      ensures activity == old(activity).(http := activity.http)
      ensures |workers| == |old(workers)|
    {
      var env := Now();
      ghost var n := |workers|;
      var i := 0;
      while i < |workers|
        invariant i <= |workers| == n && AllShaped(workers)
        invariant activity == old(activity).(http := activity.http)
        invariant Pass(Retrying(env), PoolView(), i, n) == SenderWorkers.StartDueRetries(env, old(PoolView()))
      {
        assert Retrying(env)(PoolView(), i) == RetryIfDue(env, PoolView(), i);
        RetryOne(i);
        i := i + 1;
      }
    }

    method RetryOne(i: nat)
      requires i < |workers| && AllShaped(workers)
      modifies `workers, `failureCredit, `calls, `totals, `activity, `history
      ensures PoolView() == RetryIfDue(old(Now()), old(PoolView()), i)
      ensures activity == old(activity).(http := activity.http)
      ensures |workers| == |old(workers)| && AllShaped(workers)
    {
      if !workers[i].state.Backoff? || workers[i].retryAtMs > elapsedMs { return; }
      StartAttempt(i, workers[i].attempt + 1);
    }

    // ----- Workers -----

    method NextIdleWorker() returns (found: Option<nat>)
      modifies `nextWorkerIndex
      ensures found == NextIdle(old(PoolView()))
      ensures PoolView() == if found.Some? then Advanced(old(PoolView()), found.value) else old(PoolView())
    {
      var offset := 0;
      while offset < |workers|
        invariant offset <= |workers| && nextWorkerIndex == old(nextWorkerIndex)
        invariant FindIdle(workers, nextWorkerIndex, offset) == NextIdle(old(PoolView()))
      {
        RingIsRemainder(nextWorkerIndex + offset, |workers|);
        var index := (nextWorkerIndex + offset) % |workers|;
        var worker := workers[index];
        if !worker.retiring && worker.state.Idle? {
          RingIsRemainder(index + 1, |workers|);
          nextWorkerIndex := (index + 1) % |workers|;
          return Some(index);
        }
        offset := offset + 1;
      }
      return None;
    }

    method RequestSenderWorkerCount(requested: Pos)
      requires |workers| > 0
      modifies `workers, `nextWorkerIndex
      ensures PoolView() == RequestCount(old(PoolView()), requested)
    {
      ghost var before := workers;
      var n := |workers|;
      for i := 0 to n
        invariant |workers| == n && nextWorkerIndex == old(nextWorkerIndex)
        invariant forall j :: 0 <= j < n ==> workers[j] == if j < i then before[j].(retiring := false) else before[j]
      {
        workers := workers[i := workers[i].(retiring := false)];
      }
      if requested > n {
        for ordinal := n to requested
          invariant |workers| == ordinal && nextWorkerIndex == old(nextWorkerIndex)
          invariant workers[..n] == Marked(before, requested) && workers[n..] == FreshWorkers(n, ordinal - n)
        {
          assert FreshWorkers(n, ordinal + 1 - n) == FreshWorkers(n, ordinal - n) + [CreateWorker(ordinal)];
          workers := workers + [CreateWorker(ordinal)];
        }
        assert workers == Marked(before, requested) + FreshWorkers(n, requested - n);
        return;
      }
      if requested == n {
        assert workers == Marked(before, requested) + FreshWorkers(n, 0);
        return;
      }
      for index := requested to n
        invariant |workers| == n && nextWorkerIndex == old(nextWorkerIndex)
        invariant forall j :: 0 <= j < n ==> workers[j] == before[j].(retiring := requested <= j < index)
      {
        workers := workers[index := workers[index].(retiring := true)];
      }
      assert workers == Marked(before, requested);
      ActivePrefix(workers, requested);
      FinalizeSenderScaleDown();
    }

    method FinalizeSenderScaleDown()
      requires |Active(workers)| > 0
      modifies `workers, `nextWorkerIndex
      ensures PoolView() == Finalize(old(PoolView()))
    {
      var kept: seq<Worker> := [];
      var retiring, working := 0, false;
      for i := 0 to |workers|
        invariant kept == Active(workers[..i])
        invariant retiring > 0 <==> exists j :: 0 <= j < i && workers[j].retiring
        invariant working <==> exists j :: 0 <= j < i && workers[j].retiring && !workers[j].state.Idle?
      {
        assert workers[..i + 1][..i] == workers[..i];
        if workers[i].retiring {
          retiring := retiring + 1;
          if !workers[i].state.Idle? { working := true; }
        } else {
          kept := kept + [workers[i]];
        }
      }
      assert workers[..|workers|] == workers;
      if retiring == 0 || working { return; }
      workers := kept;
      RingIsRemainder(nextWorkerIndex, |workers|);
      nextWorkerIndex := nextWorkerIndex % |workers|;
    }

    // ----- Throttler and queues -----

    method RefillThrottlerTokens()
      modifies `throttlerTokens
      ensures View() == Refill(old(View()))
    {
      if config.throttlerInstalled == false {
        throttlerTokens := 0.0;
        return;
      }
      var refill := config.requestedTps * 10.0 / 1000.0;
      var headTransactions: nat :=
        if |readerChannel.items| > 0 then readerChannel.items[0].transactions else config.readBatchSize;
      var tokenCapacity := MaxTx(headTransactions, config.readBatchSize) as real + refill;
      throttlerTokens := MinReal(tokenCapacity, throttlerTokens + refill);
    }

    ghost predicate Separate()
      reads this
    {
      readerChannel != senderChannel
    }

    method DrainSenderChannel()
      requires Separate()
      modifies this, senderChannel
      ensures View() == Drain(attemptOutcomeSource, old(View()))
    {
      ghost var s := View();
      ghost var all := Drain(attemptOutcomeSource, s);
      while |senderChannel.items| > 0
        invariant View() == s && Drain(attemptOutcomeSource, s) == all
        decreases |senderChannel.items|
      {
        var found := NextIdleWorker();
        if found.None? { return; }
        DispatchTo(found.value, s);
        s := View();
      }
    }

    /** The body of the drain loop once worker i has been chosen; s is the state before the choice. */
    method DispatchTo(i: nat, ghost s: Sim)
      requires Separate() && i < |workers| == |s.pool.workers| && |senderChannel.items| > 0
      requires View() == s.(pool := Advanced(s.pool, i))
      modifies this, senderChannel
      ensures View() == Dispatch(attemptOutcomeSource, s, i)
      ensures |senderChannel.items| == |old(senderChannel.items)| - 1
    {
      var batch, passed := senderChannel.Receive(activity.sender);
      activity := activity.(sender := passed);
      GiveTo(i, batch.value);
    }

    method FlushThrottledBatch() returns (blocked: bool)
      requires Separate()
      modifies this, senderChannel
      ensures Flushed(View(), blocked) == Flush(attemptOutcomeSource, old(View()))
    {
      if pendingThrottledBatch.None? { return false; }
      var batch := pendingThrottledBatch.value;
      if senderChannel.appliedCapacity == 0 {
        var found := NextIdleWorker();
        if found.None? { return true; }
        HandTo(found.value, batch, old(View()));
      } else {
        blocked := QueueHeld(batch);
        if blocked { return; }
      }
      pendingThrottledBatch := None;
      blocked := false;
    }

    /** The held batch passes the queue straight to worker i; s is the state before the choice. */
    method HandTo(i: nat, batch: Batch, ghost s: Sim)
      requires Separate() && i < |workers| == |s.pool.workers| && s.held == Some(batch)
      requires View() == s.(pool := Advanced(s.pool, i))
      modifies this, senderChannel
      ensures View() == HandOver(attemptOutcomeSource, s, i).(held := Some(batch))
    {
      PassQueue(batch);
      GiveTo(i, batch);
    }

    /** Worker i gets the batch and starts its first attempt. */
    method GiveTo(i: nat, batch: Batch)
      requires i < |workers|
      modifies `workers, `failureCredit, `calls, `totals, `activity, `history
      ensures PoolView() == Accept(old(Now()), old(PoolView()), i, batch)
      ensures activity == old(activity).(http := activity.http)
    {
      workers := workers[i := workers[i].(batch := Some(batch), hadAmbiguousOutcome := false)];
      StartAttempt(i, 1);
    }

    method PassQueue(batch: Batch)
      requires Separate()
      modifies `activity, senderChannel
      ensures View() == old(View()).(sender := old(View()).sender.Handoff(batch))
    {
      var passed := senderChannel.Handoff(batch, activity.sender);
      activity := activity.(sender := passed);
    }

    /** The held batch joins the queue if there is room, and the queue is drained. */
    method QueueHeld(batch: Batch) returns (blocked: bool)
      requires Separate() && pendingThrottledBatch == Some(batch)
      modifies this, senderChannel
      ensures blocked == !old(CanSend(senderChannel.View()))
      ensures View() == if blocked then old(View())
                        else Drain(attemptOutcomeSource, SendHeld(old(View()))).(held := Some(batch))
    {
      var sent, passed := senderChannel.Send(batch, activity.sender);
      activity := activity.(sender := passed);
      if !sent { return true; }
      ghost var queued := View();
      assert queued.(held := None) == SendHeld(old(View()));
      DrainSenderChannel();
      DrainIgnoresHeld(attemptOutcomeSource, queued, None);
      assert View() == Drain(attemptOutcomeSource, SendHeld(old(View()))).(held := Some(batch));
      return false;
    }

    method CreatePipelineBatch(transactions: Pos) returns (batch: Batch)
      modifies `nextBatchSequence
      ensures batch == Batch(old(nextBatchSequence), transactions) && nextBatchSequence == old(nextBatchSequence) + 1
    {
      var sequence := nextBatchSequence;
      nextBatchSequence := nextBatchSequence + 1;
      return Batch(sequence, transactions);
    }

    /** One turn of the admission loop. */
    method AdmitOne() returns (ends: bool, senderChannelBlocked: bool, tokenLimited: bool)
      requires Separate()
      modifies this, readerChannel, senderChannel
      ensures var t := AdmitTurn(attemptOutcomeSource, old(View()));
        View() == t.s && ends == t.ends && senderChannelBlocked == t.senderBlocked && tokenLimited == t.limited
    {
      if pendingThrottledBatch.Some? {
        var blocked := FlushThrottledBatch();
        if blocked { return true, true, false; }
      }
      ends, senderChannelBlocked, tokenLimited := AdmitQueued();
    }

    method AdmitQueued() returns (ends: bool, senderChannelBlocked: bool, tokenLimited: bool)
      requires Separate()
      modifies this, readerChannel, senderChannel
      ensures var t := AdmitHead(attemptOutcomeSource, old(View()));
        View() == t.s && ends == t.ends && senderChannelBlocked == t.senderBlocked && tokenLimited == t.limited
    {
      if |readerChannel.items| == 0 { return true, false, false; }
      var installed := config.throttlerInstalled;
      if installed && throttlerTokens < readerChannel.items[0].transactions as real { return true, false, true; }
      ghost var before := View();
      var received, passed := readerChannel.Receive(activity.reader);
      activity := activity.(reader := passed);
      if installed { throttlerTokens := throttlerTokens - received.value.transactions as real; }
      pendingThrottledBatch := received;
      assert View() == TakeHead(before);
      var blocked := FlushThrottledBatch();
      return blocked, blocked, false;
    }

    method ReceiveReaderChannel() returns (senderChannelBlocked: bool, tokenLimited: bool)
      requires Separate()
      modifies this, readerChannel, senderChannel
      ensures var t := Admit(attemptOutcomeSource, old(View()));
        View() == t.s && senderChannelBlocked == t.senderBlocked && tokenLimited == t.limited
    {
      var availableBatches := |readerChannel.items|;
      ghost var all := AdmitFrom(attemptOutcomeSource, View(), availableBatches);
      var batchIndex := 0;
      while batchIndex < availableBatches
        invariant batchIndex <= availableBatches
        invariant AdmitFrom(attemptOutcomeSource, View(), availableBatches - batchIndex) == all
      {
        var ends, blocked, limited := AdmitOne();
        if ends { return blocked, limited; }
        batchIndex := batchIndex + 1;
      }
      return false, false;
    }

    method ProduceOne() returns (ends: bool, readerChannelBlocked: bool, senderChannelBlocked: bool, tokenLimited: bool)
      requires Separate() && readerTransactionCredit >= config.readBatchSize
      modifies this, readerChannel, senderChannel
      ensures var t := ProduceTurn(attemptOutcomeSource, old(View()));
        && View() == t.s && ends == t.ends && readerChannelBlocked == t.readerBlocked
        && senderChannelBlocked == t.senderBlocked && tokenLimited == t.limited
    {
      var transactions := config.readBatchSize;
      if readerChannel.appliedCapacity == 0 {
        if pendingThrottledBatch.Some? { return true, true, true, false; }
        if config.throttlerInstalled && throttlerTokens < transactions as real { return true, true, false, true; }
        PassBatchThrough();
        var blocked := FlushThrottledBatch();
        return blocked, blocked, blocked, false;
      }
      if |readerChannel.items| >= readerChannel.appliedCapacity { return true, true, false, false; }
      EnqueueBatch();
      return false, false, false, false;
    }

    /** A new batch passes the reader queue. */
    method PassReader(transactions: Pos) returns (batch: Batch)
      requires Separate()
      modifies `nextBatchSequence, `activity, readerChannel
      ensures batch == Batch(old(nextBatchSequence), transactions) && nextBatchSequence == old(nextBatchSequence) + 1
      ensures Link(readerChannel.View(), activity.reader)
           == old(Link(readerChannel.View(), activity.reader)).Handoff(batch)
      ensures activity == old(activity).(reader := activity.reader)
    {
      batch := CreatePipelineBatch(transactions);
      var passed := readerChannel.Handoff(batch, activity.reader);
      activity := activity.(reader := passed);
    }

    method PassBatchThrough()
      requires Separate() && readerTransactionCredit >= config.readBatchSize
      modifies `nextBatchSequence, `activity, `throttlerTokens, `readerTransactionCredit
      modifies `pendingThrottledBatch, readerChannel
      ensures View() == PassThrough(old(View()))
    {
      var transactions := config.readBatchSize;
      var batch := PassReader(transactions);
      if config.throttlerInstalled { throttlerTokens := throttlerTokens - transactions as real; }
      readerTransactionCredit := readerTransactionCredit - transactions;
      pendingThrottledBatch := Some(batch);
    }

    method EnqueueBatch()
      requires Separate() && readerTransactionCredit >= config.readBatchSize && CanSend(readerChannel.View())
      modifies `nextBatchSequence, `activity, `readerTransactionCredit, readerChannel
      ensures View() == Enqueue(old(View()))
    {
      var transactions := config.readBatchSize;
      var batch := CreatePipelineBatch(transactions);
      var sent, passed := readerChannel.Send(batch, activity.reader);
      assert sent;
      activity := activity.(reader := passed);
      readerTransactionCredit := readerTransactionCredit - transactions;
    }

    method ProduceReaderBatches() returns (readerChannelBlocked: bool, senderChannelBlocked: bool, tokenLimited: bool)
      requires Separate()
      modifies this, readerChannel, senderChannel
      ensures var t := Produce(attemptOutcomeSource, Earn(old(View())));
        && View() == t.s && readerChannelBlocked == t.readerBlocked
        && senderChannelBlocked == t.senderBlocked && tokenLimited == t.limited
    {
      EarnCredit();
      readerChannelBlocked, senderChannelBlocked, tokenLimited := SpendCredit();
    }

    method EarnCredit()
      modifies `readerTransactionCredit
      ensures View() == Earn(old(View()))
    {
      readerTransactionCredit := Min(config.readerWorkers * config.readBatchSize,
                                     readerTransactionCredit + config.readerWorkers * READER_CREDIT_PER_WORKER_STEP);
    }

    method SpendCredit() returns (readerChannelBlocked: bool, senderChannelBlocked: bool, tokenLimited: bool)
      requires Separate()
      modifies this, readerChannel, senderChannel
      ensures var t := Produce(attemptOutcomeSource, old(View()));
        && View() == t.s && readerChannelBlocked == t.readerBlocked
        && senderChannelBlocked == t.senderBlocked && tokenLimited == t.limited
    {
      var transactions := config.readBatchSize;
      ghost var s := View();
      ghost var all := Produce(attemptOutcomeSource, s);
      while readerTransactionCredit >= transactions
        invariant config.readBatchSize == transactions && View() == s
        invariant Produce(attemptOutcomeSource, s) == all
        decreases readerTransactionCredit
      {
        var ends, readerBlocked, senderBlocked, limited := ProduceOne();
        s := View();
        if ends { return readerBlocked, senderBlocked, limited; }
      }
      return false, false, false;
    }

    // ----- Public methods -----

    method AdvanceStep()
      requires Valid()
      modifies this, readerChannel, senderChannel
      ensures Valid() && View() == Simulation.AdvanceStep(attemptOutcomeSource, old(View()))
    {
      StepKeeps(attemptOutcomeSource, View());
      AlwaysBegins(attemptOutcomeSource, View());
      Advance();
    }

    method Advance()
      requires Separate() && CanBegin(attemptOutcomeSource, View())
      modifies this, readerChannel, senderChannel
      ensures View() == Simulation.AdvanceStep(attemptOutcomeSource, old(View()))
    {
      OpenStep();
      DrainSenderChannel();
      var senderChannelBlocked := FlushThrottledBatch();
      var admissionBlocked, admissionLimited := ReceiveReaderChannel();
      var readerBlocked, productionBlocked, productionLimited := ProduceReaderBatches();
      senderChannelBlocked := senderChannelBlocked || admissionBlocked || productionBlocked;
      EndStep(readerBlocked, senderChannelBlocked, admissionLimited || productionLimited);
    }

    /** The step up to the refill. */
    method OpenStep()
      requires CanBegin(attemptOutcomeSource, View())
      modifies this
      ensures View() == Opened(attemptOutcomeSource, old(View()))
    {
      BeginStep();
      AdvanceWorkers();
      RefillThrottlerTokens();
    }

    method BeginStep()
      modifies `elapsedMs, `activity
      ensures View() == Begin(old(View()))
    {
      elapsedMs := elapsedMs + FIXED_STEP_MS;
      activity := StepActivity(NO_CHANNEL_ACTIVITY, NO_CHANNEL_ACTIVITY, NO_HTTP_ACTIVITY);
    }

    /** The first part of a step: completions, due retries, a finished scale-down. */
    method AdvanceWorkers()
      requires AllShaped(workers) && |Active(Passed(Now(), PoolView()).workers)| > 0
      modifies `workers, `nextWorkerIndex, `failureCredit, `calls, `totals, `activity, `latest, `history
      ensures PoolView() == AdvancePool(old(Now()), old(PoolView()))
      ensures activity == old(activity).(http := activity.http)
    {
      CompleteDueAttempts();
      StartDueRetries();
      FinalizeSenderScaleDown();
    }

    /** The last part: what was blocked or limited, and the window. */
    method EndStep(readerBlocked: bool, senderBlocked: bool, limited: bool)
      requires Separate()
      modifies this, readerChannel, senderChannel
      ensures View() == Finish(old(View()), readerBlocked, senderBlocked, limited)
    {
      ObserveReader(readerBlocked);
      ObserveSender(senderBlocked);
      CloseWindow(limited);
    }

    method ObserveReader(blocked: bool)
      requires Separate()
      modifies readerChannel
      ensures View() == old(View()).(reader := Observed(old(View()).reader, blocked))
    {
      readerChannel.ObserveBlocked(blocked, activity.reader.inputBatches > 0 || activity.reader.handoffBatches > 0);
    }

    method ObserveSender(blocked: bool)
      requires Separate()
      modifies senderChannel
      ensures View() == old(View()).(sender := Observed(old(View()).sender, blocked))
    {
      senderChannel.ObserveBlocked(blocked, activity.sender.inputBatches > 0 || activity.sender.handoffBatches > 0);
    }

    method CloseWindow(limited: bool)
      modifies `limitedMs, `activities
      ensures View() == old(View()).(activities := Pushed(old(activities), activity),
                                     limitedMs := old(limitedMs) + if limited then FIXED_STEP_MS else 0)
    {
      if limited { limitedMs := limitedMs + FIXED_STEP_MS; }
      activities := activities + [activity];
      if |activities| > RATE_WINDOW_STEPS { activities := activities[1..]; }
    }

    method UpdateConfig(patch: Patch)
      requires Valid()
      modifies this
      ensures Valid() && View() == Simulation.UpdateConfig(old(View()), patch)
    {
      UpdateKeeps(View(), patch);
      ApplyPatch(patch);
    }

    method ApplyPatch(patch: Patch)
      requires |workers| > 0
      modifies `config, `workers, `nextWorkerIndex, `throttlerTokens, `readerTransactionCredit
      ensures View() == Simulation.UpdateConfig(old(View()), patch)
    {
      config := Merge(config, patch);
      if patch.senderWorkers.Some? { RequestSenderWorkerCount(patch.senderWorkers.value); }
      if patch.requestedTps == Some(0.0) || patch.throttlerInstalled.Some? { throttlerTokens := 0.0; }
      readerTransactionCredit := Min(readerTransactionCredit, config.readerWorkers * config.readBatchSize);
    }

    method RequestChannelCapacity(side: Side, capacity: nat) returns (changed: bool)
      requires Valid()
      modifies readerChannel, senderChannel
      ensures Valid() && View() == RequestCapacity(old(View()), side, capacity)
      ensures changed
           == old(CapacityChanges(if side.ReaderSide? then readerChannel.View() else senderChannel.View(), capacity))
    {
      RequestCapacityKeeps(View(), side, capacity);
      if side.ReaderSide? {
        changed := readerChannel.RequestCapacity(capacity);
      } else {
        changed := senderChannel.RequestCapacity(capacity);
      }
    }

    method ClearInstantaneousTelemetry()
      requires Valid()
      modifies `activities
      ensures Valid() && View() == ClearTelemetry(old(View()))
    {
      ClearKeeps(View());
      activities := [];
    }

    method Reset()
      requires Valid()
      modifies this, readerChannel, senderChannel
      ensures Valid() && View() == Simulation.Reset(old(View()))
    {
      ResetKeeps(View());
      ClearRun();
    }

    /** Every field but the configuration, and the capacities of the queues, back to its start. */
    method ClearRun()
      requires Separate()
      modifies this, readerChannel, senderChannel
      ensures View() == Simulation.Reset(old(View()))
    {
      ghost var before := View();
      readerChannel.ResetRuntime();
      senderChannel.ResetRuntime();
      assert readerChannel.View() == WithRuntimeReset(before.reader.channel);
      assert senderChannel.View() == WithRuntimeReset(before.sender.channel);
      ClearProgress();
      ClearWorkers();
    }

    method ClearProgress()
      modifies `activities, `readerTransactionCredit, `throttlerTokens, `pendingThrottledBatch
      modifies `nextBatchSequence, `elapsedMs, `limitedMs
      ensures activities == [] && readerTransactionCredit == 0
      ensures throttlerTokens == 0.0 && pendingThrottledBatch == None
      ensures nextBatchSequence == 0 && elapsedMs == 0 && limitedMs == 0
    {
      activities, readerTransactionCredit, throttlerTokens := [], 0, 0.0;
      pendingThrottledBatch, nextBatchSequence := None, 0;
      elapsedMs, limitedMs := 0, 0;
    }

    method ClearWorkers()
      modifies `workers, `nextWorkerIndex, `failureCredit, `latest, `totals, `history
      ensures PoolView() == InitialPool(config.senderWorkers, calls).(http := activity.http)
    {
      workers := FreshWorkers(0, config.senderWorkers);
      nextWorkerIndex, failureCredit := 0, 0.0;
      latest, totals, history := NO_LATEST, ZERO_TOTALS, [];
    }

    method AggregateActivity() returns (aggregate: StepActivity)
      ensures aggregate == Aggregate(activities)
    {
      aggregate := NO_ACTIVITY;
      for i := 0 to |activities|
        invariant aggregate == Aggregate(activities[..i])
      {
        assert activities[..i + 1][..i] == activities[..i];
        aggregate := Plus(aggregate, activities[i]);
      }
      assert activities[..|activities|] == activities;
    }
  }
}
