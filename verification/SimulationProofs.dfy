/** The simulation's invariant, and that every public transition keeps it. */
module SimulationProofs {
  import opened Prelude
  import opened SimTypes
  import opened Channels
  import opened SenderWorkers
  import opened PoolHistory
  import opened PoolProofs
  import opened Simulation

  function HeldSeq(s: Sim): seq<Batch> { if s.held.Some? then [s.held.value] else [] }

  /** Every batch ever created, in order: attempted, in the sender queue, held, in the reader queue. */
  function Pipeline(s: Sim): seq<Batch> {
    FirstAttempts(s.pool.history) + s.sender.channel.items + HeldSeq(s) + s.reader.channel.items
  }

  predicate InSequence(bs: seq<Batch>, n: nat) {
    |bs| == n && forall i :: 0 <= i < n ==> bs[i].sequence == i
  }

  predicate Fifo(s: Sim) { InSequence(Pipeline(s), s.nextSequence) }

  function HeldTx(s: Sim): nat { if s.held.Some? then s.held.value.transactions else 0 }

  /** What left one stage entered the next. */
  predicate Joined(s: Sim) {
    && s.reader.channel.sentBatches == s.nextSequence
    && s.reader.channel.receivedBatches == s.sender.channel.sentBatches + |HeldSeq(s)|
    && s.reader.channel.receivedTransactions == s.sender.channel.sentTransactions + HeldTx(s)
    && s.sender.channel.receivedBatches == |FirstAttempts(s.pool.history)|
    && s.sender.channel.receivedTransactions == Sum(FirstAttempts(s.pool.history), Tx)
  }

  /** The bucket is never in debt, and is empty while the throttler is out or its rate is zero. */
  predicate BucketOk(s: Sim) {
    && s.tokens >= 0.0
    && (!s.config.throttlerInstalled || s.config.requestedTps == 0.0 ==> s.tokens == 0.0)
  }

  ghost predicate SimInv(s: Sim) {
    && ChannelOk(s.reader.channel) && ChannelOk(s.sender.channel)
    && PoolInv(s.pool) && Ranked(s.pool.workers, s.config.senderWorkers)
    && Fifo(s) && Joined(s) && BucketOk(s)
  }

  datatype SimOffset = SimOffset(reader: LinkOffset, sender: LinkOffset, http: HttpOffset)

  function Offset(s: Sim): SimOffset { SimOffset(s.reader.Ahead(), s.sender.Ahead(), Ahead(s.pool)) }

  /** Tokens paid: with the throttler in place, every transaction that leaves the reader queue costs one. */
  predicate Paid(s: Sim, r: Sim) {
    s.config.throttlerInstalled ==>
      r.tokens + r.reader.channel.receivedTransactions as real
        == s.tokens + s.reader.channel.receivedTransactions as real
  }

  /** A first attempt that began just now. */
  predicate JustStarted(w: Worker, now: nat) {
    && w.state.InFlight? && w.attempt == 1
    && w.attemptLatencyMs % FIXED_STEP_MS == 0 && w.completeAtMs == now + w.attemptLatencyMs
  }

  /** After its completions a step only gives batches to available workers. */
  predicate OnlyLoads(p: Pool, q: Pool, now: nat) {
    && SameSeats(p.workers, q.workers)
    && forall i :: 0 <= i < |p.workers| ==>
         q.workers[i] == p.workers[i] || (Available(p.workers[i]) && JustStarted(q.workers[i], now))
  }

  /** What every part of a step between the refill and the end keeps. */
  ghost predicate Within(s: Sim, r: Sim) {
    && SimInv(r) && Offset(r) == Offset(s) && Paid(s, r) && OnlyLoads(s.pool, r.pool, s.elapsedMs)
    && r.config == s.config && r.elapsedMs == s.elapsedMs && r.activities == s.activities
    && r.limitedMs == s.limitedMs
  }

  lemma WithinTrans(s: Sim, r: Sim, t: Sim)
    requires Within(s, r) && Within(r, t)
    ensures Within(s, t)
  {
  }

  /** The next batch to attempt bears the number of batches attempted so far. */
  lemma NextToAttempt(s: Sim)
    requires Fifo(s)
    ensures |s.sender.channel.items| > 0 ==>
              s.sender.channel.items[0].sequence == |FirstAttempts(s.pool.history)|
    ensures |s.sender.channel.items| == 0 && s.held.Some? ==>
              s.held.value.sequence == |FirstAttempts(s.pool.history)|
  {
    var n := |FirstAttempts(s.pool.history)|;
    if |s.sender.channel.items| > 0 {
      assert Pipeline(s)[n] == s.sender.channel.items[0];
    } else if s.held.Some? {
      assert Pipeline(s)[n] == s.held.value;
    }
  }

  lemma SeatsRanked(ws: seq<Worker>, us: seq<Worker>, target: nat)
    requires Ranked(ws, target) && SameSeats(ws, us)
    ensures Ranked(us, target)
  {
  }

  /** Worker i, idle, takes the next batch. */
  lemma TakesNext(env: Env, p: Pool, i: nat, b: Batch)
    requires PoolInv(p) && NextIdle(p) == Some(i) && b.sequence == |FirstAttempts(p.history)|
    ensures Took(p, Accept(env, Advanced(p, i), i, b), b, env.now)
  {
    AcceptKeeps(env, Advanced(p, i), i, b);
  }

  /** A pool that took batch b, with nothing else changed. */
  ghost predicate Took(p: Pool, q: Pool, b: Batch, now: nat) {
    && PoolInv(q) && Ahead(q) == Ahead(p) && OnlyLoads(p, q, now)
    && FirstAttempts(q.history) == FirstAttempts(p.history) + [b]
  }

  lemma Regroup(f: seq<Batch>, b: Batch, queue: seq<Batch>, held: seq<Batch>, behind: seq<Batch>)
    ensures (f + [b]) + queue + held + behind == f + ([b] + queue) + held + behind
    ensures (f + [b]) + [] + [] + behind == f + [] + [b] + behind
  {
  }

  /** The first queued batch becomes the last attempted one: the line stays the same. */
  lemma DispatchedLine(s: Sim, q: Pool)
    requires |s.sender.channel.items| > 0
    requires FirstAttempts(q.history) == FirstAttempts(s.pool.history) + [s.sender.channel.items[0]]
    ensures Pipeline(s.(sender := s.sender.Receive(), pool := q)) == Pipeline(s)
  {
    var r := s.(sender := s.sender.Receive(), pool := q);
    var f, b := FirstAttempts(s.pool.history), s.sender.channel.items[0];
    assert s.sender.channel.items == [b] + r.sender.channel.items;
    Regroup(f, b, r.sender.channel.items, HeldSeq(s), s.reader.channel.items);
  }

  lemma DispatchedKeeps(s: Sim, q: Pool)
    requires SimInv(s) && |s.sender.channel.items| > 0 && Took(s.pool, q, s.sender.channel.items[0], s.elapsedMs)
    ensures Within(s, s.(sender := s.sender.Receive(), pool := q))
  {
    DispatchedLine(s, q);
    ReceiveKeeps(s.sender);
    SumAppend(FirstAttempts(s.pool.history), s.sender.channel.items[0], Tx);
  }

  lemma DispatchKeeps(src: OutcomeSource, s: Sim, i: nat)
    requires SimInv(s) && |s.sender.channel.items| > 0 && NextIdle(s.pool) == Some(i)
    ensures Within(s, Dispatch(src, s, i))
  {
    NextToAttempt(s);
    TakesNext(EnvOf(src, s), s.pool, i, s.sender.channel.items[0]);
    DispatchedKeeps(s, Dispatch(src, s, i).pool);
  }

  lemma HandedOverLine(s: Sim, q: Pool)
    requires s.held.Some? && s.sender.channel.items == []
    requires FirstAttempts(q.history) == FirstAttempts(s.pool.history) + [s.held.value]
    ensures Pipeline(s.(sender := s.sender.Handoff(s.held.value), held := None, pool := q)) == Pipeline(s)
  {
    Regroup(FirstAttempts(s.pool.history), s.held.value, [], [], s.reader.channel.items);
  }

  lemma HandedOverJoins(s: Sim, q: Pool)
    requires Joined(s) && s.held.Some? && FirstAttempts(q.history) == FirstAttempts(s.pool.history) + [s.held.value]
    ensures Joined(s.(sender := s.sender.Handoff(s.held.value), held := None, pool := q))
  {
    SumAppend(FirstAttempts(s.pool.history), s.held.value, Tx);
  }

  lemma HandedOverKeeps(s: Sim, q: Pool)
    requires SimInv(s) && s.held.Some? && s.sender.channel.applied == 0 && Took(s.pool, q, s.held.value, s.elapsedMs)
    ensures Within(s, s.(sender := s.sender.Handoff(s.held.value), held := None, pool := q))
  {
    HandedOverLine(s, q);
    HandedOverJoins(s, q);
    HandoffKeeps(s.sender, s.held.value);
    var r := s.(sender := s.sender.Handoff(s.held.value), held := None, pool := q);
    assert Offset(r) == Offset(s);
    assert SimInv(r);
  }

  lemma HandOverKeeps(src: OutcomeSource, s: Sim, i: nat)
    requires SimInv(s) && s.held.Some? && s.sender.channel.applied == 0 && NextIdle(s.pool) == Some(i)
    ensures Within(s, HandOver(src, s, i))
  {
    NextToAttempt(s);
    TakesNext(EnvOf(src, s), s.pool, i, s.held.value);
    HandedOverKeeps(s, HandOver(src, s, i).pool);
  }

  lemma SendHeldKeeps(s: Sim)
    requires SimInv(s) && s.held.Some? && CanSend(s.sender.channel)
    ensures Within(s, SendHeld(s))
  {
    SendKeeps(s.sender, s.held.value);
    assert Pipeline(SendHeld(s)) == Pipeline(s);
  }

  lemma TakeHeadKeeps(s: Sim)
    requires SimInv(s) && s.held.None? && |s.reader.channel.items| > 0
    requires s.config.throttlerInstalled ==> s.tokens >= s.reader.channel.items[0].transactions as real
    ensures Within(s, TakeHead(s))
  {
    ReceiveKeeps(s.reader);
    assert s.reader.channel.items == [s.reader.channel.items[0]] + TakeHead(s).reader.channel.items;
    assert Pipeline(TakeHead(s)) == Pipeline(s);
  }

  lemma EnqueueKeeps(s: Sim)
    requires SimInv(s) && CanSend(s.reader.channel) && s.credit >= s.config.readBatchSize
    ensures Within(s, Enqueue(s))
  {
    SendKeeps(s.reader, NewBatch(s));
    assert Pipeline(Enqueue(s)) == Pipeline(s) + [NewBatch(s)];
  }

  lemma PassThroughKeeps(s: Sim)
    requires SimInv(s) && s.held.None? && s.reader.channel.applied == 0 && s.credit >= s.config.readBatchSize
    requires s.config.throttlerInstalled ==> s.tokens >= s.config.readBatchSize as real
    ensures Within(s, PassThrough(s))
  {
    assert Pipeline(PassThrough(s)) == Pipeline(s) + [NewBatch(s)];
  }

  /** What every dispatch keeps, draining keeps; and it only stops when nothing more can be dispatched. */
  lemma {:induction false} DrainsKeeping(src: OutcomeSource, s: Sim, good: Sim -> bool)
    requires good(s)
    requires forall r {:trigger DrainTurn(src, r)} ::
               good(r) && DrainTurn(src, r).Some? ==> good(DrainTurn(src, r).value)
    ensures good(Drain(src, s)) && DrainTurn(src, Drain(src, s)).None?
    decreases |s.sender.channel.items|
  {
    if DrainTurn(src, s).Some? {
      DrainsKeeping(src, DrainTurn(src, s).value, good);
    }
  }

  lemma DrainKeeps(src: OutcomeSource, s: Sim)
    requires SimInv(s)
    ensures Within(s, Drain(src, s)) && DrainTurn(src, Drain(src, s)).None?
  {
    var good := r => Within(s, r);
    forall r | good(r) && DrainTurn(src, r).Some? ensures good(DrainTurn(src, r).value) {
      DispatchKeeps(src, r, NextIdle(r.pool).value);
      WithinTrans(s, r, DrainTurn(src, r).value);
    }
    DrainsKeeping(src, s, good);
  }

  lemma FlushKeeps(src: OutcomeSource, s: Sim)
    requires SimInv(s)
    ensures Within(s, Flush(src, s).s)
  {
    if s.held.Some? {
      if s.sender.channel.applied == 0 {
        if NextIdle(s.pool).Some? { HandOverKeeps(src, s, NextIdle(s.pool).value); }
      } else if CanSend(s.sender.channel) {
        SendHeldKeeps(s);
        DrainKeeps(src, SendHeld(s));
        WithinTrans(s, SendHeld(s), Drain(src, SendHeld(s)));
      }
    }
  }

  lemma AdmitHeadKeeps(src: OutcomeSource, s: Sim)
    requires SimInv(s) && s.held.None?
    ensures Within(s, AdmitHead(src, s).s)
  {
    if |s.reader.channel.items| > 0
       && !(s.config.throttlerInstalled && s.tokens < s.reader.channel.items[0].transactions as real) {
      TakeHeadKeeps(s);
      FlushKeeps(src, TakeHead(s));
      WithinTrans(s, TakeHead(s), Flush(src, TakeHead(s)).s);
    }
  }

  lemma AdmitTurnKeeps(src: OutcomeSource, s: Sim)
    requires SimInv(s)
    ensures Within(s, AdmitTurn(src, s).s)
  {
    FlushKeeps(src, s);
    var before := Flush(src, s);
    if !before.blocked {
      AdmitHeadKeeps(src, before.s);
      WithinTrans(s, before.s, AdmitHead(src, before.s).s);
    }
  }

  /** What every turn keeps, the loop keeps. */
  lemma {:induction false} AdmitFromKeeps(src: OutcomeSource, s: Sim, n: nat, good: Sim -> bool)
    requires good(s) && forall r {:trigger AdmitTurn(src, r)} :: good(r) ==> good(AdmitTurn(src, r).s)
    ensures good(AdmitFrom(src, s, n).s)
    decreases n
  {
    if n > 0 && !AdmitTurn(src, s).ends {
      AdmitFromKeeps(src, AdmitTurn(src, s).s, n - 1, good);
    }
  }

  lemma AdmitKeeps(src: OutcomeSource, s: Sim)
    requires SimInv(s)
    ensures Within(s, Admit(src, s).s)
  {
    var good := r => Within(s, r);
    forall r | good(r) ensures good(AdmitTurn(src, r).s) {
      AdmitTurnKeeps(src, r);
      WithinTrans(s, r, AdmitTurn(src, r).s);
    }
    AdmitFromKeeps(src, s, |s.reader.channel.items|, good);
  }

  lemma PassAndFlushKeeps(src: OutcomeSource, s: Sim)
    requires SimInv(s) && s.held.None? && s.reader.channel.applied == 0 && s.credit >= s.config.readBatchSize
    requires s.config.throttlerInstalled ==> s.tokens >= s.config.readBatchSize as real
    ensures Within(s, Flush(src, PassThrough(s)).s)
  {
    PassThroughKeeps(s);
    FlushKeeps(src, PassThrough(s));
    WithinTrans(s, PassThrough(s), Flush(src, PassThrough(s)).s);
  }

  lemma ProduceTurnKeeps(src: OutcomeSource, s: Sim)
    requires SimInv(s) && s.credit >= s.config.readBatchSize
    ensures Within(s, ProduceTurn(src, s).s)
  {
    if s.reader.channel.applied == 0 {
      if s.held.None? && !(s.config.throttlerInstalled && s.tokens < s.config.readBatchSize as real) {
        PassAndFlushKeeps(src, s);
      }
    } else if |s.reader.channel.items| < s.reader.channel.applied {
      EnqueueKeeps(s);
    }
  }

  lemma {:induction false} ProduceKeeps(src: OutcomeSource, s: Sim)
    requires SimInv(s)
    ensures Within(s, Produce(src, s).s)
    decreases s.credit
  {
    if s.credit >= s.config.readBatchSize {
      ProduceTurnKeeps(src, s);
      var t := ProduceTurn(src, s);
      if !t.ends {
        ProduceKeeps(src, t.s);
        WithinTrans(s, t.s, Produce(src, t.s).s);
      }
    }
  }

  lemma PassesKeep(env: Env, p: Pool)
    requires PoolInv(p)
    ensures PassKeeps(p, Passed(env, p))
  {
    CompleteDueKeeps(env, p);
    StartDueRetriesKeeps(env, CompleteDue(env, p));
    PassTrans(p, CompleteDue(env, p), Passed(env, p));
  }

  lemma AdvancePoolKeeps(env: Env, p: Pool)
    requires PoolInv(p) && Ranked(p.workers, env.config.senderWorkers)
    ensures var q := AdvancePool(env, p);
      && PoolInv(q) && Ranked(q.workers, env.config.senderWorkers) && Ahead(q) == Ahead(p)
      && FirstAttempts(q.history) == FirstAttempts(p.history)
  {
    PassedRanked(env, p);
    FinalizeKeeps(Passed(env, p), env.config.senderWorkers);
  }

  lemma PassedRanked(env: Env, p: Pool)
    requires PoolInv(p) && Ranked(p.workers, env.config.senderWorkers)
    ensures var q := Passed(env, p);
      && PoolInv(q) && Ranked(q.workers, env.config.senderWorkers) && Ahead(q) == Ahead(p)
      && FirstAttempts(q.history) == FirstAttempts(p.history)
  {
    PassesKeep(env, p);
    SeatsRanked(p.workers, Passed(env, p).workers, env.config.senderWorkers);
  }

  lemma OpenedKeeps(src: OutcomeSource, s: Sim)
    requires SimInv(s)
    ensures var r := Opened(src, s);
      && SimInv(r) && Offset(r) == Offset(Begin(s))
      && r.config == s.config && r.elapsedMs == s.elapsedMs + FIXED_STEP_MS && r.activities == s.activities
      && r.reader.channel == s.reader.channel && r.sender.channel == s.sender.channel && r.held == s.held
  {
    AdvancePoolKeeps(EnvOf(src, Begin(s)), Begin(s).pool);
  }

  /** Every part of the step has kept what it must. */
  ghost predicate Kept(t: Trail) {
    && SimInv(t.start) && Within(t.start, t.drained) && Within(t.start, t.flushed.s)
    && Within(t.start, t.admitted.s) && Within(t.start, t.produced.s)
  }

  lemma TrailJoins(t: Trail)
    requires SimInv(t.start) && Within(t.start, t.drained) && Within(t.drained, t.flushed.s)
    requires Within(t.flushed.s, t.admitted.s) && Within(Earn(t.admitted.s), t.produced.s)
    ensures Kept(t)
  {
    assert Pipeline(Earn(t.admitted.s)) == Pipeline(t.admitted.s);
    assert Within(t.admitted.s, Earn(t.admitted.s));
    WithinTrans(t.start, t.drained, t.flushed.s);
    WithinTrans(t.start, t.flushed.s, t.admitted.s);
    WithinTrans(t.start, t.admitted.s, Earn(t.admitted.s));
    WithinTrans(t.start, Earn(t.admitted.s), t.produced.s);
  }

  lemma EarnKeeps(s: Sim)
    requires SimInv(s)
    ensures SimInv(Earn(s))
  {
    assert Pipeline(Earn(s)) == Pipeline(s);
  }

  lemma TrailKeeps(src: OutcomeSource, s: Sim)
    requires SimInv(s)
    ensures Kept(TrailOf(src, s))
  {
    var t := TrailOf(src, s);
    OpenedKeeps(src, s);
    DrainKeeps(src, t.start);
    FlushKeeps(src, t.drained);
    AdmitKeeps(src, t.flushed.s);
    EarnKeeps(t.admitted.s);
    ProduceKeeps(src, Earn(t.admitted.s));
    TrailJoins(t);
  }

  lemma FinishKeeps(s: Sim, readerBlocked: bool, senderBlocked: bool, limited: bool)
    requires SimInv(s)
    ensures SimInv(Finish(s, readerBlocked, senderBlocked, limited))
  {
    assert Pipeline(Finish(s, readerBlocked, senderBlocked, limited)) == Pipeline(s);
  }

  lemma EndKeeps(t: Trail)
    requires Kept(t)
    ensures SimInv(t.End())
  {
    FinishKeeps(t.produced.s, t.produced.readerBlocked,
                t.flushed.blocked || t.admitted.senderBlocked || t.produced.senderBlocked,
                t.admitted.limited || t.produced.limited);
  }

  lemma StepKeeps(src: OutcomeSource, s: Sim)
    requires SimInv(s)
    ensures SimInv(AdvanceStep(src, s))
  {
    TrailKeeps(src, s);
    EndKeeps(TrailOf(src, s));
  }

  lemma UpdateKeeps(s: Sim, patch: Patch)
    requires SimInv(s)
    ensures SimInv(UpdateConfig(s, patch))
  {
    if patch.senderWorkers.Some? {
      RequestCountKeeps(s.pool, s.config.senderWorkers, patch.senderWorkers.value);
    }
    assert Pipeline(UpdateConfig(s, patch)) == Pipeline(s);
  }

  lemma RequestCapacityKeeps(s: Sim, side: Side, capacity: nat)
    requires SimInv(s)
    ensures SimInv(RequestCapacity(s, side, capacity))
  {
    RequestKeeps(s.reader.channel, capacity);
    RequestKeeps(s.sender.channel, capacity);
    assert Pipeline(RequestCapacity(s, side, capacity)) == Pipeline(s);
  }

  lemma ResetKeeps(s: Sim)
    ensures SimInv(Reset(s))
  {
    InitialPoolOk(s.config.senderWorkers, s.pool.calls);
    assert Pipeline(Reset(s)) == [];
  }

  lemma InitialKeeps(config: Config, readerCapacity: nat, senderCapacity: nat)
    ensures SimInv(Initial(config, readerCapacity, senderCapacity))
  {
    InitialPoolOk(config.senderWorkers, 0);
    assert Pipeline(Initial(config, readerCapacity, senderCapacity)) == [];
  }

  /** A step function that keeps the invariant. */
  ghost predicate StepsWell(step: Sim -> Sim) {
    forall s {:trigger step(s)} :: SimInv(s) ==> SimInv(step(s))
  }

  lemma SteppingKeeps(src: OutcomeSource)
    ensures StepsWell(Stepping(src))
  {
    forall s | SimInv(s) ensures SimInv(Stepping(src)(s)) { StepKeeps(src, s); }
  }

  lemma ActKeeps(step: Sim -> Sim, s: Sim, a: Action)
    requires SimInv(s) && StepsWell(step)
    ensures SimInv(Act(step, s, a))
  {
    match a
    case Step =>
    case Update(patch) => UpdateKeeps(s, patch);
    case Request(side, capacity) => RequestCapacityKeeps(s, side, capacity);
    case Clear => ClearKeeps(s);
    case ResetAll => ResetKeeps(s);
  }

  lemma ClearKeeps(s: Sim)
    requires SimInv(s)
    ensures SimInv(ClearTelemetry(s))
  {
    assert Pipeline(ClearTelemetry(s)) == Pipeline(s);
  }

  /** The invariant holds after every sequence of public calls. */
  lemma {:induction false} RunKeeps(step: Sim -> Sim, s: Sim, actions: seq<Action>)
    requires SimInv(s) && StepsWell(step)
    ensures SimInv(Run(step, s, actions))
  {
    if |actions| > 0 {
      var before := actions[..|actions| - 1];
      RunKeeps(step, s, before);
      ActKeeps(step, Run(step, s, before), actions[|actions| - 1]);
    }
  }
}
