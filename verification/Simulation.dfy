/** The fixed-step simulation on values: one function per method of the class. */
module Simulation {
  import opened Prelude
  import opened SimTypes
  import opened Channels
  import opened SenderWorkers

  datatype StepActivity = StepActivity(reader: ChannelActivity, sender: ChannelActivity, http: HttpActivity)

  datatype Sim = Sim(
    config: Config, reader: Link, sender: Link, pool: Pool, activities: seq<StepActivity>, credit: nat,
    tokens: real, held: Option<Batch>, nextSequence: nat, elapsedMs: nat, limitedMs: nat)

  function Initial(config: Config, readerCapacity: nat, senderCapacity: nat): Sim {
    Sim(config, Link(Empty(readerCapacity), NO_CHANNEL_ACTIVITY), Link(Empty(senderCapacity), NO_CHANNEL_ACTIVITY),
        InitialPool(config.senderWorkers, 0), [], 0, 0.0, None, 0, 0, 0)
  }

  function EnvOf(src: OutcomeSource, s: Sim): Env { Env(src, s.config, s.elapsedMs) }

  // ----- Throttler -----

  function RefillPerStep(c: Config): Rate { c.requestedTps / 100.0 }

  function MaxTx(a: nat, b: nat): nat { if a > b then a else b }

  /** The largest of the next batch and the configured batch size. */
  function HeadOrBatch(s: Sim): nat {
    var items := s.reader.channel.items;
    MaxTx(if |items| > 0 then items[0].transactions else s.config.readBatchSize, s.config.readBatchSize)
  }

  function MinReal(a: real, b: real): real { if a < b then a else b }

  function Refill(s: Sim): Sim {
    if !s.config.throttlerInstalled then s.(tokens := 0.0)
    else
      var refill := RefillPerStep(s.config);
      s.(tokens := MinReal(HeadOrBatch(s) as real + refill, s.tokens + refill))
  }

  // ----- Sender side -----

  /** The sender queue's first batch goes to worker i. */
  function Dispatch(src: OutcomeSource, s: Sim, i: nat): Sim
    requires |s.sender.channel.items| > 0 && i < |s.pool.workers|
  {
    s.(sender := s.sender.Receive(),
       pool := Accept(EnvOf(src, s), Advanced(s.pool, i), i, s.sender.channel.items[0]))
  }

  /** One dispatch, unless the queue is empty or nobody is available. */
  function DrainTurn(src: OutcomeSource, s: Sim): (r: Option<Sim>)
    ensures r.Some? ==> |r.value.sender.channel.items| < |s.sender.channel.items|
    ensures r.Some? ==> r.value == s.(sender := r.value.sender, pool := r.value.pool)
  {
    if |s.sender.channel.items| > 0 && NextIdle(s.pool).Some? then Some(Dispatch(src, s, NextIdle(s.pool).value))
    else None
  }

  function Drain(src: OutcomeSource, s: Sim): (r: Sim)
    ensures r == s.(sender := r.sender, pool := r.pool)
    decreases |s.sender.channel.items|
  {
    match DrainTurn(src, s)
    case None => s
    case Some(r) => Drain(src, r)
  }

  /** The held batch goes straight to worker i, through a queue that has no room of its own. */
  function HandOver(src: OutcomeSource, s: Sim, i: nat): Sim
    requires s.held.Some? && i < |s.pool.workers|
  {
    s.(sender := s.sender.Handoff(s.held.value), held := None,
       pool := Accept(EnvOf(src, s), Advanced(s.pool, i), i, s.held.value))
  }

  function SendHeld(s: Sim): Sim
    requires s.held.Some? && CanSend(s.sender.channel)
  {
    s.(sender := s.sender.Send(s.held.value), held := None)
  }

  datatype Flushed = Flushed(s: Sim, blocked: bool)

  function Flush(src: OutcomeSource, s: Sim): (r: Flushed)
    ensures r.s == s.(sender := r.s.sender, pool := r.s.pool, held := r.s.held)
    ensures r.blocked ==> r.s == s && s.held.Some?
    ensures !r.blocked ==> r.s.held.None?
  {
    if s.held.None? then Flushed(s, false)
    else if s.sender.channel.applied == 0 then
      match NextIdle(s.pool)
      case None => Flushed(s, true)
      case Some(i) => Flushed(HandOver(src, s, i), false)
    else if !CanSend(s.sender.channel) then Flushed(s, true)
    else Flushed(Drain(src, SendHeld(s)), false)
  }

  // ----- Reader side -----

  /** The reader queue's first batch is admitted; with the throttler installed it costs its size in tokens. */
  function TakeHead(s: Sim): Sim
    requires |s.reader.channel.items| > 0
  {
    var b := s.reader.channel.items[0];
    s.(reader := s.reader.Receive(), held := Some(b),
       tokens := if s.config.throttlerInstalled then s.tokens - b.transactions as real else s.tokens)
  }

  /** One turn of a loop: the state after it, and whether the loop ends there. */
  datatype Turn = Turn(s: Sim, ends: bool, readerBlocked: bool, senderBlocked: bool, limited: bool)

  function GoOn(s: Sim): Turn { Turn(s, false, false, false, false) }

  function Stop(s: Sim, readerBlocked: bool, senderBlocked: bool, limited: bool): Turn {
    Turn(s, true, readerBlocked, senderBlocked, limited)
  }

  /** With nothing held back: the next queued batch, if there is one and the tokens suffice. */
  function AdmitHead(src: OutcomeSource, s: Sim): Turn {
    if |s.reader.channel.items| == 0 then Stop(s, false, false, false)
    else if s.config.throttlerInstalled && s.tokens < s.reader.channel.items[0].transactions as real then
      Stop(s, false, false, true)
    else
      var after := Flush(src, TakeHead(s));
      if after.blocked then Stop(after.s, false, true, false) else GoOn(after.s)
  }

  function AdmitTurn(src: OutcomeSource, s: Sim): Turn {
    var before := Flush(src, s);
    if before.blocked then Stop(before.s, false, true, false) else AdmitHead(src, before.s)
  }

  /** Admission with n batches still to look at: a turn for each, until one ends the loop. */
  function AdmitFrom(src: OutcomeSource, s: Sim, n: nat): Turn
    decreases n
  {
    if n == 0 then GoOn(s)
    else
      var t := AdmitTurn(src, s);
      if t.ends then t else AdmitFrom(src, t.s, n - 1)
  }

  /** Admission from the reader queue: one turn for each batch queued when it begins. */
  function Admit(src: OutcomeSource, s: Sim): Turn { AdmitFrom(src, s, |s.reader.channel.items|) }

  function NewBatch(s: Sim): Batch { Batch(s.nextSequence, s.config.readBatchSize) }

  /** A new batch enters the reader queue. */
  function Enqueue(s: Sim): Sim
    requires CanSend(s.reader.channel) && s.credit >= s.config.readBatchSize
  {
    s.(reader := s.reader.Send(NewBatch(s)), nextSequence := s.nextSequence + 1,
       credit := s.credit - s.config.readBatchSize)
  }

  /** A new batch passes a reader queue without room straight to the throttler. */
  function PassThrough(s: Sim): Sim
    requires s.credit >= s.config.readBatchSize
  {
    s.(reader := s.reader.Handoff(NewBatch(s)), nextSequence := s.nextSequence + 1,
       credit := s.credit - s.config.readBatchSize, held := Some(NewBatch(s)),
       tokens := if s.config.throttlerInstalled then s.tokens - s.config.readBatchSize as real else s.tokens)
  }

  function ProduceTurn(src: OutcomeSource, s: Sim): (t: Turn)
    requires s.credit >= s.config.readBatchSize
    ensures t.s == s.(sender := t.s.sender, pool := t.s.pool, held := t.s.held, reader := t.s.reader,
                      tokens := t.s.tokens, nextSequence := t.s.nextSequence, credit := t.s.credit)
    ensures !t.ends ==> t.s.credit < s.credit
  {
    if s.reader.channel.applied == 0 then
      if s.held.Some? then Stop(s, true, true, false)
      else if s.config.throttlerInstalled && s.tokens < s.config.readBatchSize as real then
        Stop(s, true, false, true)
      else
        var after := Flush(src, PassThrough(s));
        if after.blocked then Stop(after.s, true, true, false) else GoOn(after.s)
    else if |s.reader.channel.items| >= s.reader.channel.applied then Stop(s, true, false, false)
    else GoOn(Enqueue(s))
  }

  function Produce(src: OutcomeSource, s: Sim): Turn
    decreases s.credit
  {
    if s.credit < s.config.readBatchSize then Stop(s, false, false, false)
    else
      var t := ProduceTurn(src, s);
      if t.ends then t else Produce(src, t.s)
  }

  function Min(a: nat, b: nat): nat { if a < b then a else b }

  function Earn(s: Sim): Sim {
    s.(credit := Min(s.config.readerWorkers * s.config.readBatchSize,
                     s.credit + s.config.readerWorkers * READER_CREDIT_PER_WORKER_STEP))
  }

  // ----- The public transitions -----

  function Begin(s: Sim): Sim {
    s.(elapsedMs := s.elapsedMs + FIXED_STEP_MS, reader := Link(s.reader.channel, NO_CHANNEL_ACTIVITY),
       sender := Link(s.sender.channel, NO_CHANNEL_ACTIVITY), pool := s.pool.(http := NO_HTTP_ACTIVITY))
  }

  /** Completions, then the retries that are due. */
  function Passed(env: Env, p: Pool): Pool { StartDueRetries(env, CompleteDue(env, p)) }

  /** Both passes and then a scale-down that has become possible. */
  function AdvancePool(env: Env, p: Pool): Pool {
    var q := Passed(env, p);
    if |Active(q.workers)| > 0 then Finalize(q) else q
  }

  function Progressed(a: ChannelActivity): bool { a.inputBatches > 0 || a.handoffBatches > 0 }

  function Observed(l: Link, blocked: bool): Link {
    Link(WithBlockedObserved(l.channel, blocked, Progressed(l.activity)), l.activity)
  }

  function Pushed(window: seq<StepActivity>, a: StepActivity): seq<StepActivity> {
    var longer := window + [a];
    if |longer| > RATE_WINDOW_STEPS then longer[1..] else longer
  }

  function ActivityOf(s: Sim): StepActivity { StepActivity(s.reader.activity, s.sender.activity, s.pool.http) }

  function Finish(s: Sim, readerBlocked: bool, senderBlocked: bool, limited: bool): Sim {
    s.(reader := Observed(s.reader, readerBlocked), sender := Observed(s.sender, senderBlocked),
       limitedMs := if limited then s.limitedMs + FIXED_STEP_MS else s.limitedMs,
       activities := Pushed(s.activities, ActivityOf(s)))
  }

  /** The step up to the refill: only the workers and the bucket have moved. */
  function Opened(src: OutcomeSource, s: Sim): Sim {
    var begun := Begin(s);
    Refill(begun.(pool := AdvancePool(EnvOf(src, begun), begun.pool)))
  }

  /** The states a step goes through, after each of its parts. */
  datatype Trail = Trail(start: Sim, drained: Sim, flushed: Flushed, admitted: Turn, produced: Turn) {
    /** The state at the end of the step. */
    function End(): Sim {
      Finish(produced.s, produced.readerBlocked,
             flushed.blocked || admitted.senderBlocked || produced.senderBlocked,
             admitted.limited || produced.limited)
    }
  }

  function TrailOf(src: OutcomeSource, s: Sim): Trail {
    var start := Opened(src, s);
    var drained := Drain(src, start);
    var flushed := Flush(src, drained);
    var admitted := Admit(src, flushed.s);
    Trail(start, drained, flushed, admitted, Produce(src, Earn(admitted.s)))
  }

  function AdvanceStep(src: OutcomeSource, s: Sim): Sim { TrailOf(src, s).End() }

  function UpdateConfig(s: Sim, patch: Patch): Sim {
    var c := Merge(s.config, patch);
    s.(config := c,
       pool := if patch.senderWorkers.Some? && |s.pool.workers| > 0
               then RequestCount(s.pool, patch.senderWorkers.value) else s.pool,
       tokens := if patch.requestedTps == Some(0.0) || patch.throttlerInstalled.Some? then 0.0 else s.tokens,
       credit := Min(s.credit, c.readerWorkers * c.readBatchSize))
  }

  datatype Side = ReaderSide | SenderSide

  function RequestCapacity(s: Sim, side: Side, capacity: nat): Sim {
    if side.ReaderSide? then s.(reader := s.reader.(channel := WithRequestedCapacity(s.reader.channel, capacity)))
    else s.(sender := s.sender.(channel := WithRequestedCapacity(s.sender.channel, capacity)))
  }

  function ClearTelemetry(s: Sim): Sim { s.(activities := []) }

  function Reset(s: Sim): Sim {
    Sim(s.config, s.reader.(channel := WithRuntimeReset(s.reader.channel)),
        s.sender.(channel := WithRuntimeReset(s.sender.channel)),
        InitialPool(s.config.senderWorkers, s.pool.calls).(http := s.pool.http),
        [], 0, 0.0, None, 0, 0, 0)
  }

  datatype Action =
    | Step
    | Update(patch: Patch)
    | Request(side: Side, capacity: nat)
    | Clear
    | ResetAll

  function Stepping(src: OutcomeSource): Sim -> Sim { (s: Sim) => AdvanceStep(src, s) }

  function Act(step: Sim -> Sim, s: Sim, a: Action): Sim {
    match a
    case Step => step(s)
    case Update(patch) => UpdateConfig(s, patch)
    case Request(side, capacity) => RequestCapacity(s, side, capacity)
    case Clear => ClearTelemetry(s)
    case ResetAll => Reset(s)
  }

  /** Any sequence of public calls. */
  function Run(step: Sim -> Sim, s: Sim, actions: seq<Action>): Sim {
    if |actions| == 0 then s
    else Act(step, Run(step, s, actions[..|actions| - 1]), actions[|actions| - 1])
  }
}
