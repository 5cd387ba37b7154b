/** What a step does with the reader's capacity and with the reader queue, and what it reports. */
module ReaderFlow {
  import opened Prelude
  import opened SimTypes
  import opened Channels
  import opened SenderWorkers
  import opened Simulation
  import opened SimulationProofs
  import opened SimulationTheorems
  import opened TokenBucket

  // ----- Capacity: credit earned and spent -----

  /** Transactions that the readers have produced, and the credit for more. */
  function Capacity(s: Sim): nat { s.reader.channel.sentTransactions + s.credit }

  /** Only production touches what was produced, and the credit. */
  predicate SameProduction(s: Sim, r: Sim) {
    r.reader.channel.sentTransactions == s.reader.channel.sentTransactions && r.credit == s.credit
    && r.config == s.config
  }

  lemma AdmitHeadProducesNothing(src: OutcomeSource, s: Sim)
    ensures SameProduction(s, AdmitHead(src, s).s)
  {
    if |Queue(s)| > 0 { FlushLeavesReader(src, TakeHead(s)); }
  }

  lemma AdmitTurnProducesNothing(src: OutcomeSource, s: Sim)
    ensures SameProduction(s, AdmitTurn(src, s).s)
  {
    FlushLeavesReader(src, s);
    AdmitHeadProducesNothing(src, Flush(src, s).s);
  }

  lemma AdmitProducesNothing(src: OutcomeSource, s: Sim)
    ensures SameProduction(s, Admit(src, s).s)
  {
    var good := r => SameProduction(s, r);
    forall r | good(r) ensures good(AdmitTurn(src, r).s) { AdmitTurnProducesNothing(src, r); }
    AdmitFromKeeps(src, s, |Queue(s)|, good);
  }

  lemma ProduceTurnSpends(src: OutcomeSource, s: Sim)
    requires s.credit >= s.config.readBatchSize
    ensures Capacity(ProduceTurn(src, s).s) == Capacity(s)
  {
    FlushLeavesReader(src, PassThrough(s));
  }

  /** Production turns credit into transactions, one for one. */
  lemma {:induction false} ProduceSpends(src: OutcomeSource, s: Sim)
    ensures Capacity(Produce(src, s).s) == Capacity(s) && Produce(src, s).s.config == s.config
    decreases s.credit
  {
    if s.credit >= s.config.readBatchSize {
      ProduceTurnSpends(src, s);
      if !ProduceTurn(src, s).ends {
        ProduceSpends(src, ProduceTurn(src, s).s);
      }
    }
  }

  /** What holds the readers up: a full queue; or, with a queue that has no room of its own, a batch held back or too
      few tokens for another one. */
  predicate ReaderHeldUp(s: Sim) {
    if s.reader.channel.applied > 0 then |Queue(s)| >= s.reader.channel.applied
    else s.held.Some? || (s.config.throttlerInstalled && s.tokens < s.config.readBatchSize as real)
  }

  /** It ends with the credit spent, or with the reader held up. */
  lemma {:induction false} ProduceEnds(src: OutcomeSource, s: Sim)
    ensures var t := Produce(src, s);
      if t.readerBlocked then ReaderHeldUp(t.s) else t.s.credit < s.config.readBatchSize
    decreases s.credit
  {
    if s.credit >= s.config.readBatchSize {
      FlushLeavesReader(src, PassThrough(s));
      if !ProduceTurn(src, s).ends {
        ProduceEnds(src, ProduceTurn(src, s).s);
      }
    }
  }

  /** The credit after w workers have earned 500 each, of at most one batch each. */
  function Earned(credit: nat, w: nat, batch: nat): nat {
    if credit + 500 * w > w * batch then w * batch else credit + 500 * w
  }

  lemma EarnsExactly(s: Sim)
    ensures Earn(s).credit == Earned(s.credit, s.config.readerWorkers, s.config.readBatchSize)
  {
  }

  lemma OpenedProduction(src: OutcomeSource, s: Sim)
    ensures SameProduction(s, Opened(src, s))
  {
  }

  lemma TrailProduces(src: OutcomeSource, t: Trail)
    requires t.drained == Drain(src, t.start) && t.flushed == Flush(src, t.drained)
    requires t.admitted == Admit(src, t.flushed.s) && t.produced == Produce(src, Earn(t.admitted.s))
    ensures Capacity(t.produced.s) == t.start.reader.channel.sentTransactions
              + Earned(t.start.credit, t.start.config.readerWorkers, t.start.config.readBatchSize)
    ensures t.produced.s.config == t.start.config
    ensures if t.produced.readerBlocked then ReaderHeldUp(t.produced.s)
            else t.produced.s.credit < t.start.config.readBatchSize
  {
    FlushLeavesReader(src, t.drained);
    AdmitProducesNothing(src, t.flushed.s);
    EarnsExactly(t.admitted.s);
    ProduceSpends(src, Earn(t.admitted.s));
    ProduceEnds(src, Earn(t.admitted.s));
  }

  /** A reader worker produces 50,000 transactions a second, 500 a step. Nothing of that is lost below the cap of a
      batch for each worker; and all of it is spent, down to less than a batch, unless the step reports the reader
      as blocked, which it does only when something holds it up. */
  predicate ProducesFully(s: Sim, r: Sim) {
    && Capacity(r) == s.reader.channel.sentTransactions
                      + Earned(s.credit, s.config.readerWorkers, s.config.readBatchSize)
    && (if r.reader.channel.blockedSenders == 0 then r.credit < s.config.readBatchSize else ReaderHeldUp(r))
    && r.config == s.config
  }

  lemma EndProduces(t: Trail, s: Sim)
    requires Capacity(t.produced.s) == s.reader.channel.sentTransactions
               + Earned(s.credit, s.config.readerWorkers, s.config.readBatchSize)
    requires t.produced.s.config == s.config
    requires if t.produced.readerBlocked then ReaderHeldUp(t.produced.s)
             else t.produced.s.credit < s.config.readBatchSize
    ensures ProducesFully(s, t.End())
  {
  }

  lemma StepProduces(src: OutcomeSource, s: Sim)
    ensures ProducesFully(s, AdvanceStep(src, s))
  {
    OpenedProduction(src, s);
    TrailProduces(src, TrailOf(src, s));
    EndProduces(TrailOf(src, s), s);
  }

  ghost predicate StepsProduce(step: Sim -> Sim) {
    forall s {:trigger step(s)} :: ProducesFully(s, step(s))
  }

  lemma SteppingProduces(src: OutcomeSource)
    ensures StepsProduce(Stepping(src))
  {
    forall s ensures ProducesFully(s, Stepping(src)(s)) { StepProduces(src, s); }
  }

  predicate NeverResets(actions: seq<Action>) {
    forall k :: 0 <= k < |actions| ==> !actions[k].ResetAll?
  }

  /** The reader workers in force at the run's steps, added up. */
  function ReadersInForce(step: Sim -> Sim, s: Sim, actions: seq<Action>): nat {
    if |actions| == 0 then 0
    else
      var before := actions[..|actions| - 1];
      ReadersInForce(step, s, before)
      + if actions[|actions| - 1].Step? then Run(step, s, before).config.readerWorkers else 0
  }

  lemma ActProduces(step: Sim -> Sim, s: Sim, a: Action)
    requires StepsProduce(step) && !a.ResetAll?
    ensures Capacity(Act(step, s, a)) <= Capacity(s) + if a.Step? then 500 * s.config.readerWorkers else 0
  {
    if a.Step? {
      assert ProducesFully(s, step(s));
    }
  }

  lemma {:induction false} RunProduces(step: Sim -> Sim, s: Sim, actions: seq<Action>)
    requires StepsProduce(step) && NeverResets(actions)
    ensures Capacity(Run(step, s, actions)) <= Capacity(s) + 500 * ReadersInForce(step, s, actions)
  {
    if |actions| > 0 {
      var before, last := actions[..|actions| - 1], actions[|actions| - 1];
      RunProduces(step, s, before);
      ActProduces(step, Run(step, s, before), last);
    }
  }

  /** Over any run without a reset, whatever else is updated on the way, the readers produce at most the credit
      saved before and, for every step, 500 transactions for each reader worker then in force. */
  lemma ReaderRateBound(src: OutcomeSource, s: Sim, actions: seq<Action>)
    requires NeverResets(actions)
    ensures var r := Run(Stepping(src), s, actions);
      r.reader.channel.sentTransactions + r.credit
        <= s.reader.channel.sentTransactions + s.credit + 500 * ReadersInForce(Stepping(src), s, actions)
  {
    SteppingProduces(src);
    RunProduces(Stepping(src), s, actions);
  }

  // ----- Full speed -----

  predicate BlockedAt(step: Sim -> Sim, s: Sim, actions: seq<Action>, k: nat)
    requires k <= |actions|
  {
    Run(step, s, actions[..k]).reader.channel.blockedSenders > 0
  }

  /** No step of the run reports the reader as blocked. */
  predicate NeverBlocked(step: Sim -> Sim, s: Sim, actions: seq<Action>) {
    forall k {:trigger BlockedAt(step, s, actions, k)} ::
      0 < k <= |actions| && actions[k - 1].Step? ==> !BlockedAt(step, s, actions, k)
  }

  lemma NeverBlockedBefore(step: Sim -> Sim, s: Sim, actions: seq<Action>)
    requires |actions| > 0 && NeverBlocked(step, s, actions)
    ensures NeverBlocked(step, s, actions[..|actions| - 1])
    ensures actions[|actions| - 1].Step? ==> Run(step, s, actions).reader.channel.blockedSenders == 0
  {
    var before := actions[..|actions| - 1];
    forall k | 0 < k <= |before| && before[k - 1].Step? ensures !BlockedAt(step, s, before, k) {
      assert before[..k] == actions[..k];
      assert !BlockedAt(step, s, actions, k);
    }
    assert actions[..|actions|] == actions;
    if actions[|actions| - 1].Step? { assert !BlockedAt(step, s, actions, |actions|); }
  }

  /** The cap does not bite: with less than a batch of credit left, a whole step's worth can still be earned. */
  predicate Uncapped(c: Config) { c.readBatchSize + 500 * c.readerWorkers <= c.readerWorkers * c.readBatchSize + 1 }

  /** No reset, and no update of the number of reader workers or of the batch size. */
  predicate KeepsReaders(actions: seq<Action>) {
    forall k :: 0 <= k < |actions| ==> LeavesReaders(actions[k])
  }

  predicate LeavesReaders(a: Action) {
    !a.ResetAll? && (a.Update? ==> a.patch.readerWorkers.None? && a.patch.readBatchSize.None?)
  }

  /** Produced at full speed from s to r in n steps. */
  predicate FullSpeed(s: Sim, r: Sim, n: nat) {
    && r.config.readerWorkers == s.config.readerWorkers && r.config.readBatchSize == s.config.readBatchSize
    && r.credit < s.config.readBatchSize
    && Capacity(r) == Capacity(s) + n * (500 * s.config.readerWorkers)
  }

  lemma ActAtFullSpeed(step: Sim -> Sim, s: Sim, r: Sim, a: Action, n: nat)
    requires StepsProduce(step) && LeavesReaders(a) && Uncapped(s.config) && FullSpeed(s, r, n)
    requires a.Step? ==> Act(step, r, a).reader.channel.blockedSenders == 0
    ensures FullSpeed(s, Act(step, r, a), n + if a.Step? then 1 else 0)
  {
    if a.Step? {
      assert ProducesFully(r, step(r));
      assert (n + 1) * (500 * s.config.readerWorkers)
          == n * (500 * s.config.readerWorkers) + 500 * s.config.readerWorkers;
    }
  }

  lemma {:induction false} RunsAtFullSpeed(step: Sim -> Sim, s: Sim, actions: seq<Action>)
    requires StepsProduce(step) && KeepsReaders(actions) && NeverBlocked(step, s, actions)
    requires Uncapped(s.config) && s.credit < s.config.readBatchSize
    ensures FullSpeed(s, Run(step, s, actions), CountSteps(actions))
  {
    if |actions| > 0 {
      var before, last := actions[..|actions| - 1], actions[|actions| - 1];
      NeverBlockedBefore(step, s, actions);
      RunsAtFullSpeed(step, s, before);
      ActAtFullSpeed(step, s, Run(step, s, before), last, CountSteps(before));
    }
  }

  /** As long as no step reports the reader as blocked, w workers produce 500 * w transactions in every step, but
      for what is left over of a batch, unless the cap is too small for that. */
  lemma ReaderRateIsExact(src: OutcomeSource, s: Sim, actions: seq<Action>)
    requires KeepsReaders(actions) && NeverBlocked(Stepping(src), s, actions)
    requires Uncapped(s.config) && s.credit < s.config.readBatchSize
    ensures var r := Run(Stepping(src), s, actions);
      && r.credit < s.config.readBatchSize
      && r.reader.channel.sentTransactions + r.credit
         == s.reader.channel.sentTransactions + s.credit + CountSteps(actions) * (500 * s.config.readerWorkers)
  {
    SteppingProduces(src);
    RunsAtFullSpeed(Stepping(src), s, actions);
  }

  // ----- The reader queue is served -----

  /** The tokens do not cover the batch at the head of the queue. */
  predicate ShortOfHead(s: Sim) {
    s.config.throttlerInstalled && |Queue(s)| > 0 && s.tokens < Queue(s)[0].transactions as real
  }

  /** Why the admission has ended: for want of tokens, and then it says so, or because nothing is queued or a batch
      is held back. */
  predicate AdmissionOver(t: Turn) {
    if t.limited then ShortOfHead(t.s) && t.s.held.None? else |Queue(t.s)| == 0 || t.s.held.Some?
  }

  lemma AdmitTurnAdmits(src: OutcomeSource, s: Sim)
    ensures var t := AdmitTurn(src, s); if t.ends then AdmissionOver(t) else |Queue(t.s)| < |Queue(s)|
    ensures var t := AdmitTurn(src, s); t.senderBlocked <==> t.s.held.Some?
  {
    var r := Flush(src, s).s;
    FlushLeavesReader(src, s);
    if |Queue(r)| > 0 { FlushLeavesReader(src, TakeHead(r)); }
  }

  lemma {:induction false} AdmitFromEmpties(src: OutcomeSource, s: Sim, n: nat)
    requires n >= |Queue(s)|
    ensures AdmissionOver(AdmitFrom(src, s, n))
    decreases n
  {
    if n > 0 {
      AdmitTurnAdmits(src, s);
      if !AdmitTurn(src, s).ends {
        AdmitFromEmpties(src, AdmitTurn(src, s).s, n - 1);
      }
    }
  }

  /** Batches wait in the reader queue in the order of their numbers, right behind those received from it. */
  lemma QueueNumbers(s: Sim)
    requires SimInv(s)
    ensures forall i :: 0 <= i < |Queue(s)| ==> Queue(s)[i].sequence == s.reader.channel.receivedBatches + i
  {
    var n := s.reader.channel.receivedBatches;
    forall i | 0 <= i < |Queue(s)| ensures Queue(s)[i].sequence == n + i {
      assert Pipeline(s)[n + i] == Queue(s)[i];
    }
  }

  /** Received from the reader queue, in batches; what has been received does not come back. */
  function Passed(s: Sim): nat { s.reader.channel.receivedBatches }

  lemma AdmitTurnPasses(src: OutcomeSource, s: Sim)
    ensures Passed(AdmitTurn(src, s).s) >= Passed(s)
  {
    var r := Flush(src, s).s;
    FlushLeavesReader(src, s);
    if |Queue(r)| > 0 { FlushLeavesReader(src, TakeHead(r)); }
  }

  lemma ProduceTurnPasses(src: OutcomeSource, s: Sim)
    requires s.credit >= s.config.readBatchSize
    ensures Passed(ProduceTurn(src, s).s) >= Passed(s)
  {
    FlushLeavesReader(src, PassThrough(s));
  }

  lemma {:induction false} ProducePasses(src: OutcomeSource, s: Sim)
    ensures Passed(Produce(src, s).s) >= Passed(s)
    decreases s.credit
  {
    if s.credit >= s.config.readBatchSize {
      ProduceTurnPasses(src, s);
      if !ProduceTurn(src, s).ends {
        ProducePasses(src, ProduceTurn(src, s).s);
      }
    }
  }

  lemma {:induction false} ProduceHolds(src: OutcomeSource, s: Sim)
    requires s.held.Some?
    ensures Produce(src, s).s.held == s.held && !Produce(src, s).limited
    decreases s.credit
  {
    if s.credit >= s.config.readBatchSize && !ProduceTurn(src, s).ends {
      ProduceHolds(src, ProduceTurn(src, s).s);
    }
  }

  /** Nothing that was queued at the start is left, or what holds it up is there at the end too. */
  predicate Emptied(s: Sim, r: Sim, limited: bool) {
    Passed(r) >= s.reader.channel.sentBatches || r.held.Some? || (limited && ShortOfHead(r))
  }

  lemma ProducedEmpties(src: OutcomeSource, s: Sim, t: Turn)
    requires SimInv(t.s) && AdmissionOver(t) && t.s.reader.channel.sentBatches == s.reader.channel.sentBatches
    ensures Emptied(s, Produce(src, Earn(t.s)).s, t.limited)
  {
    if t.limited {
      ProduceQueues(src, Earn(t.s));
      ProduceSpends(src, Earn(t.s));
    } else if t.s.held.Some? {
      ProduceHolds(src, Earn(t.s));
    } else {
      ProducePasses(src, Earn(t.s));
    }
  }

  lemma AdmitSends(src: OutcomeSource, s: Sim)
    ensures Admit(src, s).s.reader.channel.sentBatches == s.reader.channel.sentBatches
  {
    var good := (r: Sim) => r.reader.channel.sentBatches == s.reader.channel.sentBatches;
    forall r | good(r) ensures good(AdmitTurn(src, r).s) {
      FlushLeavesReader(src, r);
      var q := Flush(src, r).s;
      if |Queue(q)| > 0 { FlushLeavesReader(src, TakeHead(q)); }
    }
    AdmitFromKeeps(src, s, |Queue(s)|, good);
  }

  lemma TrailEmpties(src: OutcomeSource, t: Trail)
    requires Kept(t) && t.drained == Drain(src, t.start) && t.flushed == Flush(src, t.drained)
    requires t.admitted == Admit(src, t.flushed.s) && t.produced == Produce(src, Earn(t.admitted.s))
    ensures Emptied(t.start, t.produced.s, t.admitted.limited)
  {
    FlushLeavesReader(src, t.drained);
    AdmitFromEmpties(src, t.flushed.s, |Queue(t.flushed.s)|);
    AdmitSends(src, t.flushed.s);
    ProducedEmpties(src, t.start, t.admitted);
  }

  lemma EndEmpties(s: Sim, t: Trail)
    requires Emptied(s, t.produced.s, t.admitted.limited)
    ensures Emptied(s, t.End(), t.End().limitedMs == t.produced.s.limitedMs + 10)
  {
    FinishLeaves(t);
  }

  lemma StepEmpties(src: OutcomeSource, s: Sim)
    requires SimInv(s)
    ensures var r := AdvanceStep(src, s); SimInv(r) && Emptied(s, r, r.limitedMs == s.limitedMs + 10)
  {
    var t := TrailOf(src, s);
    TrailKeeps(src, s);
    EndKeeps(t);
    OpenedKeeps(src, s);
    OpenedTime(src, s);
    TrailEmpties(src, t);
    EndEmpties(t.start, t);
  }

  lemma OpenedTime(src: OutcomeSource, s: Sim)
    ensures Opened(src, s).limitedMs == s.limitedMs
  {
  }

  /** What is queued now and was queued before has not been received since. */
  lemma StillQueued(s: Sim, r: Sim, b: Batch)
    requires SimInv(s) && SimInv(r) && b in Queue(s) && b in Queue(r)
    ensures Passed(r) < s.reader.channel.sentBatches
  {
    QueueNumbers(s);
    QueueNumbers(r);
    var i :| 0 <= i < |Queue(s)| && Queue(s)[i] == b;
    var j :| 0 <= j < |Queue(r)| && Queue(r)[j] == b;
    assert s.reader.channel.sentBatches == Passed(s) + |Queue(s)|;
  }

  /** Nothing admissible waits: a batch that was queued when a step began and is queued when it ends is behind a
      batch held back on the sender side, or behind a head that the tokens do not cover, and then the step is
      counted as limited. */
  lemma QueueIsServed(src: OutcomeSource, s: Sim, b: Batch)
    requires SimInv(s) && b in s.reader.channel.items && b in AdvanceStep(src, s).reader.channel.items
    ensures var r := AdvanceStep(src, s);
      || r.held.Some?
      || (r.config.throttlerInstalled && r.tokens < r.reader.channel.items[0].transactions as real
          && r.limitedMs == s.limitedMs + 10)
  {
    StepEmpties(src, s);
    StillQueued(s, AdvanceStep(src, s), b);
  }

  // ----- What a step reports -----

  lemma {:induction false} AdmitFromBlocks(src: OutcomeSource, s: Sim, n: nat)
    requires s.held.None? || Flush(src, s).blocked
    ensures var t := AdmitFrom(src, s, n); t.s.held.Some? <==> t.senderBlocked || s.held.Some?
    decreases n
  {
    if n > 0 {
      AdmitTurnAdmits(src, s);
      if !AdmitTurn(src, s).ends {
        AdmitFromBlocks(src, AdmitTurn(src, s).s, n - 1);
      }
    }
  }

  /** The sender side is blocked exactly when a batch stays held; production is limited only for want of the tokens
      for a batch. */
  lemma {:induction false} ProduceBlocks(src: OutcomeSource, s: Sim)
    requires s.held.None?
    ensures var t := Produce(src, s);
      && (t.senderBlocked <==> t.s.held.Some?)
      && (t.limited ==> t.s.config.throttlerInstalled && t.s.tokens < t.s.config.readBatchSize as real)
    decreases s.credit
  {
    if s.credit >= s.config.readBatchSize && !ProduceTurn(src, s).ends {
      ProduceBlocks(src, ProduceTurn(src, s).s);
    }
  }

  /** What holds a step up, as it is found at the end. */
  predicate ReportedBy(t: Trail, r: Sim) {
    && (r.held.Some? <==> t.flushed.blocked || t.admitted.senderBlocked || t.produced.senderBlocked)
    && (t.admitted.limited || t.produced.limited ==>
          r.config.throttlerInstalled && r.tokens < HeadOrBatch(r) as real)
  }

  lemma ProducedReports(src: OutcomeSource, t: Turn, p: Turn)
    requires AdmissionOver(t) && ChannelOk(t.s.reader.channel) && p == Produce(src, Earn(t.s))
    ensures p.s.held.Some? <==> t.s.held.Some? || p.senderBlocked
    ensures t.limited || p.limited ==> p.s.config.throttlerInstalled && p.s.tokens < HeadOrBatch(p.s) as real
  {
    ProduceSpends(src, Earn(t.s));
    if t.s.held.Some? {
      ProduceHolds(src, Earn(t.s));
    } else {
      ProduceBlocks(src, Earn(t.s));
      if t.limited { ProduceQueues(src, Earn(t.s)); }
    }
  }

  lemma TrailReports(src: OutcomeSource, t: Trail)
    requires Kept(t) && t.flushed == Flush(src, t.drained)
    requires t.admitted == Admit(src, t.flushed.s) && t.produced == Produce(src, Earn(t.admitted.s))
    ensures ReportedBy(t, t.produced.s)
  {
    AdmitFromEmpties(src, t.flushed.s, |Queue(t.flushed.s)|);
    AdmitFromBlocks(src, t.flushed.s, |Queue(t.flushed.s)|);
    ProducedReports(src, t.admitted, t.produced);
  }

  lemma EndReports(t: Trail)
    requires ReportedBy(t, t.produced.s)
    ensures var r := t.End();
      && (r.sender.channel.blockedSenders > 0 <==> r.held.Some?)
      && (r.limitedMs > t.produced.s.limitedMs ==>
            r.config.throttlerInstalled && r.tokens < HeadOrBatch(r) as real)
  {
    FinishLeaves(t);
  }

  /** A step reports the sender queue as blocked exactly when it ends with a batch held back, and counts as limited
      only if the tokens left do not cover the next batch. */
  lemma StepReports(src: OutcomeSource, s: Sim)
    requires SimInv(s)
    ensures var r := AdvanceStep(src, s);
      && (r.sender.channel.blockedSenders > 0 <==> r.held.Some?)
      && (r.limitedMs > s.limitedMs ==> r.config.throttlerInstalled && r.tokens < HeadOrBatch(r) as real)
  {
    TrailKeeps(src, s);
    OpenedTime(src, s);
    TrailReports(src, TrailOf(src, s));
    EndReports(TrailOf(src, s));
  }
}
