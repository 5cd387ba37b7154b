/** Settings and times: what was given last is what is in force, whatever else was called in between; times add up; and
    a reset leaves nothing of a run. */
module Bookkeeping {
  import opened Prelude
  import opened SimTypes
  import opened Channels
  import opened SenderWorkers
  import opened Simulation
  import opened SimulationProofs
  import opened SimulationTheorems
  import opened TokenBucket

  // ----- Configuration -----

  /** The last value that an update gave, or the initial one. */
  function LastGiven<T>(actions: seq<Action>, pick: Patch -> Option<T>, initial: T): T {
    if |actions| == 0 then initial
    else
      var last := actions[|actions| - 1];
      if last.Update? && pick(last.patch).Some? then pick(last.patch).value
      else LastGiven(actions[..|actions| - 1], pick, initial)
  }

  /** Every setting has the value given for it last. */
  predicate InForce(c: Config, actions: seq<Action>, initial: Config) {
    && c.readerWorkers == LastGiven(actions, (p: Patch) => p.readerWorkers, initial.readerWorkers)
    && c.senderWorkers == LastGiven(actions, (p: Patch) => p.senderWorkers, initial.senderWorkers)
    && c.requestedTps == LastGiven(actions, (p: Patch) => p.requestedTps, initial.requestedTps)
    && c.throttlerInstalled == LastGiven(actions, (p: Patch) => p.throttlerInstalled, initial.throttlerInstalled)
    && c.readBatchSize == LastGiven(actions, (p: Patch) => p.readBatchSize, initial.readBatchSize)
    && c.httpTimeoutMs == LastGiven(actions, (p: Patch) => p.httpTimeoutMs, initial.httpTimeoutMs)
    && c.targetDelayMs == LastGiven(actions, (p: Patch) => p.targetDelayMs, initial.targetDelayMs)
    && c.targetErrorRatePercent
       == LastGiven(actions, (p: Patch) => p.targetErrorRatePercent, initial.targetErrorRatePercent)
  }

  lemma ActKeepsConfig(step: Sim -> Sim, s: Sim, a: Action)
    requires SimInv(s) && StepsPay(step)
    ensures Act(step, s, a).config == if a.Update? then Merge(s.config, a.patch) else s.config
  {
    if a.Step? { assert Pays(s, step(s)); }
  }

  lemma MergeInForce(c: Config, before: seq<Action>, a: Action, initial: Config)
    requires InForce(c, before, initial)
    ensures InForce(if a.Update? then Merge(c, a.patch) else c, before + [a], initial)
  {
    assert (before + [a])[..|before|] == before;
  }

  lemma {:induction false} RunKeepsConfig(step: Sim -> Sim, s: Sim, actions: seq<Action>)
    requires SimInv(s) && StepsWell(step) && StepsPay(step)
    ensures InForce(Run(step, s, actions).config, actions, s.config)
  {
    if |actions| > 0 {
      var before, last := actions[..|actions| - 1], actions[|actions| - 1];
      RunKeepsConfig(step, s, before);
      RunKeeps(step, s, before);
      ActKeepsConfig(step, Run(step, s, before), last);
      MergeInForce(Run(step, s, before).config, before, last, s.config);
      assert before + [last] == actions;
    }
  }

  /** In every reached state each of the eight settings has the value that an update gave for it last, or else the
      one that the simulation was made with; resets and steps change none. */
  lemma ConfigIsLastGiven(src: OutcomeSource, config: Config, readerCapacity: nat, senderCapacity: nat,
                          actions: seq<Action>)
    ensures InForce(Reached(src, config, readerCapacity, senderCapacity, actions).config, actions, config)
  {
    InitialKeeps(config, readerCapacity, senderCapacity);
    SteppingPays(src);
    RunKeepsConfig(Stepping(src), Initial(config, readerCapacity, senderCapacity), actions);
  }

  // ----- Capacities -----

  /** The capacity that a queue has or is to have. */
  function Aim(c: Channel): nat { if c.pending.Some? then c.pending.value else c.applied }

  predicate SameAims(s: Sim, r: Sim) {
    Aim(r.reader.channel) == Aim(s.reader.channel) && Aim(r.sender.channel) == Aim(s.sender.channel)
  }

  /** What traffic leaves alone: the capacities that the queues are to have, and how long they have been blocked. */
  predicate SameSetup(s: Sim, r: Sim) {
    && SameAims(s, r) && r.reader.channel.blockedMsTotal == s.reader.channel.blockedMsTotal
    && r.sender.channel.blockedMsTotal == s.sender.channel.blockedMsTotal && r.elapsedMs == s.elapsedMs
    && r.reader.channel.blockedForMs == s.reader.channel.blockedForMs
    && r.sender.channel.blockedForMs == s.sender.channel.blockedForMs
  }

  lemma DrainKeepsSetup(src: OutcomeSource, s: Sim)
    ensures SameSetup(s, Drain(src, s))
  {
    DrainsKeeping(src, s, r => SameSetup(s, r));
  }

  lemma FlushKeepsSetup(src: OutcomeSource, s: Sim)
    ensures SameSetup(s, Flush(src, s).s)
  {
    if s.held.Some? && CanSend(s.sender.channel) { DrainKeepsSetup(src, SendHeld(s)); }
  }

  lemma AdmitKeepsSetup(src: OutcomeSource, s: Sim)
    ensures SameSetup(s, Admit(src, s).s)
  {
    var good := r => SameSetup(s, r);
    forall r | good(r) ensures good(AdmitTurn(src, r).s) { AdmitTurnKeepsSetup(src, r); }
    AdmitFromKeeps(src, s, |Queue(s)|, good);
  }

  lemma AdmitTurnKeepsSetup(src: OutcomeSource, s: Sim)
    ensures SameSetup(s, AdmitTurn(src, s).s)
  {
    var r := Flush(src, s).s;
    FlushKeepsSetup(src, s);
    if |Queue(r)| > 0 { FlushKeepsSetup(src, TakeHead(r)); }
  }

  lemma {:induction false} ProduceKeepsSetup(src: OutcomeSource, s: Sim)
    ensures SameSetup(s, Produce(src, s).s)
    decreases s.credit
  {
    if s.credit >= s.config.readBatchSize {
      FlushKeepsSetup(src, PassThrough(s));
      if !ProduceTurn(src, s).ends { ProduceKeepsSetup(src, ProduceTurn(src, s).s); }
    }
  }

  lemma TrailKeepsSetup(src: OutcomeSource, t: Trail)
    requires t.drained == Drain(src, t.start) && t.flushed == Flush(src, t.drained)
    requires t.admitted == Admit(src, t.flushed.s) && t.produced == Produce(src, Earn(t.admitted.s))
    ensures SameSetup(t.start, t.produced.s)
  {
    DrainKeepsSetup(src, t.start);
    FlushKeepsSetup(src, t.drained);
    AdmitKeepsSetup(src, t.flushed.s);
    ProduceKeepsSetup(src, Earn(t.admitted.s));
  }

  function BlockedMs(c: Channel): nat { if c.blockedSenders > 0 then 10 else 0 }

  /** A step takes 10 ms, and counts them for each queue that it reports as blocked. */
  predicate TimesPass(s: Sim, r: Sim) {
    && r.elapsedMs == s.elapsedMs + 10
    && r.reader.channel.blockedMsTotal == s.reader.channel.blockedMsTotal + BlockedMs(r.reader.channel)
    && r.sender.channel.blockedMsTotal == s.sender.channel.blockedMsTotal + BlockedMs(r.sender.channel)
  }

  lemma OpenedSetup(src: OutcomeSource, s: Sim)
    ensures SameSetup(s.(elapsedMs := s.elapsedMs + 10), Opened(src, s))
  {
  }

  lemma EndSetup(s: Sim, t: Trail)
    requires SameSetup(s.(elapsedMs := s.elapsedMs + 10), t.produced.s)
    ensures SameAims(s, t.End()) && TimesPass(s, t.End())
  {
  }

  lemma StepKeepsAims(src: OutcomeSource, s: Sim)
    ensures SameAims(s, AdvanceStep(src, s)) && TimesPass(s, AdvanceStep(src, s))
  {
    OpenedSetup(src, s);
    TrailKeepsSetup(src, TrailOf(src, s));
    EndSetup(s, TrailOf(src, s));
  }

  ghost predicate StepsKeepAims(step: Sim -> Sim) {
    forall s {:trigger step(s)} :: SameAims(s, step(s)) && TimesPass(s, step(s))
  }

  lemma SteppingKeepsAims(src: OutcomeSource)
    ensures StepsKeepAims(Stepping(src))
  {
    forall s ensures SameAims(s, Stepping(src)(s)) && TimesPass(s, Stepping(src)(s)) { StepKeepsAims(src, s); }
  }

  /** The capacity asked for last, or the initial one. */
  function LastAsked(actions: seq<Action>, side: Side, initial: nat): nat {
    if |actions| == 0 then initial
    else
      var last := actions[|actions| - 1];
      if last.Request? && last.side == side then last.capacity
      else LastAsked(actions[..|actions| - 1], side, initial)
  }

  predicate Aims(s: Sim, reader: nat, sender: nat) {
    Aim(s.reader.channel) == reader && Aim(s.sender.channel) == sender
  }

  lemma ActAims(step: Sim -> Sim, s: Sim, a: Action)
    requires StepsKeepAims(step)
    ensures Aims(Act(step, s, a),
                 if a.Request? && a.side.ReaderSide? then a.capacity else Aim(s.reader.channel),
                 if a.Request? && a.side.SenderSide? then a.capacity else Aim(s.sender.channel))
  {
    if a.Step? { assert SameAims(s, step(s)); }
  }

  lemma {:induction false} RunAims(step: Sim -> Sim, s: Sim, actions: seq<Action>)
    requires StepsKeepAims(step)
    ensures Aims(Run(step, s, actions), LastAsked(actions, ReaderSide, Aim(s.reader.channel)),
                 LastAsked(actions, SenderSide, Aim(s.sender.channel)))
  {
    if |actions| > 0 {
      RunAims(step, s, actions[..|actions| - 1]);
      ActAims(step, Run(step, s, actions[..|actions| - 1]), actions[|actions| - 1]);
    }
  }

  /** A queue has the capacity asked for last, unless it still holds more than that; and then it is to have it. */
  predicate HasCapacity(c: Channel, asked: nat) {
    if |c.items| <= asked then c.applied == asked && c.pending.None?
    else c.applied >= |c.items| && c.pending == Some(asked)
  }

  /** In every reached state both queues have the capacity that was asked for them last, or else the one that the
      simulation was made with, as soon as what they hold fits; resets and steps ask for none. */
  lemma CapacityIsLastAsked(src: OutcomeSource, config: Config, readerCapacity: nat, senderCapacity: nat,
                            actions: seq<Action>)
    ensures var s := Reached(src, config, readerCapacity, senderCapacity, actions);
      && HasCapacity(s.reader.channel, LastAsked(actions, ReaderSide, readerCapacity))
      && HasCapacity(s.sender.channel, LastAsked(actions, SenderSide, senderCapacity))
  {
    SteppingKeepsAims(src);
    RunAims(Stepping(src), Initial(config, readerCapacity, senderCapacity), actions);
    ReachedKeeps(src, config, readerCapacity, senderCapacity, actions);
  }

  // ----- Times -----

  function ChannelOf(s: Sim, side: Side): Channel {
    if side.ReaderSide? then s.reader.channel else s.sender.channel
  }

  /** How many steps since the last reset have reported this side's queue as blocked. */
  function BlockedSteps(step: Sim -> Sim, s: Sim, actions: seq<Action>, side: Side): nat {
    if |actions| == 0 || actions[|actions| - 1].ResetAll? then 0
    else
      BlockedSteps(step, s, actions[..|actions| - 1], side)
      + if actions[|actions| - 1].Step? && ChannelOf(Run(step, s, actions), side).blockedSenders > 0 then 1 else 0
  }

  function StepsSinceReset(actions: seq<Action>): nat {
    if |actions| == 0 || actions[|actions| - 1].ResetAll? then 0
    else StepsSinceReset(actions[..|actions| - 1]) + if actions[|actions| - 1].Step? then 1 else 0
  }

  predicate Times(s: Sim, elapsed: nat, reader: nat, sender: nat) {
    s.elapsedMs == elapsed && s.reader.channel.blockedMsTotal == reader && s.sender.channel.blockedMsTotal == sender
  }

  lemma ActTimes(step: Sim -> Sim, s: Sim, a: Action, n: nat, reader: nat, sender: nat)
    requires StepsKeepAims(step) && Times(s, 10 * n, 10 * reader, 10 * sender)
    ensures var r := Act(step, s, a);
      if a.ResetAll? then Times(r, 0, 0, 0)
      else if a.Step? then
        Times(r, 10 * (n + 1), 10 * (reader + if r.reader.channel.blockedSenders > 0 then 1 else 0),
              10 * (sender + if r.sender.channel.blockedSenders > 0 then 1 else 0))
      else Times(r, 10 * n, 10 * reader, 10 * sender)
  {
    if a.Step? { assert TimesPass(s, step(s)); }
  }

  lemma {:induction false} RunTimes(step: Sim -> Sim, s: Sim, actions: seq<Action>)
    requires StepsKeepAims(step) && Times(s, 0, 0, 0)
    ensures Times(Run(step, s, actions), 10 * StepsSinceReset(actions),
                  10 * BlockedSteps(step, s, actions, ReaderSide), 10 * BlockedSteps(step, s, actions, SenderSide))
  {
    if |actions| > 0 {
      var before, last := actions[..|actions| - 1], actions[|actions| - 1];
      RunTimes(step, s, before);
      ActTimes(step, Run(step, s, before), last, StepsSinceReset(before),
               BlockedSteps(step, s, before, ReaderSide), BlockedSteps(step, s, before, SenderSide));
    }
  }

  /** In every reached state the elapsed time is 10 ms for each step since the last reset, and a queue's blocked time
      10 ms for each of them that reported it as blocked. */
  lemma TimesAddUp(src: OutcomeSource, config: Config, readerCapacity: nat, senderCapacity: nat, actions: seq<Action>)
    ensures var s := Reached(src, config, readerCapacity, senderCapacity, actions);
      var s0 := Initial(config, readerCapacity, senderCapacity);
      && s.elapsedMs == 10 * StepsSinceReset(actions)
      && s.reader.channel.blockedMsTotal == 10 * BlockedSteps(Stepping(src), s0, actions, ReaderSide)
      && s.sender.channel.blockedMsTotal == 10 * BlockedSteps(Stepping(src), s0, actions, SenderSide)
  {
    SteppingKeepsAims(src);
    RunTimes(Stepping(src), Initial(config, readerCapacity, senderCapacity), actions);
  }

  // ----- Blocked without progress -----

  /** Something has been sent from c to d. */
  predicate Grew(c: Channel, d: Channel) { d.sentBatches > c.sentBatches || d.handoffs > c.handoffs }

  /** How long a queue has been blocked for, a step after c: from the last step in which something was sent. */
  predicate BlockedOn(c: Channel, d: Channel) {
    d.blockedForMs == if d.blockedSenders == 0 then 0 else if Grew(c, d) then 10 else c.blockedForMs + 10
  }

  predicate BothBlockedOn(s: Sim, r: Sim) {
    BlockedOn(s.reader.channel, r.reader.channel) && BlockedOn(s.sender.channel, r.sender.channel)
  }

  lemma ObservedOn(c: Channel, l: Link, blocked: bool)
    requires l.Ahead() == Link(c, NO_CHANNEL_ACTIVITY).Ahead() && l.channel.blockedForMs == c.blockedForMs
    ensures BlockedOn(c, Observed(l, blocked).channel)
  {
  }

  lemma EndBlockedOn(s: Sim, t: Trail)
    requires Offset(t.produced.s) == Offset(Begin(s)) && SameSetup(s.(elapsedMs := s.elapsedMs + 10), t.produced.s)
    ensures BothBlockedOn(s, t.End())
  {
    var senderBlocked := t.flushed.blocked || t.admitted.senderBlocked || t.produced.senderBlocked;
    ObservedOn(s.reader.channel, t.produced.s.reader, t.produced.readerBlocked);
    ObservedOn(s.sender.channel, t.produced.s.sender, senderBlocked);
  }

  lemma StepBlockedOn(src: OutcomeSource, s: Sim)
    requires SimInv(s)
    ensures BothBlockedOn(s, AdvanceStep(src, s))
  {
    TrailKeeps(src, s);
    OpenedKeeps(src, s);
    OpenedSetup(src, s);
    TrailKeepsSetup(src, TrailOf(src, s));
    EndBlockedOn(s, TrailOf(src, s));
  }

  ghost predicate StepsBlockOn(step: Sim -> Sim) {
    forall s {:trigger step(s)} :: SimInv(s) ==> BothBlockedOn(s, step(s))
  }

  lemma SteppingBlocksOn(src: OutcomeSource)
    ensures StepsBlockOn(Stepping(src)) && StepsWell(Stepping(src))
  {
    SteppingKeeps(src);
    forall s | SimInv(s) ensures BothBlockedOn(s, Stepping(src)(s)) { StepBlockedOn(src, s); }
  }

  /** The steps for which this side's queue has been reported as blocked in a row, from the last one in which something
      was sent. */
  function BlockedInARow(step: Sim -> Sim, s: Sim, actions: seq<Action>, side: Side): nat {
    if |actions| == 0 || actions[|actions| - 1].ResetAll? then 0
    else
      var before := actions[..|actions| - 1];
      var (c, d) := (ChannelOf(Run(step, s, before), side), ChannelOf(Run(step, s, actions), side));
      if !actions[|actions| - 1].Step? then BlockedInARow(step, s, before, side)
      else if d.blockedSenders == 0 then 0
      else if Grew(c, d) then 1
      else BlockedInARow(step, s, before, side) + 1
  }

  predicate BlockedFor(s: Sim, reader: nat, sender: nat) {
    s.reader.channel.blockedForMs == 10 * reader && s.sender.channel.blockedForMs == 10 * sender
  }

  lemma ActBlockedFor(step: Sim -> Sim, s: Sim, a: Action)
    requires StepsBlockOn(step) && SimInv(s)
    ensures var r := Act(step, s, a);
      if a.Step? then BothBlockedOn(s, r)
      else if a.ResetAll? then BlockedFor(r, 0, 0)
      else r.reader.channel.blockedForMs == s.reader.channel.blockedForMs
           && r.sender.channel.blockedForMs == s.sender.channel.blockedForMs
  {
    if a.Step? { assert BothBlockedOn(s, step(s)); }
  }

  lemma {:induction false} RunBlockedFor(step: Sim -> Sim, s: Sim, actions: seq<Action>)
    requires StepsBlockOn(step) && StepsWell(step) && SimInv(s) && BlockedFor(s, 0, 0)
    ensures BlockedFor(Run(step, s, actions), BlockedInARow(step, s, actions, ReaderSide),
                       BlockedInARow(step, s, actions, SenderSide))
  {
    if |actions| > 0 {
      var before, last := actions[..|actions| - 1], actions[|actions| - 1];
      RunBlockedFor(step, s, before);
      RunKeeps(step, s, before);
      ActBlockedFor(step, Run(step, s, before), last);
    }
  }

  /** From s on, both blocked-for times count the steps blocked in a row. */
  predicate CountsBlocked(step: Sim -> Sim, s: Sim, actions: seq<Action>) {
    BlockedFor(Run(step, s, actions), BlockedInARow(step, s, actions, ReaderSide),
               BlockedInARow(step, s, actions, SenderSide))
  }

  lemma CountsBlockedFrom(src: OutcomeSource, s: Sim, actions: seq<Action>)
    requires SimInv(s) && BlockedFor(s, 0, 0)
    ensures CountsBlocked(Stepping(src), s, actions)
  {
    SteppingBlocksOn(src);
    RunBlockedFor(Stepping(src), s, actions);
  }

  lemma NothingBlockedYet(config: Config, readerCapacity: nat, senderCapacity: nat) returns (s: Sim)
    ensures s == Initial(config, readerCapacity, senderCapacity) && SimInv(s) && BlockedFor(s, 0, 0)
  {
    InitialKeeps(config, readerCapacity, senderCapacity);
    s := Initial(config, readerCapacity, senderCapacity);
  }

  /** In every reached state a queue's blocked-for time is 10 ms for each step for which it has been reported as
      blocked in a row, counted from the last one in which something was sent. */
  lemma BlockedForIsRecent(src: OutcomeSource, config: Config, readerCapacity: nat, senderCapacity: nat,
                           actions: seq<Action>)
    ensures CountsBlocked(Stepping(src), Initial(config, readerCapacity, senderCapacity), actions)
  {
    var s := NothingBlockedYet(config, readerCapacity, senderCapacity);
    CountsBlockedFrom(src, s, actions);
  }

  // ----- Resets -----

  /** A reset makes the simulation what a new one is with the configuration in force and the capacities asked for
      last; only the number of calls to the outcome source goes on, and the activity of the last step is left until
      the next. */
  lemma ResetStartsAnew(s: Sim)
    ensures var r, anew := Reset(s), Initial(s.config, Aim(s.reader.channel), Aim(s.sender.channel));
      && r.reader.channel == anew.reader.channel && r.sender.channel == anew.sender.channel
      && r.pool == anew.pool.(calls := s.pool.calls, http := s.pool.http)
      && r == anew.(reader := r.reader, sender := r.sender, pool := r.pool)
  {
  }
}
