/** What the throttler lets through: never more than its tokens, and never nothing for ever. */
module TokenBucket {
  import opened Prelude
  import opened SimTypes
  import opened Channels
  import opened SenderWorkers
  import opened Simulation
  import opened SimulationProofs
  import opened SimulationTheorems

  function Admitted(s: Sim): nat { s.reader.channel.receivedTransactions }

  /** The bucket after the refill that opens the step. */
  function Refilled(s: Sim): real { Refill(s).tokens }

  /** What a step costs: with the throttler in, the bucket after the refill covers what was admitted. */
  ghost predicate Pays(s: Sim, r: Sim) {
    && SimInv(r) && r.config == s.config && Admitted(r) >= Admitted(s)
    && (s.config.throttlerInstalled ==>
          Admitted(r) as real + r.tokens == Admitted(s) as real + Refilled(s))
  }

  lemma StepPays(src: OutcomeSource, s: Sim)
    requires SimInv(s)
    ensures Pays(s, AdvanceStep(src, s))
  {
    TrailKeeps(src, s);
    OpenedKeeps(src, s);
    OpenedTokens(src, s);
    EndKeeps(TrailOf(src, s));
    TrailPays(TrailOf(src, s), s);
  }

  lemma OpenedTokens(src: OutcomeSource, s: Sim)
    ensures Opened(src, s).tokens == Refilled(s)
  {
  }

  lemma TrailPays(t: Trail, s: Sim)
    requires Kept(t) && t.start.config == s.config && t.start.reader.channel == s.reader.channel
    requires Offset(t.start) == Offset(Begin(s)) && t.start.tokens == Refilled(s) && SimInv(t.End())
    ensures Pays(s, t.End())
  {
    assert Offset(t.produced.s).reader == Begin(s).reader.Ahead();
  }

  ghost predicate StepsPay(step: Sim -> Sim) {
    forall s {:trigger step(s)} :: SimInv(s) ==> Pays(s, step(s))
  }

  lemma SteppingPays(src: OutcomeSource)
    ensures StepsPay(Stepping(src)) && StepsWell(Stepping(src))
  {
    SteppingKeeps(src);
    forall s | SimInv(s) ensures Pays(s, Stepping(src)(s)) { StepPays(src, s); }
  }

  /** No reset, and the throttler stays in. */
  predicate KeepsThrottler(actions: seq<Action>) {
    forall k :: 0 <= k < |actions| ==>
      && !actions[k].ResetAll?
      && (actions[k].Update? ==> actions[k].patch.throttlerInstalled != Some(false))
  }

  /** The refills of the run's steps, each at the rate then in force. */
  function Refills(step: Sim -> Sim, s: Sim, actions: seq<Action>): real {
    if |actions| == 0 then 0.0
    else
      var before := actions[..|actions| - 1];
      Refills(step, s, before)
      + if actions[|actions| - 1].Step? then RefillPerStep(Run(step, s, before).config) else 0.0
  }

  lemma ActPays(step: Sim -> Sim, s: Sim, a: Action)
    requires SimInv(s) && StepsWell(step) && StepsPay(step) && s.config.throttlerInstalled && KeepsThrottler([a])
    ensures var r := Act(step, s, a);
      && SimInv(r) && r.config.throttlerInstalled && Admitted(r) >= Admitted(s)
      && Admitted(r) as real + r.tokens
         <= Admitted(s) as real + s.tokens + if a.Step? then RefillPerStep(s.config) else 0.0
  {
    assert [a][0] == a;
    ActKeeps(step, s, a);
  }

  lemma {:induction false} RunPays(step: Sim -> Sim, s: Sim, actions: seq<Action>)
    requires SimInv(s) && StepsWell(step) && StepsPay(step) && s.config.throttlerInstalled && KeepsThrottler(actions)
    ensures var r := Run(step, s, actions);
      && SimInv(r) && r.config.throttlerInstalled && r.tokens >= 0.0 && Admitted(r) >= Admitted(s)
      && Admitted(r) as real + r.tokens <= Admitted(s) as real + s.tokens + Refills(step, s, actions)
  {
    if |actions| > 0 {
      var before, last := actions[..|actions| - 1], actions[|actions| - 1];
      RunPays(step, s, before);
      assert KeepsThrottler([last]) by { assert last == actions[|actions| - 1]; }
      ActPays(step, Run(step, s, before), last);
    }
  }

  /** The rates in force at the run's steps, added up. */
  function RatesInForce(step: Sim -> Sim, s: Sim, actions: seq<Action>): real {
    if |actions| == 0 then 0.0
    else
      var before := actions[..|actions| - 1];
      RatesInForce(step, s, before)
      + if actions[|actions| - 1].Step? then Run(step, s, before).config.requestedTps else 0.0
  }

  /** A step is a hundredth of a second. */
  lemma {:induction false} RefillsAreRates(step: Sim -> Sim, s: Sim, actions: seq<Action>)
    ensures 100.0 * Refills(step, s, actions) == RatesInForce(step, s, actions)
  {
    if |actions| > 0 {
      RefillsAreRates(step, s, actions[..|actions| - 1]);
    }
  }

  /** Over any run with the throttler in place, the transactions that leave the reader queue and the tokens left
      are at most the tokens at its start and, for every step, a hundredth of the rate per second then
      requested. */
  lemma RateBound(src: OutcomeSource, s: Sim, actions: seq<Action>)
    requires SimInv(s) && s.config.throttlerInstalled && KeepsThrottler(actions)
    ensures var r := Run(Stepping(src), s, actions);
      && r.tokens >= 0.0
      && 100.0 * (Admitted(r) - Admitted(s)) as real
         <= 100.0 * (s.tokens - r.tokens) + RatesInForce(Stepping(src), s, actions)
  {
    SteppingPays(src);
    RunPays(Stepping(src), s, actions);
    RefillsAreRates(Stepping(src), s, actions);
  }

  function Queue(s: Sim): seq<Batch> { s.reader.channel.items }

  /** n times x. */
  function Times(n: nat, x: real): real { if n == 0 then 0.0 else Times(n - 1, x) + x }

  /** n refills at the requested rate are worth n hundredths of a second of it. */
  lemma {:induction false} RefillsAtRate(n: nat, c: Config)
    ensures 100.0 * Times(n, RefillPerStep(c)) == Times(n, c.requestedTps)
  {
    if n > 0 {
      RefillsAtRate(n - 1, c);
    }
  }

  // ----- Runs at one configuration -----

  /** No reset and no change of the configuration. */
  predicate KeepsConfig(actions: seq<Action>) {
    forall k :: 0 <= k < |actions| ==> !actions[k].ResetAll? && !actions[k].Update?
  }

  lemma {:induction false} RunFirst(step: Sim -> Sim, s: Sim, a: Action, rest: seq<Action>)
    ensures Run(step, s, [a] + rest) == Run(step, Act(step, s, a), rest)
    ensures CountSteps([a] + rest) == CountSteps(rest) + if a.Step? then 1 else 0
  {
    if |rest| == 0 {
      assert [a] + rest == [] + [a] && ([] + [a])[..0] == [];
    } else {
      var init := rest[..|rest| - 1];
      RunFirst(step, s, a, init);
      assert ([a] + rest)[..|rest|] == [a] + init;
    }
  }

  /** What the calls that are not steps leave alone: the bucket, the queue and what was admitted. */
  predicate Untouched(s: Sim, r: Sim) {
    r.tokens == s.tokens && Admitted(r) == Admitted(s) && r.held == s.held && Queue(r) == Queue(s)
  }

  predicate Plain(a: Action) { !a.Update? && !a.ResetAll? }

  /** No reset, and no update of the rate or of whether the throttler is in. */
  predicate KeepsRate(actions: seq<Action>) {
    forall k :: 0 <= k < |actions| ==> LeavesRate(actions[k])
  }

  predicate LeavesRate(a: Action) {
    !a.ResetAll? && (a.Update? ==> a.patch.requestedTps.None? && a.patch.throttlerInstalled.None?)
  }

  predicate SameRate(s: Sim, r: Sim) {
    r.config.requestedTps == s.config.requestedTps && r.config.throttlerInstalled == s.config.throttlerInstalled
  }

  lemma QuietAct(step: Sim -> Sim, s: Sim, a: Action)
    requires LeavesRate(a) && !a.Step?
    ensures SameRate(s, Act(step, s, a)) && Untouched(s, Act(step, s, a))
    ensures Plain(a) ==> Act(step, s, a).config == s.config
  {
  }

  lemma PlainAct(step: Sim -> Sim, s: Sim, a: Action)
    requires SimInv(s) && StepsWell(step) && StepsPay(step) && Plain(a)
    ensures var r := Act(step, s, a);
      SimInv(r) && r.config == s.config && if a.Step? then r == step(s) else Untouched(s, r)
  {
    ActKeeps(step, s, a);
    if a.Step? { assert Pays(s, step(s)); } else { QuietAct(step, s, a); }
  }

  lemma {:induction false} OneConfig(step: Sim -> Sim, s: Sim, actions: seq<Action>)
    requires SimInv(s) && StepsWell(step) && StepsPay(step) && KeepsConfig(actions)
    ensures Run(step, s, actions).config == s.config && SimInv(Run(step, s, actions))
  {
    if |actions| > 0 {
      var before, last := actions[..|actions| - 1], actions[|actions| - 1];
      OneConfig(step, s, before);
      PlainAct(step, Run(step, s, before), last);
    }
  }

  lemma RefillAdds(step: Sim -> Sim, s: Sim, actions: seq<Action>, n: nat)
    requires |actions| > 0 && Run(step, s, actions[..|actions| - 1]).config == s.config
    requires Refills(step, s, actions[..|actions| - 1]) == Times(n, RefillPerStep(s.config))
    ensures Refills(step, s, actions)
         == Times(n + if actions[|actions| - 1].Step? then 1 else 0, RefillPerStep(s.config))
  {
  }

  lemma {:induction false} OneRefill(step: Sim -> Sim, s: Sim, actions: seq<Action>)
    requires SimInv(s) && StepsWell(step) && StepsPay(step) && KeepsConfig(actions)
    ensures Refills(step, s, actions) == Times(CountSteps(actions), RefillPerStep(s.config))
  {
    if |actions| > 0 {
      var before := actions[..|actions| - 1];
      OneRefill(step, s, before);
      OneConfig(step, s, before);
      RefillAdds(step, s, actions, CountSteps(before));
    }
  }

  /** The transactions admitted on the way from s to r are at most so many. */
  predicate AdmitsAtMost(s: Sim, r: Sim, most: real) { Admitted(r) as real <= Admitted(s) as real + most }

  lemma AfterFirst(step: Sim -> Sim, one: Sim, actions: seq<Action>)
    requires SimInv(one) && one.config.throttlerInstalled && StepsWell(step) && StepsPay(step) && KeepsConfig(actions)
    ensures AdmitsAtMost(one, Run(step, one, actions),
                         one.tokens + Times(CountSteps(actions), RefillPerStep(one.config)))
  {
    RunPays(step, one, actions);
    OneRefill(step, one, actions);
  }

  /** One batch and n refills. */
  function Burst(s: Sim, n: nat): real { HeadOrBatch(s) as real + Times(n, RefillPerStep(s.config)) }

  lemma BurstFromStep(s: Sim, one: Sim, r: Sim, n: nat)
    requires Pays(s, one) && s.config.throttlerInstalled
    requires AdmitsAtMost(one, r, one.tokens + Times(n, RefillPerStep(one.config)))
    ensures AdmitsAtMost(s, r, Burst(s, n + 1))
  {
  }

  lemma BurstFromQuiet(s: Sim, one: Sim, r: Sim, n: nat)
    requires Untouched(s, one) && one.config == s.config && AdmitsAtMost(one, r, Burst(one, n))
    ensures AdmitsAtMost(s, r, Burst(s, n))
  {
  }

  lemma BurstOfStep(step: Sim -> Sim, s: Sim, rest: seq<Action>)
    requires SimInv(s) && s.config.throttlerInstalled && StepsWell(step) && StepsPay(step) && KeepsConfig(rest)
    ensures AdmitsAtMost(s, Run(step, step(s), rest), Burst(s, CountSteps(rest) + 1))
  {
    assert Pays(s, step(s));
    AfterFirst(step, step(s), rest);
    BurstFromStep(s, step(s), Run(step, step(s), rest), CountSteps(rest));
  }

  /** The calls before the first step change nothing that matters. */
  lemma {:induction false} Bursts(step: Sim -> Sim, s: Sim, actions: seq<Action>)
    requires SimInv(s) && s.config.throttlerInstalled && StepsWell(step) && StepsPay(step) && KeepsConfig(actions)
    ensures AdmitsAtMost(s, Run(step, s, actions), Burst(s, CountSteps(actions)))
    decreases |actions|
  {
    if |actions| > 0 {
      var a, rest := actions[0], actions[1..];
      PlainAct(step, s, a);
      if a.Step? {
        BurstOfStep(step, s, rest);
      } else {
        Bursts(step, Act(step, s, a), rest);
        BurstFromQuiet(s, Act(step, s, a), Run(step, Act(step, s, a), rest), CountSteps(rest));
      }
      RunFirst(step, s, a, rest);
      assert [a] + rest == actions;
    }
  }

  lemma BurstAtRate(s: Sim, r: Sim, n: nat)
    requires AdmitsAtMost(s, r, Burst(s, n))
    ensures var most := if |Queue(s)| > 0 && Queue(s)[0].transactions > s.config.readBatchSize
                        then Queue(s)[0].transactions else s.config.readBatchSize;
            100.0 * (Admitted(r) - Admitted(s)) as real <= 100.0 * most as real + Times(n, s.config.requestedTps)
  {
    RefillsAtRate(n, s.config);
  }

  /** Whatever was saved before, and whatever else is called that leaves the configuration alone: n steps admit at
      most one batch (the head's size or the configured size, whichever is larger) and n hundredths of what the
      rate allows in a second. */
  lemma BurstBound(src: OutcomeSource, s: Sim, actions: seq<Action>)
    requires SimInv(s) && s.config.throttlerInstalled && KeepsConfig(actions)
    ensures var r := Run(Stepping(src), s, actions);
      var most := if |Queue(s)| > 0 && Queue(s)[0].transactions > s.config.readBatchSize
                  then Queue(s)[0].transactions else s.config.readBatchSize;
      100.0 * (Admitted(r) - Admitted(s)) as real
        <= 100.0 * most as real + Times(CountSteps(actions), s.config.requestedTps)
  {
    SteppingPays(src);
    Bursts(Stepping(src), s, actions);
    BurstAtRate(s, Run(Stepping(src), s, actions), CountSteps(actions));
  }

  // ----- Rate zero -----

  /** No update sets a rate above zero. */
  predicate KeepsZero(actions: seq<Action>) {
    forall k :: 0 <= k < |actions| && actions[k].Update? ==>
      actions[k].patch.requestedTps.None? || actions[k].patch.requestedTps == Some(0.0)
  }

  lemma ZeroAct(step: Sim -> Sim, s: Sim, a: Action)
    requires SimInv(s) && StepsPay(step) && s.config.requestedTps == 0.0 && !a.ResetAll?
    requires a.Update? ==> a.patch.requestedTps.None? || a.patch.requestedTps == Some(0.0)
    ensures Act(step, s, a).config.requestedTps == 0.0
  {
    if a.Step? {
      assert Pays(s, step(s));
    }
  }

  lemma {:induction false} ZeroRefills(step: Sim -> Sim, s: Sim, actions: seq<Action>)
    requires SimInv(s) && StepsWell(step) && StepsPay(step) && s.config.requestedTps == 0.0
    requires KeepsThrottler(actions) && KeepsZero(actions)
    ensures Run(step, s, actions).config.requestedTps == 0.0 && SimInv(Run(step, s, actions))
    ensures Refills(step, s, actions) == 0.0
  {
    if |actions| > 0 {
      var before, last := actions[..|actions| - 1], actions[|actions| - 1];
      ZeroRefills(step, s, before);
      var r := Run(step, s, before);
      assert last == actions[|actions| - 1];
      ZeroAct(step, r, last);
      ActKeeps(step, r, last);
    }
  }

  lemma ZeroAdmits(step: Sim -> Sim, s: Sim, actions: seq<Action>)
    requires SimInv(s) && StepsWell(step) && StepsPay(step)
    requires s.config.throttlerInstalled && s.config.requestedTps == 0.0
    requires KeepsThrottler(actions) && KeepsZero(actions)
    ensures Admitted(Run(step, s, actions)) == Admitted(s)
  {
    RunPays(step, s, actions);
    ZeroRefills(step, s, actions);
  }

  /** With the throttler in at a rate of zero, nothing is admitted, whatever is called, for as long as that
      lasts. */
  lemma ZeroRateAdmitsNothing(src: OutcomeSource, s: Sim, actions: seq<Action>)
    requires SimInv(s) && s.config.throttlerInstalled && s.config.requestedTps == 0.0
    requires KeepsThrottler(actions) && KeepsZero(actions)
    ensures Admitted(Run(Stepping(src), s, actions)) == Admitted(s)
  {
    SteppingPays(src);
    ZeroAdmits(Stepping(src), s, actions);
  }

  // ----- The head of the queue is admitted in the end -----

  /** The same head, with nothing admitted. */
  predicate SameHead(s: Sim, r: Sim) {
    |Queue(s)| > 0 && |Queue(r)| > 0 && Queue(r)[0] == Queue(s)[0] && Admitted(r) == Admitted(s)
  }

  lemma FlushLeavesReader(src: OutcomeSource, s: Sim)
    ensures var r := Flush(src, s).s; r.reader == s.reader && r.tokens == s.tokens && r.config == s.config
  {
  }

  /** What became of the head in a turn of the admission: taken, held back by a batch before it, or short of
      tokens. */
  predicate HeadFate(s: Sim, t: Turn) {
    || Admitted(t.s) > Admitted(s)
    || (t.ends && SameHead(s, t.s) && t.s.reader == s.reader && t.s.tokens == s.tokens
        && (t.s.held.Some? || s.tokens < Queue(s)[0].transactions as real))
  }

  lemma AdmitHeadFate(src: OutcomeSource, s: Sim)
    requires |Queue(s)| > 0 && s.config.throttlerInstalled
    ensures HeadFate(s, AdmitHead(src, s))
  {
    if s.tokens >= Queue(s)[0].transactions as real {
      FlushLeavesReader(src, TakeHead(s));
    }
  }

  lemma AdmitTurnFate(src: OutcomeSource, s: Sim)
    requires |Queue(s)| > 0 && s.config.throttlerInstalled
    ensures HeadFate(s, AdmitTurn(src, s))
  {
    FlushLeavesReader(src, s);
    AdmitHeadFate(src, Flush(src, s).s);
  }

  lemma AdmitTurnGrows(src: OutcomeSource, s: Sim)
    ensures Admitted(AdmitTurn(src, s).s) >= Admitted(s)
  {
    var r := Flush(src, s).s;
    FlushLeavesReader(src, s);
    if |Queue(r)| > 0 { FlushLeavesReader(src, TakeHead(r)); }
  }

  lemma {:induction false} AdmitFromGrows(src: OutcomeSource, s: Sim, n: nat, admitted: nat)
    requires Admitted(s) >= admitted
    ensures Admitted(AdmitFrom(src, s, n).s) >= admitted
  {
    var good := (r: Sim) => Admitted(r) >= admitted;
    forall r | good(r) ensures good(AdmitTurn(src, r).s) { AdmitTurnGrows(src, r); }
    AdmitFromKeeps(src, s, n, good);
  }

  lemma AdmitFate(src: OutcomeSource, s: Sim)
    requires |Queue(s)| > 0 && s.config.throttlerInstalled
    ensures HeadFate(s, Admit(src, s))
  {
    var t := AdmitTurn(src, s);
    AdmitTurnFate(src, s);
    if !t.ends {
      AdmitFromGrows(src, t.s, |Queue(s)| - 1, Admitted(t.s));
    }
  }

  lemma ProduceTurnGrows(src: OutcomeSource, s: Sim)
    requires s.credit >= s.config.readBatchSize
    ensures Admitted(ProduceTurn(src, s).s) >= Admitted(s)
  {
    FlushLeavesReader(src, PassThrough(s));
  }

  lemma {:induction false} ProduceGrows(src: OutcomeSource, s: Sim)
    ensures Admitted(Produce(src, s).s) >= Admitted(s)
    decreases s.credit
  {
    if s.credit >= s.config.readBatchSize {
      ProduceTurnGrows(src, s);
      if !ProduceTurn(src, s).ends {
        ProduceGrows(src, ProduceTurn(src, s).s);
      }
    }
  }

  /** While something is queued, production only queues more. */
  lemma {:induction false} ProduceQueues(src: OutcomeSource, s: Sim)
    requires |Queue(s)| > 0 && ChannelOk(s.reader.channel)
    ensures var r := Produce(src, s).s; SameHead(s, r) && r.tokens == s.tokens && r.held == s.held
    decreases s.credit
  {
    if s.credit >= s.config.readBatchSize && |Queue(s)| < s.reader.channel.applied {
      SendKeeps(s.reader, NewBatch(s));
      ProduceQueues(src, Enqueue(s));
    }
  }

  /** What became of the head in a step that admitted nothing and held nothing back. */
  predicate HeadWaits(s: Sim, r: Sim) {
    SameHead(s, r) && r.tokens == s.tokens + RefillPerStep(s.config) && r.tokens < Queue(s)[0].transactions as real
  }

  lemma FinishLeaves(t: Trail)
    ensures var r := t.End(); var p := t.produced.s;
            Queue(r) == Queue(p) && Admitted(r) == Admitted(p) && r.tokens == p.tokens && r.held == p.held
  {
  }

  lemma ProducedFate(src: OutcomeSource, s: Sim, t: Turn)
    requires |Queue(s)| > 0 && ChannelOk(s.reader.channel) && HeadFate(s, t)
    ensures var r := Produce(src, Earn(t.s)).s;
            Admitted(r) > Admitted(s) || r.held.Some?
            || (SameHead(s, r) && r.tokens == s.tokens < Queue(s)[0].transactions as real)
  {
    ProduceGrows(src, Earn(t.s));
    if Admitted(t.s) == Admitted(s) {
      ProduceQueues(src, Earn(t.s));
    }
  }

  lemma TrailFate(src: OutcomeSource, t: Trail)
    requires Kept(t) && t.drained == Drain(src, t.start) && t.flushed == Flush(src, t.drained)
    requires t.admitted == Admit(src, t.flushed.s) && t.produced == Produce(src, Earn(t.admitted.s))
    requires |Queue(t.start)| > 0 && t.start.config.throttlerInstalled
    ensures var r := t.produced.s;
            Admitted(r) > Admitted(t.start) || r.held.Some?
            || (SameHead(t.start, r) && r.tokens == t.start.tokens < Queue(t.start)[0].transactions as real)
  {
    FlushLeavesReader(src, t.drained);
    AdmitFate(src, t.flushed.s);
    ProducedFate(src, t.flushed.s, t.admitted);
  }

  /** A refill that leaves the bucket short of the head was not cut off: the bucket is never too small for
      the head. */
  lemma ShortMeansUncut(s: Sim)
    requires s.config.throttlerInstalled && |Queue(s)| > 0 && Refilled(s) < Queue(s)[0].transactions as real
    ensures Refilled(s) == s.tokens + RefillPerStep(s.config)
  {
  }

  ghost predicate StepsServeHead(step: Sim -> Sim) {
    forall s {:trigger step(s)} :: SimInv(s) && s.config.throttlerInstalled && |Queue(s)| > 0 ==>
      Admitted(step(s)) > Admitted(s) || step(s).held.Some? || HeadWaits(s, step(s))
  }

  /** The same, from the refill that opens the step to its end. */
  predicate FateOfHead(s: Sim, tokens: real, r: Sim) {
    || Admitted(r) > Admitted(s) || r.held.Some?
    || (SameHead(s, r) && r.tokens == tokens < Queue(s)[0].transactions as real)
  }

  lemma EndFate(src: OutcomeSource, s: Sim)
    requires SimInv(s) && s.config.throttlerInstalled && |Queue(s)| > 0
    ensures FateOfHead(s, Refilled(s), AdvanceStep(src, s))
  {
    var t := TrailOf(src, s);
    TrailKeeps(src, s);
    OpenedKeeps(src, s);
    OpenedTokens(src, s);
    TrailFate(src, t);
    FinishLeaves(t);
  }

  lemma StepServesHead(src: OutcomeSource, s: Sim)
    requires SimInv(s) && s.config.throttlerInstalled && |Queue(s)| > 0
    ensures var r := AdvanceStep(src, s); Admitted(r) > Admitted(s) || r.held.Some? || HeadWaits(s, r)
  {
    EndFate(src, s);
    if Refilled(s) < Queue(s)[0].transactions as real { ShortMeansUncut(s); }
  }

  lemma SteppingServesHead(src: OutcomeSource)
    ensures StepsServeHead(Stepping(src))
  {
    forall s | SimInv(s) && s.config.throttlerInstalled && |Queue(s)| > 0
      ensures Admitted(Stepping(src)(s)) > Admitted(s) || Stepping(src)(s).held.Some? || HeadWaits(s, Stepping(src)(s))
    {
      StepServesHead(src, s);
    }
  }

  lemma RateAct(step: Sim -> Sim, s: Sim, a: Action)
    requires SimInv(s) && StepsWell(step) && StepsPay(step) && LeavesRate(a)
    ensures var r := Act(step, s, a); SimInv(r) && SameRate(s, r) && if a.Step? then r == step(s) else Untouched(s, r)
  {
    ActKeeps(step, s, a);
    if a.Step? { assert Pays(s, step(s)); } else { QuietAct(step, s, a); }
  }

  lemma {:induction false} OneRate(step: Sim -> Sim, s: Sim, actions: seq<Action>)
    requires SimInv(s) && StepsWell(step) && StepsPay(step) && KeepsRate(actions)
    ensures SameRate(s, Run(step, s, actions)) && SimInv(Run(step, s, actions))
  {
    if |actions| > 0 {
      var before, last := actions[..|actions| - 1], actions[|actions| - 1];
      OneRate(step, s, before);
      RateAct(step, Run(step, s, before), last);
    }
  }

  /** After n steps the head still waits, with all their refills saved and still short of it. */
  predicate StillShort(s: Sim, r: Sim, n: nat) {
    && SameHead(s, r) && SameRate(s, r) && r.tokens == s.tokens + Times(n, RefillPerStep(s.config))
    && (n > 0 ==> r.tokens < Queue(s)[0].transactions as real)
  }

  predicate HeldAt(step: Sim -> Sim, s: Sim, actions: seq<Action>, k: nat)
    requires k <= |actions|
  {
    Run(step, s, actions[..k]).held.Some?
  }

  predicate HeldSometime(step: Sim -> Sim, s: Sim, actions: seq<Action>) {
    exists k :: 0 <= k <= |actions| && HeldAt(step, s, actions, k)
  }

  lemma HeldEarlier(step: Sim -> Sim, s: Sim, actions: seq<Action>)
    requires |actions| > 0 && HeldSometime(step, s, actions[..|actions| - 1])
    ensures HeldSometime(step, s, actions)
  {
    var init := actions[..|actions| - 1];
    var k :| 0 <= k <= |init| && HeldAt(step, s, init, k);
    assert init[..k] == actions[..k];
    assert HeldAt(step, s, actions, k);
  }

  lemma HeldNow(step: Sim -> Sim, s: Sim, actions: seq<Action>)
    requires Run(step, s, actions).held.Some?
    ensures HeldSometime(step, s, actions)
  {
    assert actions[..|actions|] == actions;
    assert HeldAt(step, s, actions, |actions|);
  }

  /** Admitted, held back now, or still short after n steps. */
  predicate HeadServed(s: Sim, r: Sim, n: nat) { Admitted(r) > Admitted(s) || r.held.Some? || StillShort(s, r, n) }

  lemma ServedByStep(s: Sim, r: Sim, q: Sim, n: nat)
    requires Admitted(r) > Admitted(s) || StillShort(s, r, n)
    requires SameRate(s, r) && SameRate(r, q) && Admitted(q) >= Admitted(r)
    requires Admitted(q) > Admitted(r) || q.held.Some? || |Queue(r)| == 0 || HeadWaits(r, q)
    ensures HeadServed(s, q, n + 1)
  {
  }

  lemma ServedByQuiet(s: Sim, r: Sim, q: Sim, n: nat)
    requires Admitted(r) > Admitted(s) || StillShort(s, r, n)
    requires SameRate(s, r) && SameRate(r, q) && Untouched(r, q)
    ensures HeadServed(s, q, n)
  {
  }

  lemma ActServes(step: Sim -> Sim, s: Sim, r: Sim, a: Action, n: nat)
    requires SimInv(r) && StepsWell(step) && StepsPay(step) && StepsServeHead(step) && LeavesRate(a)
    requires SameRate(s, r) && s.config.throttlerInstalled
    requires Admitted(r) > Admitted(s) || StillShort(s, r, n)
    ensures HeadServed(s, Act(step, r, a), n + if a.Step? then 1 else 0)
  {
    RateAct(step, r, a);
    var q := Act(step, r, a);
    if a.Step? {
      assert Pays(r, step(r));
      ServedByStep(s, r, q, n);
    } else {
      ServedByQuiet(s, r, q, n);
    }
  }

  lemma {:induction false} RunServes(step: Sim -> Sim, s: Sim, actions: seq<Action>)
    requires SimInv(s) && s.config.throttlerInstalled && |Queue(s)| > 0 && KeepsRate(actions)
    requires StepsWell(step) && StepsPay(step) && StepsServeHead(step)
    ensures HeldSometime(step, s, actions) || HeadServed(s, Run(step, s, actions), CountSteps(actions))
  {
    if |actions| > 0 {
      var before, last := actions[..|actions| - 1], actions[|actions| - 1];
      RunServes(step, s, before);
      OneRate(step, s, before);
      var r := Run(step, s, before);
      if HeldSometime(step, s, before) {
        HeldEarlier(step, s, actions);
      } else if r.held.Some? {
        HeldNow(step, s, before);
        HeldEarlier(step, s, actions);
      } else {
        ActServes(step, s, r, last, CountSteps(before));
      }
    }
  }

  lemma ServesInTime(step: Sim -> Sim, s: Sim, actions: seq<Action>)
    requires SimInv(s) && s.config.throttlerInstalled && |Queue(s)| > 0 && KeepsRate(actions)
    requires StepsWell(step) && StepsPay(step) && StepsServeHead(step) && CountSteps(actions) > 0
    requires s.tokens + Times(CountSteps(actions), RefillPerStep(s.config)) >= Queue(s)[0].transactions as real
    ensures Admitted(Run(step, s, actions)) > Admitted(s) || HeldSometime(step, s, actions)
  {
    RunServes(step, s, actions);
    if Run(step, s, actions).held.Some? { HeldNow(step, s, actions); }
  }

  /** No batch is too large for the bucket: as soon as the tokens saved, and a hundredth of a second of the
      requested rate for each step, cover the batch at the head of the queue, it has been admitted, unless the
      sender side held a batch back on the way; whatever else is called that leaves rate and throttler alone. */
  lemma HeadIsAdmitted(src: OutcomeSource, s: Sim, actions: seq<Action>)
    requires SimInv(s) && s.config.throttlerInstalled && |Queue(s)| > 0 && KeepsRate(actions)
    requires CountSteps(actions) > 0
    requires 100.0 * s.tokens + Times(CountSteps(actions), s.config.requestedTps)
             >= 100.0 * Queue(s)[0].transactions as real
    ensures Admitted(Run(Stepping(src), s, actions)) > Admitted(s) || HeldSometime(Stepping(src), s, actions)
  {
    SteppingPays(src);
    SteppingServesHead(src);
    RefillsAtRate(CountSteps(actions), s.config);
    ServesInTime(Stepping(src), s, actions);
  }
}
