/** What the workers in flight were given: a fact about every attempt as it starts is a fact about every worker of every
    reached state; and so the outcome of each attempt, and how long it takes, are what the source answered. */
module AttemptOutcomes {
  import opened Prelude
  import opened SimTypes
  import opened Channels
  import opened SenderWorkers
  import opened PoolHistory
  import opened PoolProofs
  import opened Simulation
  import opened SimulationProofs
  import opened SimulationTheorems

  /** Worker w, which has a batch, as it starts an attempt at this configuration and time. */
  function LaunchedBy(env: Env, w: Worker, attempt: nat, calls: nat, credit: real): Worker
    requires w.batch.Some?
  {
    Launched(w, env.now, attempt, SelectOutcome(env, ContextOf(env, w.batch.value, attempt), calls, credit).0)
  }

  /** Every attempt that starts at this configuration makes its worker fit. */
  ghost predicate LaunchesFit(src: OutcomeSource, c: Config, fits: Worker -> bool) {
    forall now: nat, w: Worker, attempt: nat, calls: nat, credit: real
      {:trigger fits(LaunchedBy(Env(src, c, now), w, attempt, calls, credit))} ::
      w.batch.Some? ==> fits(LaunchedBy(Env(src, c, now), w, attempt, calls, credit))
  }

  /** A fact about attempts in flight: without one it holds, and a retirement mark does not matter to it. */
  ghost predicate OfAttempts(fits: Worker -> bool) {
    && (forall w: Worker {:trigger fits(w)} :: !w.state.InFlight? ==> fits(w))
    && (forall w: Worker, mark: bool {:trigger fits(w.(retiring := mark))} :: fits(w) ==> fits(w.(retiring := mark)))
  }

  predicate AllFit(ws: seq<Worker>, fits: Worker -> bool) { forall i :: 0 <= i < |ws| ==> fits(ws[i]) }

  // ----- One attempt, one pass, one step -----

  lemma StartsFit(env: Env, p: Pool, i: nat, attempt: nat, fits: Worker -> bool)
    requires LaunchesFit(env.source, env.config, fits) && i < |p.workers| && p.workers[i].batch.Some?
    requires forall j :: 0 <= j < |p.workers| && j != i ==> fits(p.workers[j])
    ensures AllFit(StartAttempt(env, p, i, attempt).workers, fits)
  {
    assert env == Env(env.source, env.config, env.now);
    assert fits(LaunchedBy(Env(env.source, env.config, env.now), p.workers[i], attempt, p.calls, p.failureCredit));
  }

  lemma CompletionsFit(env: Env, p: Pool, fits: Worker -> bool)
    requires OfAttempts(fits) && AllFit(p.workers, fits)
    ensures AllFit(CompleteDue(env, p).workers, fits)
  {
    var good := (q: Pool) => AllFit(q.workers, fits);
    forall q, i: nat | good(q) ensures good(Completing(env)(q, i)) {
    }
    PassKeepsAll(Completing(env), p, 0, |p.workers|, good);
  }

  lemma RetriesFit(env: Env, p: Pool, fits: Worker -> bool)
    requires LaunchesFit(env.source, env.config, fits) && AllFit(p.workers, fits)
    ensures AllFit(StartDueRetries(env, p).workers, fits)
  {
    var good := (q: Pool) => AllFit(q.workers, fits);
    forall q, i: nat | good(q) ensures good(Retrying(env)(q, i)) {
      if RetryIfDue(env, q, i) != q {
        StartsFit(env, q, i, q.workers[i].attempt + 1, fits);
      }
    }
    PassKeepsAll(Retrying(env), p, 0, |p.workers|, good);
  }

  lemma AcceptsFit(env: Env, p: Pool, i: nat, b: Batch, fits: Worker -> bool)
    requires LaunchesFit(env.source, env.config, fits) && i < |p.workers| && AllFit(p.workers, fits)
    ensures AllFit(Accept(env, p, i, b).workers, fits)
  {
    var given := p.workers[i].(batch := Some(b), hadAmbiguousOutcome := false);
    StartsFit(env, p.(workers := p.workers[i := given]), i, 1, fits);
  }

  /** The workers fit, at this configuration. */
  predicate FitSim(s: Sim, c: Config, fits: Worker -> bool) { s.config == c && AllFit(s.pool.workers, fits) }

  lemma DrainsFit(src: OutcomeSource, s: Sim, c: Config, fits: Worker -> bool)
    requires LaunchesFit(src, c, fits) && FitSim(s, c, fits)
    ensures FitSim(Drain(src, s), c, fits)
  {
    var good := (r: Sim) => FitSim(r, c, fits);
    forall r | good(r) && DrainTurn(src, r).Some? ensures good(DrainTurn(src, r).value) {
      var i := NextIdle(r.pool).value;
      AcceptsFit(EnvOf(src, r), Advanced(r.pool, i), i, r.sender.channel.items[0], fits);
    }
    DrainsKeeping(src, s, good);
  }

  lemma FlushesFit(src: OutcomeSource, s: Sim, c: Config, fits: Worker -> bool)
    requires LaunchesFit(src, c, fits) && FitSim(s, c, fits)
    ensures FitSim(Flush(src, s).s, c, fits)
  {
    if s.held.Some? {
      if s.sender.channel.applied == 0 {
        if NextIdle(s.pool).Some? {
          var i := NextIdle(s.pool).value;
          AcceptsFit(EnvOf(src, s), Advanced(s.pool, i), i, s.held.value, fits);
        }
      } else if CanSend(s.sender.channel) {
        DrainsFit(src, SendHeld(s), c, fits);
      }
    }
  }

  lemma AdmitTurnFits(src: OutcomeSource, s: Sim, c: Config, fits: Worker -> bool)
    requires LaunchesFit(src, c, fits) && FitSim(s, c, fits)
    ensures FitSim(AdmitTurn(src, s).s, c, fits)
  {
    FlushesFit(src, s, c, fits);
    var r := Flush(src, s).s;
    if |r.reader.channel.items| > 0 { FlushesFit(src, TakeHead(r), c, fits); }
  }

  lemma AdmitsFit(src: OutcomeSource, s: Sim, c: Config, fits: Worker -> bool)
    requires LaunchesFit(src, c, fits) && FitSim(s, c, fits)
    ensures FitSim(Admit(src, s).s, c, fits)
  {
    var good := (r: Sim) => FitSim(r, c, fits);
    forall r | good(r) ensures good(AdmitTurn(src, r).s) { AdmitTurnFits(src, r, c, fits); }
    AdmitFromKeeps(src, s, |s.reader.channel.items|, good);
  }

  lemma ProduceTurnFits(src: OutcomeSource, s: Sim, c: Config, fits: Worker -> bool)
    requires LaunchesFit(src, c, fits) && FitSim(s, c, fits) && s.credit >= s.config.readBatchSize
    ensures FitSim(ProduceTurn(src, s).s, c, fits)
  {
    FlushesFit(src, PassThrough(s), c, fits);
  }

  lemma {:induction false} ProducesFit(src: OutcomeSource, s: Sim, c: Config, fits: Worker -> bool)
    requires LaunchesFit(src, c, fits) && FitSim(s, c, fits)
    ensures FitSim(Produce(src, s).s, c, fits)
    decreases s.credit
  {
    if s.credit >= s.config.readBatchSize {
      ProduceTurnFits(src, s, c, fits);
      if !ProduceTurn(src, s).ends {
        ProducesFit(src, ProduceTurn(src, s).s, c, fits);
      }
    }
  }

  lemma {:induction false} ActiveFit(ws: seq<Worker>, fits: Worker -> bool)
    requires AllFit(ws, fits)
    ensures AllFit(Active(ws), fits)
  {
    if |ws| > 0 {
      ActiveFit(ws[..|ws| - 1], fits);
    }
  }

  lemma OpensFit(src: OutcomeSource, s: Sim, fits: Worker -> bool)
    requires LaunchesFit(src, s.config, fits) && OfAttempts(fits) && AllFit(s.pool.workers, fits)
    ensures FitSim(Opened(src, s), s.config, fits)
  {
    var (b, env) := (Begin(s), EnvOf(src, Begin(s)));
    CompletionsFit(env, b.pool, fits);
    RetriesFit(env, CompleteDue(env, b.pool), fits);
    ActiveFit(Passed(env, b.pool).workers, fits);
  }

  lemma TrailFits(src: OutcomeSource, t: Trail, c: Config, fits: Worker -> bool)
    requires t.drained == Drain(src, t.start) && t.flushed == Flush(src, t.drained)
    requires t.admitted == Admit(src, t.flushed.s) && t.produced == Produce(src, Earn(t.admitted.s))
    requires LaunchesFit(src, c, fits) && FitSim(t.start, c, fits)
    ensures FitSim(t.produced.s, c, fits)
  {
    DrainsFit(src, t.start, c, fits);
    FlushesFit(src, t.drained, c, fits);
    AdmitsFit(src, t.flushed.s, c, fits);
    ProducesFit(src, Earn(t.admitted.s), c, fits);
  }

  lemma EndFits(t: Trail, c: Config, fits: Worker -> bool)
    requires FitSim(t.produced.s, c, fits)
    ensures FitSim(t.End(), c, fits)
  {
  }

  lemma StepFits(src: OutcomeSource, s: Sim, fits: Worker -> bool)
    requires LaunchesFit(src, s.config, fits) && OfAttempts(fits) && AllFit(s.pool.workers, fits)
    ensures FitSim(AdvanceStep(src, s), s.config, fits)
  {
    OpensFit(src, s, fits);
    TrailFits(src, TrailOf(src, s), s.config, fits);
    EndFits(TrailOf(src, s), s.config, fits);
  }

  // ----- Runs -----

  /** The configuration after some calls. */
  function ConfigAfter(c: Config, actions: seq<Action>): Config {
    if |actions| == 0 then c
    else
      var (before, last) := (ConfigAfter(c, actions[..|actions| - 1]), actions[|actions| - 1]);
      if last.Update? then Merge(before, last.patch) else before
  }

  /** At every configuration on the way the attempts that start fit. */
  ghost predicate AlwaysFit(src: OutcomeSource, c: Config, actions: seq<Action>, fits: Worker -> bool) {
    forall k {:trigger ConfigAfter(c, actions[..k])} :: 0 <= k <= |actions| ==>
      LaunchesFit(src, ConfigAfter(c, actions[..k]), fits)
  }

  lemma UpdateFits(s: Sim, patch: Patch, fits: Worker -> bool)
    requires OfAttempts(fits) && AllFit(s.pool.workers, fits)
    ensures FitSim(UpdateConfig(s, patch), Merge(s.config, patch), fits)
  {
    if patch.senderWorkers.Some? && |s.pool.workers| > 0 {
      CountFits(s.pool, patch.senderWorkers.value, fits);
    }
  }

  lemma CountFits(p: Pool, requested: Pos, fits: Worker -> bool)
    requires OfAttempts(fits) && AllFit(p.workers, fits) && |p.workers| > 0
    ensures AllFit(RequestCount(p, requested).workers, fits)
  {
    var marked := Marked(p.workers, requested);
    forall i | 0 <= i < |marked| ensures fits(marked[i]) {
      assert fits(p.workers[i].(retiring := i >= requested));
    }
    if requested <= |p.workers| { ActiveFit(marked, fits); }
  }

  lemma ActFits(src: OutcomeSource, s: Sim, a: Action, fits: Worker -> bool)
    requires LaunchesFit(src, s.config, fits) && OfAttempts(fits) && AllFit(s.pool.workers, fits)
    ensures FitSim(Act(Stepping(src), s, a), if a.Update? then Merge(s.config, a.patch) else s.config, fits)
  {
    match a
    case Step => StepFits(src, s, fits);
    case Update(patch) => UpdateFits(s, patch, fits);
    case _ =>
  }

  lemma {:induction false} RunFits(src: OutcomeSource, s: Sim, actions: seq<Action>, fits: Worker -> bool)
    requires OfAttempts(fits) && AllFit(s.pool.workers, fits) && AlwaysFit(src, s.config, actions, fits)
    ensures FitSim(Run(Stepping(src), s, actions), ConfigAfter(s.config, actions), fits)
  {
    if |actions| > 0 {
      var n := |actions| - 1;
      PrefixFits(src, s.config, actions, n, fits);
      RunFits(src, s, actions[..n], fits);
      assert LaunchesFit(src, ConfigAfter(s.config, actions[..n]), fits);
      ActFits(src, Run(Stepping(src), s, actions[..n]), actions[n], fits);
    }
  }

  lemma PrefixFits(src: OutcomeSource, c: Config, actions: seq<Action>, n: nat, fits: Worker -> bool)
    requires AlwaysFit(src, c, actions, fits) && n <= |actions|
    ensures AlwaysFit(src, c, actions[..n], fits)
  {
    forall k | 0 <= k <= n ensures LaunchesFit(src, ConfigAfter(c, actions[..n][..k]), fits) {
      assert actions[..n][..k] == actions[..k];
    }
  }

  // ----- The source's answers -----

  /** The context of the attempt that w is at, when it started at configuration c. */
  function ContextAt(c: Config, w: Worker): AttemptContext
    requires w.batch.Some? && w.attemptLatencyMs <= w.completeAtMs
  {
    AttemptContext(w.batch.value, w.attempt, w.completeAtMs - w.attemptLatencyMs, c.targetDelayMs,
                   c.targetErrorRatePercent, c.httpTimeoutMs)
  }

  /** What the source answers, after so many calls; and where it answers nothing, what the target does. */
  predicate Answered(src: OutcomeSource, ctx: AttemptContext, calls: nat, o: Outcome) {
    match src(ctx, calls)
    case Some(answer) => o == answer
    case None => AnswersAsTargetDoes(ctx, o)
  }

  predicate Lasts(w: Worker, o: Outcome) {
    && w.outcome.Some? && w.outcome.value.kind == o.kind
    && w.attemptLatencyMs == RoundedStepDuration(o.latency) <= w.completeAtMs
  }

  /** An attempt in flight ends as the source answered for it, when the answer's latency, in whole steps, has passed. */
  ghost predicate AsAnswered(src: OutcomeSource, c: Config, w: Worker) {
    w.batch.Some? && w.attemptLatencyMs <= w.completeAtMs
    && exists calls, o :: Answered(src, ContextAt(c, w), calls, o) && Lasts(w, o)
  }

  lemma LaunchIsAnswered(env: Env, w: Worker, attempt: nat, calls: nat, credit: real)
    requires w.batch.Some?
    ensures AsAnswered(env.source, env.config, LaunchedBy(env, w, attempt, calls, credit))
  {
    var u := LaunchedBy(env, w, attempt, calls, credit);
    var ctx := ContextOf(env, w.batch.value, attempt);
    var o := SelectOutcome(env, ctx, calls, credit).0;
    assert ContextAt(env.config, u) == ctx;
    assert Answered(env.source, ctx, calls, o) && Lasts(u, o);
  }

  /** At one of the configurations on the way. */
  ghost predicate AnsweredOnTheWay(src: OutcomeSource, c: Config, actions: seq<Action>, w: Worker) {
    exists k :: 0 <= k <= |actions| && AsAnswered(src, ConfigAfter(c, actions[..k]), w)
  }

  lemma MarkDoesNotMatter(src: OutcomeSource, c: Config, actions: seq<Action>, w: Worker, mark: bool)
    requires AnsweredOnTheWay(src, c, actions, w)
    ensures AnsweredOnTheWay(src, c, actions, w.(retiring := mark))
  {
    var k :| 0 <= k <= |actions| && AsAnswered(src, ConfigAfter(c, actions[..k]), w);
    var calls, o :| Answered(src, ContextAt(ConfigAfter(c, actions[..k]), w), calls, o) && Lasts(w, o);
    var u := w.(retiring := mark);
    assert Answered(src, ContextAt(ConfigAfter(c, actions[..k]), u), calls, o) && Lasts(u, o);
    assert AsAnswered(src, ConfigAfter(c, actions[..k]), u);
  }

  /** In every reached state each attempt in flight has the outcome that the source answered for its batch, number,
      start and settings, and ends when that answer's latency has passed, rounded up to whole steps; where the source
      leaves it open, the target's own. */
  lemma OutcomesAreAnswers(src: OutcomeSource, config: Config, readerCapacity: nat, senderCapacity: nat,
                           actions: seq<Action>, i: nat)
    requires var ws := Reached(src, config, readerCapacity, senderCapacity, actions).pool.workers;
             i < |ws| && ws[i].state.InFlight?
    ensures AnsweredOnTheWay(src, config, actions,
                             Reached(src, config, readerCapacity, senderCapacity, actions).pool.workers[i])
  {
    var s := Initial(config, readerCapacity, senderCapacity);
    ghost var fits := (w: Worker) => w.state.InFlight? ==> AnsweredOnTheWay(src, config, actions, w);
    forall w: Worker, mark: bool | fits(w) ensures fits(w.(retiring := mark)) {
      if w.state.InFlight? { MarkDoesNotMatter(src, config, actions, w, mark); }
    }
    forall k | 0 <= k <= |actions| ensures LaunchesFit(src, ConfigAfter(config, actions[..k]), fits) {
      forall now: nat, w: Worker, attempt: nat, calls: nat, credit: real | w.batch.Some?
        ensures fits(LaunchedBy(Env(src, ConfigAfter(config, actions[..k]), now), w, attempt, calls, credit))
      {
        LaunchIsAnswered(Env(src, ConfigAfter(config, actions[..k]), now), w, attempt, calls, credit);
      }
    }
    RunFits(src, s, actions, fits);
    assert fits(Run(Stepping(src), s, actions).pool.workers[i]);
  }
}
