/** When attempts are short enough for a scale-down to be bounded: a condition on the outcome source and the
    configuration alone. */
module LatencyBound {
  import opened Prelude
  import opened SimTypes
  import opened Channels
  import opened SenderWorkers
  import opened PoolHistory
  import opened PoolProofs
  import opened Simulation
  import opened SimulationProofs
  import opened SimulationTheorems
  import opened AttemptOutcomes
  import opened ScaleDown

  /** Every outcome that the source supplies lasts at most longest, in whole steps. */
  ghost predicate SourceWithin(src: OutcomeSource, longest: nat) {
    forall ctx: AttemptContext, calls: nat :: src(ctx, calls).Some? ==>
      RoundedStepDuration(src(ctx, calls).value.latency) <= longest
  }

  /** How long an attempt lasts by default. */
  function DefaultLatency(c: Config): real {
    if c.targetDelayMs + 5.0 > c.httpTimeoutMs then c.httpTimeoutMs else c.targetDelayMs + 5.0
  }

  predicate DefaultWithin(c: Config, longest: nat) { RoundedStepDuration(Finite(DefaultLatency(c))) <= longest }

  ghost predicate Bounded(src: OutcomeSource, c: Config, longest: nat) {
    longest >= FIXED_STEP_MS && SourceWithin(src, longest) && DefaultWithin(c, longest)
  }

  lemma ChosenWithin(env: Env, ctx: AttemptContext, calls: nat, credit: real, longest: nat)
    requires Bounded(env.source, env.config, longest)
    requires ctx.targetDelayMs == env.config.targetDelayMs && ctx.httpTimeoutMs == env.config.httpTimeoutMs
    ensures RoundedStepDuration(SelectOutcome(env, ctx, calls, credit).0.latency) <= longest
  {
    assert env.source(ctx, calls).Some? ==> RoundedStepDuration(env.source(ctx, calls).value.latency) <= longest;
  }

  function QuickEnough(longest: nat): Worker -> bool { (w: Worker) => QuickWorker(w, longest) }

  lemma LaunchesQuick(src: OutcomeSource, c: Config, longest: nat)
    requires Bounded(src, c, longest)
    ensures LaunchesFit(src, c, QuickEnough(longest))
  {
    var fits := QuickEnough(longest);
    forall now: nat, w: Worker, attempt: nat, calls: nat, credit: real | w.batch.Some?
      ensures fits(LaunchedBy(Env(src, c, now), w, attempt, calls, credit))
    {
      var env := Env(src, c, now);
      ChosenWithin(env, ContextOf(env, w.batch.value, attempt), calls, credit, longest);
    }
  }

  /** At every configuration on the way the default latency is within longest. */
  predicate DefaultsWithin(c: Config, actions: seq<Action>, longest: nat) {
    forall k :: 0 <= k <= |actions| ==> DefaultWithin(ConfigAfter(c, actions[..k]), longest)
  }

  /** The configurations on the way, whatever is done with them. */
  lemma RunQuick(src: OutcomeSource, s: Sim, actions: seq<Action>, longest: nat)
    requires longest >= FIXED_STEP_MS && SourceWithin(src, longest) && DefaultsWithin(s.config, actions, longest)
    requires Quick(s.pool.workers, longest)
    ensures Quick(Run(Stepping(src), s, actions).pool.workers, longest)
    ensures Run(Stepping(src), s, actions).config == ConfigAfter(s.config, actions)
  {
    forall k | 0 <= k <= |actions|
      ensures LaunchesFit(src, ConfigAfter(s.config, actions[..k]), QuickEnough(longest))
    {
      LaunchesQuick(src, ConfigAfter(s.config, actions[..k]), longest);
    }
    QuickIsFit(s.pool.workers, longest);
    RunFits(src, s, actions, QuickEnough(longest));
    QuickIsFit(Run(Stepping(src), s, actions).pool.workers, longest);
  }

  lemma QuickIsFit(ws: seq<Worker>, longest: nat)
    ensures Quick(ws, longest) <==> AllFit(ws, QuickEnough(longest))
  {
  }

  lemma PrefixDefaults(c: Config, actions: seq<Action>, n: nat, longest: nat)
    requires DefaultsWithin(c, actions, longest) && n <= |actions|
    ensures DefaultsWithin(c, actions[..n], longest)
  {
    forall k | 0 <= k <= n
      ensures DefaultWithin(ConfigAfter(c, actions[..n][..k]), longest)
    {
      assert actions[..n][..k] == actions[..k];
    }
  }

  /** The condition of BoundedScaleDown on the states of a run follows from the source and the configurations. */
  lemma QuickFromSource(src: OutcomeSource, s: Sim, actions: seq<Action>, longest: nat)
    requires longest >= FIXED_STEP_MS && SourceWithin(src, longest) && DefaultsWithin(s.config, actions, longest)
    requires Quick(s.pool.workers, longest)
    ensures QuickThroughout(Stepping(src), s, actions, longest)
  {
    forall k | 0 <= k <= |actions|
      ensures Quick(Run(Stepping(src), s, actions[..k]).pool.workers, longest)
    {
      PrefixDefaults(s.config, actions, k, longest);
      RunQuick(src, s, actions[..k], longest);
    }
  }

  lemma {:induction false} ConfigAfterBoth(c: Config, a: seq<Action>, b: seq<Action>)
    ensures ConfigAfter(c, a + b) == ConfigAfter(ConfigAfter(c, a), b)
  {
    if |b| == 0 {
      assert a + b == a;
    } else {
      ConfigAfterBoth(c, a, b[..|b| - 1]);
      assert (a + b)[..|a + b| - 1] == a + b[..|b| - 1];
    }
  }

  lemma SplitDefaults(c: Config, a: seq<Action>, b: seq<Action>, longest: nat)
    requires DefaultsWithin(c, a + b, longest)
    ensures DefaultsWithin(c, a, longest) && DefaultsWithin(ConfigAfter(c, a), b, longest)
  {
    PrefixDefaults(c, a + b, |a|, longest);
    assert (a + b)[..|a|] == a;
    forall k | 0 <= k <= |b|
      ensures DefaultWithin(ConfigAfter(ConfigAfter(c, a), b[..k]), longest)
    {
      ConfigAfterBoth(c, a, b[..k]);
      assert (a + b)[..|a| + k] == a + b[..k];
    }
  }

  /** Scale-down is bounded, from conditions that can be checked before any call: with a source and
      configurations whose attempts last at most longest, whatever was called before, steps worth
      3 * longest + 880 ms that leave the target alone end with exactly the target number of workers. */
  lemma ScaleDownFromStart(src: OutcomeSource, config: Config, readerCapacity: nat, senderCapacity: nat,
                           before: seq<Action>, actions: seq<Action>, longest: nat)
    requires longest >= FIXED_STEP_MS && SourceWithin(src, longest) && DefaultsWithin(config, before + actions, longest)
    requires KeepsTarget(actions) && FIXED_STEP_MS * CountSteps(actions) >= 3 * longest + 880
    ensures var s := Reached(src, config, readerCapacity, senderCapacity, before);
            var r := Run(Stepping(src), s, actions);
      && |r.pool.workers| == r.config.senderWorkers == s.config.senderWorkers
      && forall i :: 0 <= i < |r.pool.workers| ==> !r.pool.workers[i].retiring
  {
    var s := Reached(src, config, readerCapacity, senderCapacity, before);
    ReachedKeeps(src, config, readerCapacity, senderCapacity, before);
    ReachedTimely(src, config, readerCapacity, senderCapacity, before);
    SplitDefaults(config, before, actions, longest);
    RunQuick(src, Initial(config, readerCapacity, senderCapacity), before, longest);
    QuickFromSource(src, s, actions, longest);
    BoundedScaleDown(src, s, actions, longest);
  }
}
