/** How long a scale-down can take. Every worker that still has work carries a deadline that no step can
    push back, and at which it is idle whatever its attempts' outcomes. */
module ScaleDown {
  import opened Prelude
  import opened SimTypes
  import opened Channels
  import opened SenderWorkers
  import opened PoolHistory
  import opened PoolProofs
  import opened Simulation
  import opened SimulationProofs
  import opened SimulationTheorems

  /** Attempts last at least the step they start in. */
  function AtLeastAStep(ms: nat): nat { if ms > FIXED_STEP_MS then ms else FIXED_STEP_MS }

  /** The longest a batch can still occupy its worker once attempt number a has ended. */
  function Afterwards(sequence: nat, a: nat, longest: nat): nat
    decreases RETRY_MAX_ATTEMPTS - a
  {
    if a == 0 || a >= RETRY_MAX_ATTEMPTS then 0
    else RetryDelayMs(sequence, a) + longest + Afterwards(sequence, a + 1, longest)
  }

  function Deadline(w: Worker, longest: nat): int
    requires Shaped(w)
  {
    match w.state
    case Idle => 0
    case InFlight =>
      w.completeAtMs - w.attemptLatencyMs + AtLeastAStep(w.attemptLatencyMs)
      + Afterwards(w.batch.value.sequence, w.attempt, longest)
    case Backoff => w.retryAtMs + longest + Afterwards(w.batch.value.sequence, w.attempt + 1, longest)
  }

  /** Between steps nothing is overdue, and all times lie on the step grid. */
  predicate Timely(w: Worker, now: nat) {
    match w.state
    case Idle => true
    case InFlight =>
      && w.attemptLatencyMs <= w.completeAtMs && w.attemptLatencyMs % FIXED_STEP_MS == 0
      && w.completeAtMs % FIXED_STEP_MS == 0
      && w.completeAtMs - w.attemptLatencyMs <= now
      && now < w.completeAtMs - w.attemptLatencyMs + AtLeastAStep(w.attemptLatencyMs)
    case Backoff =>
      && w.retryAtMs % FIXED_STEP_MS == 0
      && Shaped(w) && now < w.retryAtMs <= now + RetryDelayMs(w.batch.value.sequence, w.attempt)
  }

  predicate AllTimely(ws: seq<Worker>, now: nat) {
    now % FIXED_STEP_MS == 0 && forall i :: 0 <= i < |ws| ==> Shaped(ws[i]) && Timely(ws[i], now)
  }

  /** No attempt in flight was given more than longest. */
  predicate Quick(ws: seq<Worker>, longest: nat) {
    forall i :: 0 <= i < |ws| ==> QuickWorker(ws[i], longest)
  }

  // ----- One worker through the completions and retries of a step -----

  /** What the pass over due completions makes of a worker. */
  predicate Completes(w: Worker, u: Worker, now: nat) {
    Shaped(w) ==> u == if CompletionDue(w, now) then Settled(w, now) else w
  }

  predicate Relaunched(w: Worker, u: Worker, now: nat) {
    && w.batch.Some? && u.state.InFlight? && u.batch == w.batch && u.attempt == w.attempt + 1
    && u.retiring == w.retiring && u.attemptLatencyMs % FIXED_STEP_MS == 0
    && u.completeAtMs == now + u.attemptLatencyMs
  }

  predicate Retries(w: Worker, u: Worker, now: nat) {
    Shaped(w) ==> if RetryDue(w, now) then Relaunched(w, u, now) else u == w
  }

  /** A turn that only touches its own worker relates every worker it passes to its result. */
  lemma {:induction false} PassRelates(turn: (Pool, nat) -> Pool, p: Pool, k: nat, rel: (Worker, Worker) -> bool)
    requires forall q: Pool, i: nat {:trigger turn(q, i)} :: i < |q.workers| ==>
               && |turn(q, i).workers| == |q.workers| && rel(q.workers[i], turn(q, i).workers[i])
               && forall j :: 0 <= j < |q.workers| && j != i ==> turn(q, i).workers[j] == q.workers[j]
    ensures var r := Pass(turn, p, k, |p.workers|);
      && |r.workers| == |p.workers|
      && (forall j :: 0 <= j < k && j < |p.workers| ==> r.workers[j] == p.workers[j])
      && (forall j :: k <= j < |p.workers| ==> rel(p.workers[j], r.workers[j]))
    decreases |p.workers| - k
  {
    if k < |p.workers| {
      PassRelates(turn, turn(p, k), k + 1, rel);
    }
  }

  lemma CompleteDueRelates(env: Env, p: Pool)
    ensures var r := CompleteDue(env, p);
      |r.workers| == |p.workers| && forall j :: 0 <= j < |p.workers| ==> Completes(p.workers[j], r.workers[j], env.now)
  {
    PassRelates(Completing(env), p, 0, (w, u) => Completes(w, u, env.now));
  }

  lemma RetriesRelate(env: Env, p: Pool)
    ensures var r := StartDueRetries(env, p);
      |r.workers| == |p.workers| && forall j :: 0 <= j < |p.workers| ==> Retries(p.workers[j], r.workers[j], env.now)
  {
    PassRelates(Retrying(env), p, 0, (w, u) => Retries(w, u, env.now));
  }

  /** A batch still occupied, with its deadline not moved back. */
  predicate NoLater(w: Worker, u: Worker, longest: nat)
    requires Shaped(w) && Shaped(u)
  {
    u.state.Idle? || (!w.state.Idle? && Deadline(u, longest) <= Deadline(w, longest))
  }

  predicate QuickWorker(w: Worker, longest: nat) {
    w.state.InFlight? ==> AtLeastAStep(w.attemptLatencyMs) <= longest
  }

  /** On the step grid, later means a whole step later. */
  lemma NextOnGrid(a: int, b: int)
    requires a % FIXED_STEP_MS == 0 && b % FIXED_STEP_MS == 0 && a < b
    ensures a + FIXED_STEP_MS <= b
  {
  }

  lemma OnGrid(completeAt: nat, latency: nat)
    requires latency <= completeAt && latency % FIXED_STEP_MS == 0 && completeAt % FIXED_STEP_MS == 0
    ensures (completeAt - latency + AtLeastAStep(latency)) % FIXED_STEP_MS == 0
  {
  }

  /** Waiting to retry, on the grid, and not before now. */
  predicate WaitsFrom(w: Worker, now: nat)
    requires Shaped(w)
  {
    w.state.Backoff? ==>
      && w.retryAtMs % FIXED_STEP_MS == 0
      && now <= w.retryAtMs <= now + RetryDelayMs(w.batch.value.sequence, w.attempt)
  }

  lemma SettledAges(w: Worker, now: nat, longest: nat)
    requires Shaped(w) && w.state.InFlight? && now % FIXED_STEP_MS == 0
    requires now <= w.completeAtMs - w.attemptLatencyMs + AtLeastAStep(w.attemptLatencyMs)
    ensures NoLater(w, Settled(w, now), longest) && WaitsFrom(Settled(w, now), now)
  {
  }

  lemma UndueAges(w: Worker, before: nat)
    requires before % FIXED_STEP_MS == 0 && w.state.InFlight? && Timely(w, before)
    requires w.completeAtMs > before + FIXED_STEP_MS
    ensures Timely(w, before + FIXED_STEP_MS)
  {
  }

  lemma BackoffAges(w: Worker, before: nat)
    requires before % FIXED_STEP_MS == 0 && w.state.Backoff? && Shaped(w) && Timely(w, before)
    ensures WaitsFrom(w, before + FIXED_STEP_MS)
  {
    NextOnGrid(before, w.retryAtMs);
  }

  lemma NotOverdue(w: Worker, before: nat)
    requires before % FIXED_STEP_MS == 0 && w.state.InFlight? && Timely(w, before)
    ensures before + FIXED_STEP_MS <= w.completeAtMs - w.attemptLatencyMs + AtLeastAStep(w.attemptLatencyMs)
  {
    OnGrid(w.completeAtMs, w.attemptLatencyMs);
    NextOnGrid(before, w.completeAtMs - w.attemptLatencyMs + AtLeastAStep(w.attemptLatencyMs));
  }

  lemma DueAges(w: Worker, before: nat, longest: nat)
    requires before % FIXED_STEP_MS == 0 && Shaped(w) && w.state.InFlight? && Timely(w, before)
    ensures NoLater(w, Settled(w, before + FIXED_STEP_MS), longest)
    ensures WaitsFrom(Settled(w, before + FIXED_STEP_MS), before + FIXED_STEP_MS)
  {
    NotOverdue(w, before);
    SettledAges(w, before + FIXED_STEP_MS, longest);
  }

  /** What the completions of a step leave to its retries. */
  predicate Midway(v: Worker, now: nat)
    requires Shaped(v)
  {
    (v.state.InFlight? ==> Timely(v, now)) && WaitsFrom(v, now)
  }

  lemma CompletionAges(w: Worker, v: Worker, before: nat, longest: nat)
    requires before % FIXED_STEP_MS == 0 && Shaped(w) && Timely(w, before)
    requires Completes(w, v, before + FIXED_STEP_MS) && Shaped(v)
    ensures Midway(v, before + FIXED_STEP_MS) && NoLater(w, v, longest)
  {
    match w.state
    case Idle =>
    case InFlight =>
      if CompletionDue(w, before + FIXED_STEP_MS) { DueAges(w, before, longest); } else { UndueAges(w, before); }
    case Backoff => BackoffAges(w, before);
  }

  lemma RetryAges(v: Worker, u: Worker, now: nat, longest: nat)
    requires now % FIXED_STEP_MS == 0 && Shaped(v) && Shaped(u) && Retries(v, u, now)
    requires Midway(v, now)
    ensures Timely(u, now) && (QuickWorker(u, longest) ==> NoLater(v, u, longest))
  {
  }

  /** Ten milliseconds later, a worker that went through both passes is timely again; and if it still has
      work, its deadline has not moved back, provided its latest attempt was given at most longest. */
  lemma WorkerAges(w: Worker, v: Worker, u: Worker, before: nat, longest: nat)
    requires before % FIXED_STEP_MS == 0 && Shaped(w) && Timely(w, before)
    requires Completes(w, v, before + FIXED_STEP_MS) && Shaped(v)
    requires Retries(v, u, before + FIXED_STEP_MS) && Shaped(u)
    ensures Timely(u, before + FIXED_STEP_MS) && (QuickWorker(u, longest) ==> NoLater(w, u, longest))
  {
    CompletionAges(w, v, before, longest);
    RetryAges(v, u, before + FIXED_STEP_MS, longest);
  }

  // ----- Whole steps -----

  predicate Lowering(s: Sim, deadline: int, longest: nat) {
    && AllTimely(s.pool.workers, s.elapsedMs)
    && AllShaped(s.pool.workers)
    && DueBy(s.pool.workers, s.config.senderWorkers, deadline, longest)
  }

  /** The workers when the retries of a step have started, before a finished scale-down is applied. */
  function Aged(src: OutcomeSource, s: Sim): seq<Worker> {
    var env := EnvOf(src, Begin(s));
    Passed(env, Begin(s).pool).workers
  }

  /** Worker by worker, us is what ws has become one step later. */
  predicate AgedTo(ws: seq<Worker>, us: seq<Worker>, now: nat, longest: nat) {
    && |us| == |ws| && AllShaped(ws) && AllTimely(us, now)
    && forall i :: 0 <= i < |ws| ==> QuickWorker(us[i], longest) ==> NoLater(ws[i], us[i], longest)
  }

  lemma AllAge(ws: seq<Worker>, vs: seq<Worker>, us: seq<Worker>, before: nat, longest: nat)
    requires |ws| == |vs| == |us| && AllTimely(ws, before) && AllShaped(vs) && AllShaped(us)
    requires forall i :: 0 <= i < |ws| ==> Completes(ws[i], vs[i], before + FIXED_STEP_MS)
    requires forall i :: 0 <= i < |ws| ==> Retries(vs[i], us[i], before + FIXED_STEP_MS)
    ensures AgedTo(ws, us, before + FIXED_STEP_MS, longest)
  {
    forall i | 0 <= i < |ws|
      ensures Shaped(us[i]) && Shaped(ws[i]) && Timely(us[i], before + FIXED_STEP_MS)
      ensures QuickWorker(us[i], longest) ==> NoLater(ws[i], us[i], longest)
    {
      WorkerAges(ws[i], vs[i], us[i], before, longest);
    }
  }

  /** The fields of a pool's workers fit their states. */
  lemma PassShapes(p: Pool)
    requires PoolInv(p)
    ensures AllShaped(p.workers)
  {
  }

  /** Both passes, on values. */
  lemma PassedAges(env: Env, p: Pool, before: nat, longest: nat)
    requires PoolInv(p) && AllTimely(p.workers, before) && env.now == before + FIXED_STEP_MS
    ensures AgedTo(p.workers, Passed(env, p).workers, env.now, longest)
  {
    var completed := CompleteDue(env, p);
    PassesShaped(env, p);
    CompleteDueRelates(env, p);
    RetriesRelate(env, completed);
    AllAge(p.workers, completed.workers, Passed(env, p).workers, before, longest);
  }

  lemma PassesShaped(env: Env, p: Pool)
    requires PoolInv(p)
    ensures AllShaped(CompleteDue(env, p).workers) && AllShaped(Passed(env, p).workers)
  {
    CompleteDueKeeps(env, p);
    PassShapes(CompleteDue(env, p));
    PassesKeep(env, p);
    PassShapes(Passed(env, p));
  }

  lemma AgedWorkers(src: OutcomeSource, s: Sim, longest: nat)
    requires SimInv(s) && AllTimely(s.pool.workers, s.elapsedMs)
    ensures AgedTo(s.pool.workers, Aged(src, s), s.elapsedMs + FIXED_STEP_MS, longest)
  {
    var b := Begin(s);
    BegunPool(s);
    PassedAges(EnvOf(src, b), b.pool, s.elapsedMs, longest);
  }

  lemma BegunPool(s: Sim)
    requires PoolInv(s.pool)
    ensures PoolInv(Begin(s).pool) && Begin(s).pool.workers == s.pool.workers
  {
  }

  /** From the aged workers to the end of the step: a finished tail goes, some available ones are loaded. */
  predicate Loads(us: seq<Worker>, rs: seq<Worker>, target: nat, now: nat) {
    && Ranked(us, target) && Ranked(rs, target)
    && |rs| == (if ScaleDownReady(us) then target else |us|)
    && forall i :: 0 <= i < |rs| ==> rs[i] == us[i] || (i < target && Available(us[i]) && JustStarted(rs[i], now))
  }

  lemma OpenedWorkers(src: OutcomeSource, s: Sim)
    requires SimInv(s)
    ensures var us, target, ws := Aged(src, s), s.config.senderWorkers, Opened(src, s).pool.workers;
      && Ranked(us, target) && target <= |us| && ws == if ScaleDownReady(us) then us[..target] else us
  {
    var b := Begin(s);
    var env := EnvOf(src, b);
    PassesKeep(env, b.pool);
    SeatsRanked(b.pool.workers, Passed(env, b.pool).workers, s.config.senderWorkers);
    FinalizeKeeps(Passed(env, b.pool), s.config.senderWorkers);
  }

  lemma LoadsFrom(us: seq<Worker>, p: Pool, q: Pool, target: nat, now: nat)
    requires Ranked(us, target) && Ranked(q.workers, target) && OnlyLoads(p, q, now)
    requires p.workers == if ScaleDownReady(us) then us[..target] else us
    ensures Loads(us, q.workers, target, now)
  {
  }

  lemma StepWorkers(src: OutcomeSource, s: Sim)
    requires SimInv(s)
    ensures var r := AdvanceStep(src, s);
      && r.config == s.config && r.elapsedMs == s.elapsedMs + FIXED_STEP_MS
      && Loads(Aged(src, s), r.pool.workers, s.config.senderWorkers, r.elapsedMs)
  {
    TrailKeeps(src, s);
    OpenedKeeps(src, s);
    OpenedWorkers(src, s);
    LoadsFrom(Aged(src, s), Opened(src, s).pool, AdvanceStep(src, s).pool, s.config.senderWorkers,
              s.elapsedMs + FIXED_STEP_MS);
  }

  /** Some retiring worker still has work, or none is retiring. */
  predicate NotReady(ws: seq<Worker>) { !ScaleDownReady(ws) }

  predicate DueBy(ws: seq<Worker>, target: nat, deadline: int, longest: nat)
    requires AllShaped(ws)
  {
    forall i :: target <= i < |ws| && !ws[i].state.Idle? ==> Deadline(ws[i], longest) <= deadline
  }

  lemma LoadedTimely(us: seq<Worker>, rs: seq<Worker>, target: nat, now: nat)
    requires Loads(us, rs, target, now) && AllTimely(us, now) && AllShaped(rs)
    ensures AllTimely(rs, now)
  {
    forall i | 0 <= i < |rs| ensures Timely(rs[i], now) {
      assert Shaped(rs[i]);
    }
  }

  lemma LoadedNotReady(us: seq<Worker>, rs: seq<Worker>, target: nat, now: nat)
    requires Loads(us, rs, target, now)
    ensures NotReady(rs)
  {
    if |rs| > target {
      assert us[target].retiring;
      var j :| 0 <= j < |us| && us[j].retiring && !us[j].state.Idle?;
      assert rs[j] == us[j];
    }
  }

  lemma LoadedDueBy(ws: seq<Worker>, us: seq<Worker>, rs: seq<Worker>, target: nat, now: nat, deadline: int,
                    longest: nat)
    requires AgedTo(ws, us, now, longest) && Loads(us, rs, target, now) && AllShaped(rs)
    requires DueBy(ws, target, deadline, longest) && Quick(rs, longest)
    ensures DueBy(rs, target, deadline, longest)
  {
    forall i | target <= i < |rs| && !rs[i].state.Idle? ensures Deadline(rs[i], longest) <= deadline {
      assert rs[i] == us[i];
      assert QuickWorker(us[i], longest);
    }
  }

  lemma StepLowers(src: OutcomeSource, s: Sim, deadline: int, longest: nat)
    requires SimInv(s) && Lowering(s, deadline, longest)
    ensures var r := AdvanceStep(src, s);
      && AllTimely(r.pool.workers, r.elapsedMs) && NotReady(r.pool.workers)
      && (Quick(r.pool.workers, longest) ==> Lowering(r, deadline, longest))
  {
    var (us, r) := (Aged(src, s), AdvanceStep(src, s));
    var (target, now) := (s.config.senderWorkers, s.elapsedMs + FIXED_STEP_MS);
    StepKeeps(src, s);
    AgedWorkers(src, s, longest);
    StepWorkers(src, s);
    LoadedTimely(us, r.pool.workers, target, now);
    LoadedNotReady(us, r.pool.workers, target, now);
    if Quick(r.pool.workers, longest) {
      LoadedDueBy(s.pool.workers, us, r.pool.workers, target, now, deadline, longest);
    }
  }

  /** Calls that leave the number of sender workers alone. */
  predicate KeepsTarget(actions: seq<Action>) {
    forall k :: 0 <= k < |actions| ==>
      && !actions[k].ResetAll?
      && (actions[k].Update? ==> actions[k].patch.senderWorkers.None?)
  }

  lemma QuietKeepsWorkers(step: Sim -> Sim, s: Sim, a: Action)
    requires !a.Step? && KeepsTarget([a])
    ensures var r := Act(step, s, a);
      r.pool == s.pool && r.elapsedMs == s.elapsedMs && r.config.senderWorkers == s.config.senderWorkers
  {
    assert [a][0] == a;
  }

  /** Every state on the way gave its attempts at most longest. */
  predicate QuickThroughout(step: Sim -> Sim, s: Sim, actions: seq<Action>, longest: nat) {
    forall k :: 0 <= k <= |actions| ==> Quick(Run(step, s, actions[..k]).pool.workers, longest)
  }

  /** What a step does to a scale-down under way. */
  ghost predicate Lowers(s: Sim, r: Sim) {
    && r.config == s.config && r.elapsedMs == s.elapsedMs + FIXED_STEP_MS
    && forall deadline: int, longest: nat :: Lowering(s, deadline, longest) ==>
         && AllTimely(r.pool.workers, r.elapsedMs) && NotReady(r.pool.workers)
         && (Quick(r.pool.workers, longest) ==> Lowering(r, deadline, longest))
  }

  ghost predicate StepsLower(step: Sim -> Sim) {
    forall s {:trigger step(s)} :: SimInv(s) ==> Lowers(s, step(s))
  }

  lemma OneStepLowers(src: OutcomeSource, s: Sim)
    requires SimInv(s)
    ensures Lowers(s, AdvanceStep(src, s))
  {
    StepWorkers(src, s);
    var r := AdvanceStep(src, s);
    forall deadline: int, longest: nat | Lowering(s, deadline, longest)
      ensures AllTimely(r.pool.workers, r.elapsedMs) && NotReady(r.pool.workers)
      ensures Quick(r.pool.workers, longest) ==> Lowering(r, deadline, longest)
    {
      StepLowers(src, s, deadline, longest);
    }
  }

  lemma SteppingLowers(src: OutcomeSource)
    ensures StepsLower(Stepping(src)) && StepsWell(Stepping(src))
  {
    SteppingKeeps(src);
    forall s | SimInv(s) ensures Lowers(s, Stepping(src)(s)) { OneStepLowers(src, s); }
  }

  lemma PrefixesQuick(step: Sim -> Sim, s: Sim, actions: seq<Action>, n: nat, longest: nat)
    requires QuickThroughout(step, s, actions, longest) && n <= |actions|
    ensures QuickThroughout(step, s, actions[..n], longest)
    ensures Quick(Run(step, s, actions[..n]).pool.workers, longest)
  {
    forall k | 0 <= k <= n ensures Quick(Run(step, s, actions[..n][..k]).pool.workers, longest) {
      assert actions[..n][..k] == actions[..k];
    }
  }

  lemma {:induction false} RunLowers(step: Sim -> Sim, s: Sim, actions: seq<Action>, deadline: int, longest: nat)
    requires SimInv(s) && Lowering(s, deadline, longest) && KeepsTarget(actions)
    requires StepsWell(step) && StepsLower(step) && QuickThroughout(step, s, actions, longest)
    ensures var r := Run(step, s, actions);
      && SimInv(r) && Lowering(r, deadline, longest)
      && r.config.senderWorkers == s.config.senderWorkers
      && r.elapsedMs == s.elapsedMs + FIXED_STEP_MS * CountSteps(actions)
      && (CountSteps(actions) > 0 ==> NotReady(r.pool.workers))
  {
    RunKeeps(step, s, actions);
    if |actions| > 0 {
      var before, last := actions[..|actions| - 1], actions[|actions| - 1];
      PrefixesQuick(step, s, actions, |actions| - 1, longest);
      PrefixesQuick(step, s, actions, |actions|, longest);
      assert actions[..|actions|] == actions;
      RunLowers(step, s, before, deadline, longest);
      var q := Run(step, s, before);
      if last.Step? {
        assert Lowers(q, step(q));
      } else {
        assert KeepsTarget([last]) by { assert last == actions[|actions| - 1]; }
        QuietKeepsWorkers(step, q, last);
      }
    }
  }

  /** Both backoffs and three attempts: the farthest any deadline can be. */
  lemma DeadlineWithin(w: Worker, now: nat, longest: nat)
    requires Shaped(w) && Timely(w, now) && longest >= FIXED_STEP_MS
    requires w.state.InFlight? ==> AtLeastAStep(w.attemptLatencyMs) <= longest
    ensures !w.state.Idle? ==> now < Deadline(w, longest) <= now + 3 * longest + 880
  {
    if w.batch.Some? {
      BothDelays(w.batch.value.sequence);
    }
  }

  /** Some bound on all deadlines of a state. */
  lemma MaxDeadline(s: Sim, longest: nat) returns (far: int)
    requires AllTimely(s.pool.workers, s.elapsedMs)
    ensures Lowering(s, far, longest)
  {
    far := 0;
    var i := 0;
    while i < |s.pool.workers|
      invariant 0 <= i <= |s.pool.workers|
      invariant forall j :: 0 <= j < i ==> Deadline(s.pool.workers[j], longest) <= far
    {
      if Deadline(s.pool.workers[i], longest) > far { far := Deadline(s.pool.workers[i], longest); }
      i := i + 1;
    }
  }

  lemma MarkedTimely(ws: seq<Worker>, requested: Pos, now: nat)
    requires AllTimely(ws, now)
    ensures AllTimely(Marked(ws, requested), now)
  {
    forall i | 0 <= i < |ws| ensures Shaped(Marked(ws, requested)[i]) && Timely(Marked(ws, requested)[i], now) {
      assert Shaped(ws[i]) && Timely(ws[i], now);
    }
  }

  lemma RescaledTimely(p: Pool, now: nat, requested: Pos)
    requires AllTimely(p.workers, now) && |p.workers| > 0
    ensures AllTimely(RequestCount(p, requested).workers, now)
  {
    var marked := p.(workers := Marked(p.workers, requested));
    MarkedTimely(p.workers, requested, now);
    if requested < |p.workers| { ActivePrefix(marked.workers, requested); }
  }

  lemma ActTimely(step: Sim -> Sim, s: Sim, a: Action)
    requires SimInv(s) && AllTimely(s.pool.workers, s.elapsedMs) && StepsLower(step)
    ensures AllTimely(Act(step, s, a).pool.workers, Act(step, s, a).elapsedMs)
  {
    if a.Step? {
      var far := MaxDeadline(s, 0);
      assert Lowers(s, step(s));
    } else if a.Update? && a.patch.senderWorkers.Some? {
      RescaledTimely(s.pool, s.elapsedMs, a.patch.senderWorkers.value);
    }
  }

  lemma {:induction false} RunTimely(step: Sim -> Sim, s: Sim, actions: seq<Action>)
    requires SimInv(s) && AllTimely(s.pool.workers, s.elapsedMs) && StepsLower(step) && StepsWell(step)
    ensures AllTimely(Run(step, s, actions).pool.workers, Run(step, s, actions).elapsedMs)
  {
    if |actions| > 0 {
      var before := actions[..|actions| - 1];
      RunTimely(step, s, before);
      RunKeeps(step, s, before);
      ActTimely(step, Run(step, s, before), actions[|actions| - 1]);
    }
  }

  /** Nothing is overdue in any reachable state. */
  lemma ReachedTimely(src: OutcomeSource, config: Config, readerCapacity: nat, senderCapacity: nat,
                      actions: seq<Action>)
    ensures var s := Reached(src, config, readerCapacity, senderCapacity, actions);
      SimInv(s) && AllTimely(s.pool.workers, s.elapsedMs)
  {
    ReachedKeeps(src, config, readerCapacity, senderCapacity, actions);
    SteppingLowers(src);
    InitialKeeps(config, readerCapacity, senderCapacity);
    RunTimely(Stepping(src), Initial(config, readerCapacity, senderCapacity), actions);
  }

  lemma StartsLowering(s: Sim, longest: nat)
    requires SimInv(s) && AllTimely(s.pool.workers, s.elapsedMs)
    requires longest >= FIXED_STEP_MS && Quick(s.pool.workers, longest)
    ensures Lowering(s, s.elapsedMs + 3 * longest + 880, longest)
  {
    forall i | 0 <= i < |s.pool.workers|
      ensures !s.pool.workers[i].state.Idle? ==> Deadline(s.pool.workers[i], longest) <= s.elapsedMs + 3 * longest + 880
    {
      assert Shaped(s.pool.workers[i]) && QuickWorker(s.pool.workers[i], longest);
      DeadlineWithin(s.pool.workers[i], s.elapsedMs, longest);
    }
  }

  lemma AllRetired(r: Sim, deadline: int, longest: nat)
    requires Ranked(r.pool.workers, r.config.senderWorkers) && Lowering(r, deadline, longest)
    requires NotReady(r.pool.workers) && r.elapsedMs >= deadline
    requires longest >= FIXED_STEP_MS && Quick(r.pool.workers, longest)
    ensures |r.pool.workers| == r.config.senderWorkers
  {
    var ws := r.pool.workers;
    if |ws| > r.config.senderWorkers {
      assert ws[r.config.senderWorkers].retiring;
      var i :| 0 <= i < |ws| && ws[i].retiring && !ws[i].state.Idle?;
      assert QuickWorker(ws[i], longest);
      DeadlineWithin(ws[i], r.elapsedMs, longest);
      assert false;
    }
  }

  lemma RetiresInTime(step: Sim -> Sim, s: Sim, actions: seq<Action>, longest: nat)
    requires SimInv(s) && AllTimely(s.pool.workers, s.elapsedMs) && KeepsTarget(actions)
    requires StepsWell(step) && StepsLower(step)
    requires longest >= FIXED_STEP_MS && QuickThroughout(step, s, actions, longest)
    requires FIXED_STEP_MS * CountSteps(actions) >= 3 * longest + 880
    ensures var r := Run(step, s, actions);
      && |r.pool.workers| == r.config.senderWorkers == s.config.senderWorkers
      && forall i :: 0 <= i < |r.pool.workers| ==> !r.pool.workers[i].retiring
  {
    var deadline := s.elapsedMs + 3 * longest + 880;
    PrefixesQuick(step, s, actions, 0, longest);
    PrefixesQuick(step, s, actions, |actions|, longest);
    assert actions[..0] == [] && actions[..|actions|] == actions;
    StartsLowering(s, longest);
    RunLowers(step, s, actions, deadline, longest);
    AllRetired(Run(step, s, actions), deadline, longest);
  }

  /** Scale-down is bounded: once the target is left alone, with every attempt given at most longest
      (10 ms or more), any run of steps worth 3 * longest + 880 ms, interleaved with any other calls, ends
      with no retiring worker left and exactly the target number of workers, whatever the outcomes. */
  lemma BoundedScaleDown(src: OutcomeSource, s: Sim, actions: seq<Action>, longest: nat)
    requires SimInv(s) && AllTimely(s.pool.workers, s.elapsedMs) && KeepsTarget(actions)
    requires longest >= FIXED_STEP_MS && QuickThroughout(Stepping(src), s, actions, longest)
    requires FIXED_STEP_MS * CountSteps(actions) >= 3 * longest + 880
    ensures var r := Run(Stepping(src), s, actions);
      && |r.pool.workers| == r.config.senderWorkers == s.config.senderWorkers
      && forall i :: 0 <= i < |r.pool.workers| ==> !r.pool.workers[i].retiring
  {
    SteppingLowers(src);
    RetiresInTime(Stepping(src), s, actions, longest);
  }

  /** At all times the retiring workers are exactly those at positions from the target on. */
  lemma RetiringAreTheTail(src: OutcomeSource, config: Config, readerCapacity: nat, senderCapacity: nat,
                           actions: seq<Action>)
    ensures var s := Reached(src, config, readerCapacity, senderCapacity, actions);
      && s.config.senderWorkers <= |s.pool.workers|
      && forall i :: 0 <= i < |s.pool.workers| ==>
           s.pool.workers[i].workerId == i && (s.pool.workers[i].retiring <==> i >= s.config.senderWorkers)
  {
    ReachedKeeps(src, config, readerCapacity, senderCapacity, actions);
  }
}
