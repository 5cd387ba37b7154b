/** Which attempts are followed by another one, and when: the simulator's retry policy, for every reached state and
    every outcome source. */
module RetryPolicy {
  import opened Prelude
  import opened SimTypes
  import opened Channels
  import opened SenderWorkers
  import opened PoolHistory
  import opened PoolProofs
  import opened Simulation
  import opened SimulationProofs
  import opened SimulationTheorems
  import opened ScaleDown

  // ----- Which attempts are followed by another -----

  /** The outcome of an attempt that is worth another one: no response at all, or one of seven status codes. */
  predicate Transient(kind: OutcomeKind) {
    kind.Response? ==>
      || kind.statusCode == 408 || kind.statusCode == 425 || kind.statusCode == 429 || kind.statusCode == 500
      || kind.statusCode == 502 || kind.statusCode == 503 || kind.statusCode == 504
  }

  /** A batch is attempted three times at most. */
  predicate CallsForAnother(kind: OutcomeKind, attempt: nat) { attempt < 3 && Transient(kind) }

  predicate Delivered(kind: OutcomeKind) { kind.Response? && 200 <= kind.statusCode <= 299 }

  function GivenUp(e: Event): nat {
    if e.Completed? && !Delivered(e.kind) && !CallsForAnother(e.kind, e.attempt) then 1 else 0
  }

  lemma FinalUnlessCalledFor(kind: OutcomeKind, attempt: nat)
    ensures Final(kind, attempt) <==> !CallsForAnother(kind, attempt)
    ensures Succeeded(kind) <==> Delivered(kind)
  {
  }

  /** In every reached state, an attempt that has ended is followed by the next attempt of its batch, or its worker
      waits in backoff to make it, if and only if it was one of the first two and ended without a response or with
      one of the seven status codes. */
  lemma RetriedExactlyWhenTransient(src: OutcomeSource, config: Config, readerCapacity: nat, senderCapacity: nat,
                                    actions: seq<Action>, i: nat)
    requires var h := Reached(src, config, readerCapacity, senderCapacity, actions).pool.history;
             i < |h| && h[i].Completed?
    ensures var p := Reached(src, config, readerCapacity, senderCapacity, actions).pool;
      var e := p.history[i];
      (|| (exists j :: i < j < |p.history| && p.history[j] == Started(e.batch, e.attempt + 1))
       || (exists k :: 0 <= k < |p.workers| && WaitsAfter(p.workers[k], e.batch, e.attempt)))
      <==> CallsForAnother(e.kind, e.attempt)
  {
    ReachedKeeps(src, config, readerCapacity, senderCapacity, actions);
    var p := Reached(src, config, readerCapacity, senderCapacity, actions).pool;
    assert FollowedUp(p.workers, p.history, i);
    FinalUnlessCalledFor(p.history[i].kind, p.history[i].attempt);
  }

  /** Attempt number a of the batch ended among the first j events, in a way that calls for another one. */
  predicate CalledForBefore(h: seq<Event>, j: nat, b: Batch, a: int)
    requires j <= |h|
  {
    exists i :: 0 <= i < j && Ends(h[i], b, a) && CallsForAnother(h[i].kind, h[i].attempt)
  }

  lemma StartsAreCalledFor(ws: seq<Worker>, h: seq<Event>, j: nat)
    requires RetriesOk(ws, h) && j < |h| && h[j].Started? && h[j].attempt > 1
    ensures CalledForBefore(h, j, h[j].batch, h[j].attempt - 1)
  {
    assert Caused(h, j);
    var i :| 0 <= i < j && Ends(h[i], h[j].batch, h[j].attempt - 1);
    assert FollowedUp(ws, h, i);
    FinalUnlessCalledFor(h[i].kind, h[i].attempt);
  }

  /** And conversely no attempt after a batch's first starts without such an end of the one before it. */
  lemma RetriesAreCalledFor(src: OutcomeSource, config: Config, readerCapacity: nat, senderCapacity: nat,
                            actions: seq<Action>, j: nat)
    requires var h := Reached(src, config, readerCapacity, senderCapacity, actions).pool.history;
             j < |h| && h[j].Started? && h[j].attempt > 1
    ensures var h := Reached(src, config, readerCapacity, senderCapacity, actions).pool.history;
            CalledForBefore(h, j, h[j].batch, h[j].attempt - 1)
  {
    ReachedKeeps(src, config, readerCapacity, senderCapacity, actions);
    var p := Reached(src, config, readerCapacity, senderCapacity, actions).pool;
    StartsAreCalledFor(p.workers, p.history, j);
  }

  /** The batches counted as given up are exactly the other ends without a status in 200 to 299. */
  lemma GivenUpAreCounted(src: OutcomeSource, config: Config, readerCapacity: nat, senderCapacity: nat,
                          actions: seq<Action>)
    ensures var p := Reached(src, config, readerCapacity, senderCapacity, actions).pool;
      p.totals.terminalBatches == Sum(p.history, GivenUp)
  {
    ReachedKeeps(src, config, readerCapacity, senderCapacity, actions);
    var p := Reached(src, config, readerCapacity, senderCapacity, actions).pool;
    forall i | 0 <= i < |p.history| ensures IsTerminal(p.history[i]) == GivenUp(p.history[i]) {
      if p.history[i].Completed? { FinalUnlessCalledFor(p.history[i].kind, p.history[i].attempt); }
    }
    SumEqual(p.history, IsTerminal, GivenUp);
  }

  // ----- When -----

  /** The pauses before a second and before a third attempt, in ms: a fifth around 250 and around 500. */
  predicate Pauses(attempt: nat, ms: int) {
    if attempt == 1 then 200 <= ms <= 300 else attempt == 2 && 400 <= ms <= 600
  }

  /** What becomes of a worker with a batch by the end of the step that ends at now; None: it has been removed. */
  predicate Becomes(w: Worker, u: Option<Worker>, now: nat)
    requires Shaped(w) && w.batch.Some?
  {
    match w.state
    case InFlight =>
      var kind := w.outcome.value.kind;
      if w.completeAtMs > now then u == Some(w)
      else if CallsForAnother(kind, w.attempt) then
        && u.Some? && WaitsAfter(u.value, w.batch.value, w.attempt) && Pauses(w.attempt, u.value.retryAtMs - now)
      else
        || u.None? || (u.value.state.InFlight? && u.value.attempt == 1)
        || (u.value.state.Idle? && (u.value.terminalError <==> !Delivered(kind)))
    case Backoff =>
      if w.retryAtMs > now then u == Some(w)
      else u.Some? && u.value.state.InFlight? && u.value.batch == w.batch && u.value.attempt == w.attempt + 1
    case Idle => true
  }

  lemma SettledBecomes(w: Worker, now: nat)
    requires Shaped(w) && w.state.InFlight?
    ensures var u := Settled(w, now);
      if CallsForAnother(w.outcome.value.kind, w.attempt)
      then WaitsAfter(u, w.batch.value, w.attempt) && Pauses(w.attempt, u.retryAtMs - now)
      else u.state.Idle? && (u.terminalError <==> !Delivered(w.outcome.value.kind))
  {
    FinalUnlessCalledFor(w.outcome.value.kind, w.attempt);
  }

  /** Through both passes. */
  lemma PassesBecome(w: Worker, v: Worker, u: Worker, now: nat)
    requires Shaped(w) && Shaped(v) && w.batch.Some? && Completes(w, v, now) && Retries(v, u, now)
    ensures Becomes(w, Some(u), now)
  {
    if w.state.InFlight? && w.completeAtMs <= now { SettledBecomes(w, now); }
  }

  lemma LoadsBecome(us: seq<Worker>, rs: seq<Worker>, target: nat, now: nat, i: nat, w: Worker)
    requires Loads(us, rs, target, now) && i < |us| && Shaped(w) && w.batch.Some? && Becomes(w, Some(us[i]), now)
    ensures Becomes(w, if i < |rs| then Some(rs[i]) else None, now)
  {
  }

  lemma AgedBecomes(src: OutcomeSource, s: Sim, i: nat)
    requires PoolInv(s.pool) && i < |s.pool.workers| && s.pool.workers[i].batch.Some?
    ensures Shaped(s.pool.workers[i])
    ensures |Aged(src, s)| == |s.pool.workers| && Becomes(s.pool.workers[i], Some(Aged(src, s)[i]), s.elapsedMs + 10)
  {
    var b := Begin(s);
    var env := EnvOf(src, b);
    var done := CompleteDue(env, b.pool);
    BegunPool(s);
    PassesShaped(env, b.pool);
    CompleteDueRelates(env, b.pool);
    RetriesRelate(env, done);
    PassesBecome(s.pool.workers[i], done.workers[i], Aged(src, s)[i], s.elapsedMs + 10);
  }

  /** In a step that ends at now, every worker with a batch keeps it untouched until its time has come; an attempt
      that is due ends, and its worker waits for a time in the bounds of its retry, or is done with the batch, as the
      outcome calls for; and a retry that is due starts. */
  lemma StepMovesWorker(src: OutcomeSource, s: Sim, i: nat)
    requires SimInv(s) && i < |s.pool.workers| && s.pool.workers[i].batch.Some?
    ensures Shaped(s.pool.workers[i])
    ensures var rs := AdvanceStep(src, s).pool.workers;
      Becomes(s.pool.workers[i], if i < |rs| then Some(rs[i]) else None, s.elapsedMs + 10)
  {
    AgedBecomes(src, s, i);
    StepWorkers(src, s);
    LoadsBecome(Aged(src, s), AdvanceStep(src, s).pool.workers, s.config.senderWorkers, s.elapsedMs + 10, i,
                s.pool.workers[i]);
  }
}
