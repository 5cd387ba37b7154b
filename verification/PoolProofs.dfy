/** Every operation of the sender workers is a legal move, or leaves the history alone; so the history's
    account of the pool holds in every reachable state. */
module PoolProofs {
  import opened Prelude
  import opened SimTypes
  import opened Channels
  import opened SenderWorkers
  import opened PoolHistory

  /** The invariant of the pool: its counters are exactly the sums over the history. */
  ghost predicate PoolInv(p: Pool) {
    && HistoryInv(p.workers, p.history)
    && p.totals == CountsOf(p.history) && LatestIs(p.latest, LastEnd(p.history))
    && p.nextIndex < |p.workers|
  }

  datatype HttpOffset = HttpOffset(
    started: int, retryStarted: int, completed: int, succeeded: int, rejected: int, terminalFailed: int)

  /** How far the volumes over the whole history are ahead of the step's activity. */
  function Ahead(p: Pool): HttpOffset {
    var v := VolumesOf(p.history);
    HttpOffset(v.started - p.http.started, v.retryStarted - p.http.retryStarted,
               v.completed - p.http.completed, v.succeeded - p.http.succeeded,
               v.rejected - p.http.rejected, v.terminalFailed - p.http.terminalFailed)
  }

  /** The same workers in the same places, with the same retirement marks. */
  predicate SameSeats(ws: seq<Worker>, us: seq<Worker>) {
    |ws| == |us|
    && forall i :: 0 <= i < |ws| ==> us[i].workerId == ws[i].workerId && us[i].retiring == ws[i].retiring
  }

  function AcceptMove(env: Env, p: Pool, i: nat, b: Batch): Move
    requires i < |p.workers|
  {
    Move(p.workers, p.history, i, Accept(env, p, i, b).workers[i], Started(b, 1))
  }

  lemma AcceptIsMove(env: Env, p: Pool, i: nat, b: Batch)
    requires PoolInv(p) && i < |p.workers| && p.workers[i].state.Idle? && b.sequence == |FirstAttempts(p.history)|
    ensures AcceptMove(env, p, i, b).Accepts()
    ensures Accept(env, p, i, b).workers == AcceptMove(env, p, i, b).Workers()
    ensures Accept(env, p, i, b).history == AcceptMove(env, p, i, b).History()
  {
    assert Shaped(p.workers[i]);
  }

  lemma AcceptKeeps(env: Env, p: Pool, i: nat, b: Batch)
    requires PoolInv(p) && i < |p.workers| && p.workers[i].state.Idle? && b.sequence == |FirstAttempts(p.history)|
    ensures var q := Accept(env, p, i, b);
      && PoolInv(q) && Ahead(q) == Ahead(p) && SameSeats(p.workers, q.workers)
      && q.nextIndex == p.nextIndex
      && FirstAttempts(q.history) == FirstAttempts(p.history) + [b]
      && (forall j :: 0 <= j < |p.workers| && j != i ==> q.workers[j] == p.workers[j])
      && q.workers[i].state.InFlight?
  {
    AcceptIsMove(env, p, i, b);
    MoveKeeps(AcceptMove(env, p, i, b));
    StartCounts(p.totals, p.history, b, 1, false);
    LastEndAppend(p.history, Started(b, 1));
    VolumesAppend(p.history, Started(b, 1));
  }

  function RetryMove(env: Env, p: Pool, i: nat): Move
    requires i < |p.workers| && p.workers[i].batch.Some?
  {
    var a := p.workers[i].attempt + 1;
    Move(p.workers, p.history, i, StartAttempt(env, p, i, a).workers[i], Started(p.workers[i].batch.value, a))
  }

  lemma RetryIsMove(env: Env, p: Pool, i: nat)
    requires i < |p.workers| && p.workers[i].state.Backoff? && Shaped(p.workers[i])
    ensures RetryMove(env, p, i).Retries()
    ensures var q := StartAttempt(env, p, i, p.workers[i].attempt + 1);
      && q.workers == RetryMove(env, p, i).Workers() && q.history == RetryMove(env, p, i).History()
      && SameSeats(p.workers, q.workers) && q.nextIndex == p.nextIndex && Ahead(q) == Ahead(p)
  {
    VolumesAppend(p.history, RetryMove(env, p, i).e);
  }

  lemma StartCounts(t: Totals, h: seq<Event>, b: Batch, attempt: Pos, ambiguous: bool)
    requires t == CountsOf(h) && (attempt > 1 ==> (ambiguous <==> AmbiguousBefore(h, b.sequence)))
    ensures StartTotals(t, b, attempt, ambiguous) == CountsOf(h + [Started(b, attempt)])
  {
    CountsAppend(h, Started(b, attempt));
    RiskAppend(h, Started(b, attempt));
  }

  lemma RetryKeeps(env: Env, p: Pool, i: nat)
    requires PoolInv(p) && i < |p.workers| && p.workers[i].state.Backoff?
    ensures Shaped(p.workers[i])
    ensures PassKeeps(p, StartAttempt(env, p, i, p.workers[i].attempt + 1))
  {
    var w := p.workers[i];
    assert Shaped(w) && OwnerOk(w, p.history);
    RetryIsMove(env, p, i);
    StartCounts(p.totals, p.history, w.batch.value, w.attempt + 1, w.hadAmbiguousOutcome);
    LastEndAppend(p.history, RetryMove(env, p, i).e);
    MoveKeeps(RetryMove(env, p, i));
  }

  lemma OutcomeCounts(t: Totals, w: Worker, h: seq<Event>)
    requires Shaped(w) && w.state.InFlight? && t == CountsOf(h) && OwnerOk(w, h)
    ensures CompletionTotals(t, w) == CountsOf(h + [CompletionEvent(w)])
  {
    CountsAppend(h, CompletionEvent(w));
    RiskAppend(h, CompletionEvent(w));
  }

  lemma OutcomeVolumes(a: HttpActivity, w: Worker, h: seq<Event>)
    requires Shaped(w) && w.state.InFlight?
    ensures var (v, v', a') := (VolumesOf(h), VolumesOf(h + [CompletionEvent(w)]), CompletionActivity(a, w));
      && v'.started - a'.started == v.started - a.started
      && v'.retryStarted - a'.retryStarted == v.retryStarted - a.retryStarted
      && v'.completed - a'.completed == v.completed - a.completed
      && v'.succeeded - a'.succeeded == v.succeeded - a.succeeded
      && v'.rejected - a'.rejected == v.rejected - a.rejected
      && v'.terminalFailed - a'.terminalFailed == v.terminalFailed - a.terminalFailed
  {
    VolumesAppend(h, CompletionEvent(w));
  }

  function CompletionMove(env: Env, p: Pool, i: nat): Move
    requires i < |p.workers| && Shaped(p.workers[i]) && p.workers[i].state.InFlight?
  {
    Move(p.workers, p.history, i, Settled(p.workers[i], env.now), CompletionEvent(p.workers[i]))
  }

  lemma CompletionIsMove(env: Env, p: Pool, i: nat)
    requires i < |p.workers| && Shaped(p.workers[i]) && p.workers[i].state.InFlight?
    ensures CompletionMove(env, p, i).Completes()
    ensures SameSeats(p.workers, CompletionMove(env, p, i).Workers())
    ensures Ahead(CompleteAttempt(env, p, i)) == Ahead(p)
  {
    OutcomeVolumes(p.http, p.workers[i], p.history);
  }

  lemma CompletionKeeps(env: Env, p: Pool, i: nat)
    requires PoolInv(p) && i < |p.workers| && p.workers[i].state.InFlight?
    ensures Shaped(p.workers[i])
    ensures PassKeeps(p, CompleteAttempt(env, p, i))
  {
    assert Shaped(p.workers[i]) && OwnerOk(p.workers[i], p.history);
    CompletionIsMove(env, p, i);
    OutcomeCounts(p.totals, p.workers[i], p.history);
    LastEndAppend(p.history, CompletionEvent(p.workers[i]));
    MoveKeeps(CompletionMove(env, p, i));
  }

  /** What completing and retrying keep, one by one and for a whole pass over the workers. */
  ghost predicate PassKeeps(p: Pool, q: Pool) {
    && PoolInv(q) && Ahead(q) == Ahead(p) && SameSeats(p.workers, q.workers)
    && q.nextIndex == p.nextIndex
    && FirstAttempts(q.history) == FirstAttempts(p.history)
  }

  /** What every turn keeps, the pass keeps. */
  lemma {:induction false} PassKeepsAll(turn: (Pool, nat) -> Pool, p: Pool, k: nat, n: nat, good: Pool -> bool)
    requires good(p) && forall q, i {:trigger turn(q, i)} :: good(q) ==> good(turn(q, i))
    ensures good(Pass(turn, p, k, n))
    decreases n - k
  {
    if k < n {
      PassKeepsAll(turn, turn(p, k), k + 1, n, good);
    }
  }

  lemma PassTrans(p: Pool, q: Pool, r: Pool)
    requires PassKeeps(p, q) && PassKeeps(q, r)
    ensures PassKeeps(p, r)
  {
  }

  lemma CompleteDueKeeps(env: Env, p: Pool)
    requires PoolInv(p)
    ensures PassKeeps(p, CompleteDue(env, p))
  {
    var good := q => PassKeeps(p, q);
    forall q, i | good(q) ensures good(Completing(env)(q, i)) {
      if CompleteIfDue(env, q, i) != q {
        CompletionKeeps(env, q, i);
        PassTrans(p, q, CompleteAttempt(env, q, i));
      }
    }
    PassKeepsAll(Completing(env), p, 0, |p.workers|, good);
  }

  lemma StartDueRetriesKeeps(env: Env, p: Pool)
    requires PoolInv(p)
    ensures PassKeeps(p, StartDueRetries(env, p))
  {
    var good := q => PassKeeps(p, q);
    forall q, i | good(q) ensures good(Retrying(env)(q, i)) {
      if RetryIfDue(env, q, i) != q {
        RetryKeeps(env, q, i);
        PassTrans(p, q, RetryIfDue(env, q, i));
      }
    }
    PassKeepsAll(Retrying(env), p, 0, |p.workers|, good);
  }

  // ----- Scaling leaves history and ownership alone -----

  /** Two worker lists that own the same batches in the same states. */
  predicate SameWork(ws: seq<Worker>, us: seq<Worker>) {
    |ws| == |us| && forall i :: 0 <= i < |ws| ==> us[i] == ws[i].(retiring := us[i].retiring)
  }

  lemma SameWorkWaits(ws: seq<Worker>, us: seq<Worker>, b: Batch, attempt: nat)
    requires SameWork(ws, us) && Waiting(ws, b, attempt)
    ensures Waiting(us, b, attempt)
  {
    var k :| 0 <= k < |ws| && WaitsAfter(ws[k], b, attempt);
    assert us[k] == ws[k].(retiring := us[k].retiring);
  }

  lemma SameWorkRetries(ws: seq<Worker>, us: seq<Worker>, h: seq<Event>)
    requires RetriesOk(ws, h) && SameWork(ws, us)
    ensures RetriesOk(us, h)
  {
    forall i | 0 <= i < |h| ensures FollowedUp(us, h, i) {
      assert FollowedUp(ws, h, i);
      var (b, a) := (h[i].batch, h[i].attempt);
      if Waiting(ws, b, a) { SameWorkWaits(ws, us, b, a); }
      if Waiting(us, b, a) { SameWorkWaits(us, ws, b, a); }
    }
    forall k | 0 <= k < |us| ensures InStep(us, h, k) { assert InStep(ws, h, k); }
  }

  lemma SameWorkKeeps(ws: seq<Worker>, us: seq<Worker>, h: seq<Event>)
    requires HistoryInv(ws, h) && SameWork(ws, us)
    ensures HistoryInv(us, h)
  {
    forall i | 0 <= i < |us| ensures Shaped(us[i]) && OwnerOk(us[i], h) {
      assert Shaped(ws[i]) && OwnerOk(ws[i], h);
    }
    SumSame(ws, us, IsInFlight); SumSame(ws, us, IsBackoff);
    SumSame(ws, us, IsBusy); SumSame(ws, us, OwnedTx);
    SameWorkRetries(ws, us, h);
    forall k: nat ensures OnceFor(us, h, k) {
      assert OnceFor(ws, h, k);
      SumSame(ws, us, Owns(k));
    }
  }

  /** Workers that are idle and carry nothing. */
  predicate AllIdle(ws: seq<Worker>) {
    forall i :: 0 <= i < |ws| ==> ws[i].state.Idle? && Shaped(ws[i])
  }

  lemma IdleTailWaits(ws: seq<Worker>, tail: seq<Worker>, b: Batch, attempt: nat)
    requires AllIdle(tail)
    ensures Waiting(ws + tail, b, attempt) <==> Waiting(ws, b, attempt)
  {
    var us := ws + tail;
    if Waiting(ws, b, attempt) {
      var k :| 0 <= k < |ws| && WaitsAfter(ws[k], b, attempt);
      assert us[k] == ws[k];
    }
    if Waiting(us, b, attempt) {
      var k :| 0 <= k < |us| && WaitsAfter(us[k], b, attempt);
      if k >= |ws| { assert us[k] == tail[k - |ws|]; }
    }
  }

  lemma IdleTailInStep(ws: seq<Worker>, tail: seq<Worker>, h: seq<Event>)
    requires AllIdle(tail)
    ensures AllInStep(ws, h) <==> AllInStep(ws + tail, h)
  {
    var us := ws + tail;
    forall k | |ws| <= k < |us| ensures InStep(us, h, k) { assert us[k] == tail[k - |ws|]; }
    forall k | 0 <= k < |ws| ensures InStep(us, h, k) <==> InStep(ws, h, k) { assert us[k] == ws[k]; }
    if AllInStep(us, h) {
      forall k | 0 <= k < |ws| ensures InStep(ws, h, k) { assert InStep(us, h, k); }
    }
  }

  lemma IdleTailRetries(ws: seq<Worker>, tail: seq<Worker>, h: seq<Event>)
    requires AllIdle(tail)
    ensures RetriesOk(ws, h) <==> RetriesOk(ws + tail, h)
  {
    IdleTailInStep(ws, tail, h);
    forall i | 0 <= i < |h| ensures FollowedUp(ws, h, i) <==> FollowedUp(ws + tail, h, i) {
      IdleTailWaits(ws, tail, h[i].batch, h[i].attempt);
    }
  }

  lemma IdleTailOwners(ws: seq<Worker>, tail: seq<Worker>, h: seq<Event>)
    requires AllIdle(tail)
    ensures AllShaped(ws) && OwnersOk(ws, h) <==> AllShaped(ws + tail) && OwnersOk(ws + tail, h)
  {
    var us := ws + tail;
    assert forall i :: 0 <= i < |ws| ==> us[i] == ws[i];
    assert forall i :: |ws| <= i < |us| ==> us[i] == tail[i - |ws|];
  }

  /** Idle workers can come and go at the end. */
  lemma IdleTail(ws: seq<Worker>, tail: seq<Worker>, h: seq<Event>)
    requires AllIdle(tail)
    ensures HistoryInv(ws, h) <==> HistoryInv(ws + tail, h)
  {
    var us := ws + tail;
    SumConcat(ws, tail, IsInFlight); SumConcat(ws, tail, IsBackoff);
    SumConcat(ws, tail, IsBusy); SumConcat(ws, tail, OwnedTx);
    SumZero(tail, IsInFlight); SumZero(tail, IsBackoff); SumZero(tail, IsBusy); SumZero(tail, OwnedTx);
    IdleTailRetries(ws, tail, h);
    IdleTailOwners(ws, tail, h);
    forall k: nat ensures OnceFor(us, h, k) <==> OnceFor(ws, h, k) {
      SumConcat(ws, tail, Owns(k));
      SumZero(tail, Owns(k));
    }
  }

  lemma FinalizeKeeps(p: Pool, target: nat)
    requires PoolInv(p) && Ranked(p.workers, target)
    ensures |Active(p.workers)| > 0
    ensures var q := Finalize(p);
      && PoolInv(q) && Ranked(q.workers, target)
      && q == p.(workers := q.workers, nextIndex := q.nextIndex)
      && (if ScaleDownReady(p.workers) then q.workers == p.workers[..target] else q == p)
  {
    ActivePrefix(p.workers, target);
    if ScaleDownReady(p.workers) { DropIdleTail(p.workers, target, p.history); }
  }

  lemma DropIdleTail(ws: seq<Worker>, target: nat, h: seq<Event>)
    requires HistoryInv(ws, h) && Ranked(ws, target) && ScaleDownReady(ws)
    ensures HistoryInv(ws[..target], h) && Ranked(ws[..target], target)
  {
    var tail := ws[target..];
    assert ws == ws[..target] + tail;
    forall i | 0 <= i < |tail| ensures tail[i].state.Idle? && Shaped(tail[i]) {
      assert tail[i] == ws[target + i];
    }
    IdleTail(ws[..target], tail, h);
  }

  lemma RequestCountKeeps(p: Pool, target: nat, requested: Pos)
    requires PoolInv(p) && Ranked(p.workers, target)
    ensures var q := RequestCount(p, requested);
      && PoolInv(q) && Ranked(q.workers, requested)
      && q == p.(workers := q.workers, nextIndex := q.nextIndex)
  {
    var marked := p.(workers := Marked(p.workers, requested));
    SameWorkKeeps(p.workers, marked.workers, p.history);
    if requested >= |p.workers| {
      IdleTail(marked.workers, FreshWorkers(|p.workers|, requested - |p.workers|), p.history);
    } else {
      FinalizeKeeps(marked, requested);
    }
  }

  lemma NothingYet()
    ensures HistoryInv([], [])
  {
    assert forall k: nat :: OnceFor([], [], k);
  }

  lemma InitialPoolOk(workers: Pos, calls: nat)
    ensures PoolInv(InitialPool(workers, calls)) && Ranked(InitialPool(workers, calls).workers, workers)
  {
    var ws := FreshWorkers(0, workers);
    assert [] + ws == ws;
    NothingYet();
    IdleTail([], ws, []);
  }
}
