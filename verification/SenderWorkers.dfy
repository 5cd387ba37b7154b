/** The simulation's sender workers: attempts, retries, scaling. Each function is one private method of
    the simulation, on values. The history is an auxiliary record of every attempt since the last reset;
    no decision reads it. */
module SenderWorkers {
  import opened Prelude
  import opened SimTypes

  datatype WorkerState = Idle | InFlight | Backoff

  datatype Worker = Worker(
    workerId: nat, retiring: bool, terminalError: bool, state: WorkerState, batch: Option<Batch>,
    attempt: nat, completeAtMs: nat, retryAtMs: nat, outcome: Option<Outcome>, attemptLatencyMs: nat,
    hadAmbiguousOutcome: bool)

  function CreateWorker(workerId: nat): Worker {
    Worker(workerId, false, false, Idle, None, 0, 0, 0, None, 0, false)
  }

  datatype Event =
    | Started(batch: Batch, attempt: nat)
    | Completed(batch: Batch, attempt: nat, kind: OutcomeKind)

  datatype Totals = Totals(
    started: nat, retryStarted: nat, completed: nat, succeeded: nat, failed: nat, rejected: nat,
    timedOut: nat, networkErrors: nat, http503: nat, successfulTransactions: nat,
    failedAttemptTransactions: nat, terminalBatches: nat, terminalTransactions: nat,
    ambiguousTimeoutTransactions: nat, duplicateRiskTransactions: nat,
    ambiguousTerminalTransactions: nat)

  const ZERO_TOTALS := Totals(0, 0, 0, 0, 0, 0, 0, 0, 0, 0, 0, 0, 0, 0, 0, 0)

  /** Transactions of the attempts started, completed, ... during one step. */
  datatype HttpActivity = HttpActivity(
    started: nat, retryStarted: nat, completed: nat, succeeded: nat, rejected: nat, terminalFailed: nat)

  const NO_HTTP_ACTIVITY := HttpActivity(0, 0, 0, 0, 0, 0)

  datatype LastOutcome = NoOutcome | HttpResponse | Timeout | NetworkError

  datatype Latest = Latest(
    statusCode: Option<int>, outcome: LastOutcome, latencyMs: Option<nat>, responseLatencyMs: Option<nat>)

  const NO_LATEST := Latest(None, NoOutcome, None, None)

  datatype Pool = Pool(
    workers: seq<Worker>, nextIndex: nat, failureCredit: real, calls: nat, latest: Latest,
    totals: Totals, http: HttpActivity, history: seq<Event>)

  /** What a step sees of its surroundings: the outcome source, the configuration, the time. */
  datatype Env = Env(source: OutcomeSource, config: Config, now: nat)

  function FreshWorkers(first: nat, count: nat): (ws: seq<Worker>)
    ensures |ws| == count && forall i :: 0 <= i < count ==> ws[i] == CreateWorker(first + i)
  {
    seq(count, i requires 0 <= i < count => CreateWorker(first + i))
  }

  function InitialPool(workers: Pos, calls: nat): Pool {
    Pool(FreshWorkers(0, workers), 0, 0.0, calls, NO_LATEST, ZERO_TOTALS, NO_HTTP_ACTIVITY, [])
  }

  /** The fields a worker's state relies on; with these no guard that throws can fire. */
  predicate Shaped(w: Worker) {
    match w.state
    case Idle => w.batch.None? && w.outcome.None? && w.attempt == 0 && !w.hadAmbiguousOutcome
    case InFlight => w.batch.Some? && w.outcome.Some? && 1 <= w.attempt <= RETRY_MAX_ATTEMPTS
    case Backoff => w.batch.Some? && w.outcome.None? && 1 <= w.attempt < RETRY_MAX_ATTEMPTS
  }

  predicate AllShaped(ws: seq<Worker>) {
    forall i :: 0 <= i < |ws| ==> Shaped(ws[i])
  }

  // ----- Attempts -----

  function Fails(credit: real, percent: real): (bool, real) {
    var raised := credit + percent;
    if raised < 100.0 then (false, raised) else (true, raised - 100.0)
  }

  /** How many of n requests in a row fail by default, and the credit left. */
  function FailuresAmong(credit: real, percent: real, n: nat): (int, real) {
    if n == 0 then (0, credit)
    else
      var before := FailuresAmong(credit, percent, n - 1);
      var (fails, left) := Fails(before.1, percent);
      (before.0 + if fails then 1 else 0, left)
  }

  /** Of n requests so many have failed: all but a rest of the share that percent of them, and the credit, make. */
  predicate IsShare(credit: real, percent: real, n: nat, failures: int, left: real) {
    0.0 <= left < 100.0 && credit + n as real * percent == 100.0 * failures as real + left
  }

  /** The failures of n requests are their share, rounded down: the credit holds the rest. */
  lemma {:induction false} FailuresAreTheirShare(credit: real, percent: real, n: nat)
    requires 0.0 <= credit < 100.0 && 0.0 <= percent <= 100.0
    ensures var (failures, left) := FailuresAmong(credit, percent, n);
            IsShare(credit, percent, n, failures, left)
  {
    if n > 0 {
      FailuresAreTheirShare(credit, percent, n - 1);
      assert n as real * percent == (n - 1) as real * percent + percent;
    }
  }

  function DefaultOutcome(ctx: AttemptContext, credit: real): (Outcome, real) {
    var latency := ctx.targetDelayMs + 5.0;
    if latency > ctx.httpTimeoutMs then (Outcome(TimedOut, Finite(ctx.httpTimeoutMs)), credit)
    else
      var (fails, left) := Fails(credit, ctx.targetErrorRatePercent);
      (Outcome(Response(if fails then 503 else 200), Finite(latency)), left)
  }

  /** The answers to a series of attempts by default, and the credit left. */
  function DefaultOutcomes(ctxs: seq<AttemptContext>, credit: real): (seq<Outcome>, real) {
    if |ctxs| == 0 then ([], credit)
    else
      var before := DefaultOutcomes(ctxs[..|ctxs| - 1], credit);
      var (outcome, left) := DefaultOutcome(ctxs[|ctxs| - 1], before.1);
      (before.0 + [outcome], left)
  }

  /** The target, with 5 ms for the way, answers within the timeout. */
  predicate Answers(ctx: AttemptContext) { ctx.targetDelayMs + 5.0 <= ctx.httpTimeoutMs }

  function IsAnswered(ctx: AttemptContext): nat { if Answers(ctx) then 1 else 0 }

  function IsUnavailable(o: Outcome): nat { if o.kind == Response(503) then 1 else 0 }

  /** A target that is too slow times out, after exactly the timeout; any other answers after its delay and 5 ms, with
      200 or 503. */
  predicate AnswersAsTargetDoes(ctx: AttemptContext, o: Outcome) {
    if Answers(ctx) then
      (o.kind == Response(200) || o.kind == Response(503)) && o.latency == Finite(ctx.targetDelayMs + 5.0)
    else o == Outcome(TimedOut, Finite(ctx.httpTimeoutMs))
  }

  lemma {:induction false} DefaultsAnswer(ctxs: seq<AttemptContext>, credit: real)
    ensures var outcomes := DefaultOutcomes(ctxs, credit).0;
      |outcomes| == |ctxs| && forall i :: 0 <= i < |ctxs| ==> AnswersAsTargetDoes(ctxs[i], outcomes[i])
  {
    if |ctxs| > 0 {
      DefaultsAnswer(ctxs[..|ctxs| - 1], credit);
    }
  }

  predicate SameShare(ctxs: seq<AttemptContext>, percent: real) {
    forall i :: 0 <= i < |ctxs| ==> ctxs[i].targetErrorRatePercent == percent
  }

  /** Only the answers draw on the credit. */
  lemma {:induction false} DefaultsFailInTurn(ctxs: seq<AttemptContext>, credit: real, percent: real)
    requires SameShare(ctxs, percent)
    ensures var (outcomes, left) := DefaultOutcomes(ctxs, credit);
      (Sum(outcomes, IsUnavailable), left) == FailuresAmong(credit, percent, Sum(ctxs, IsAnswered))
  {
    if |ctxs| > 0 {
      var init, last := ctxs[..|ctxs| - 1], ctxs[|ctxs| - 1];
      DefaultsFailInTurn(init, credit, percent);
      var (outcomes, left) := DefaultOutcomes(init, credit);
      SumAppend(outcomes, DefaultOutcome(last, left).0, IsUnavailable);
    }
  }

  /** Over any series of attempts, slow targets and fast ones mixed, a target that is too slow times out and any other
      answers; and the 503s are the configured percentage of the answers, rounded down with the credit carried over. */
  lemma DefaultsAreTheirShare(ctxs: seq<AttemptContext>, credit: real, percent: real)
    requires 0.0 <= credit < 100.0 && 0.0 <= percent <= 100.0 && SameShare(ctxs, percent)
    ensures var (outcomes, left) := DefaultOutcomes(ctxs, credit);
      && |outcomes| == |ctxs| && (forall i :: 0 <= i < |ctxs| ==> AnswersAsTargetDoes(ctxs[i], outcomes[i]))
      && IsShare(credit, percent, Sum(ctxs, IsAnswered), Sum(outcomes, IsUnavailable), left)
  {
    DefaultsAnswer(ctxs, credit);
    DefaultsFailInTurn(ctxs, credit, percent);
    FailuresAreTheirShare(credit, percent, Sum(ctxs, IsAnswered));
  }

  function SelectOutcome(env: Env, ctx: AttemptContext, calls: nat, credit: real): (Outcome, real) {
    var supplied := env.source(ctx, calls);
    if supplied.Some? then (supplied.value, credit) else DefaultOutcome(ctx, credit)
  }

  function ContextOf(env: Env, b: Batch, attempt: nat): AttemptContext {
    AttemptContext(b, attempt, env.now, env.config.targetDelayMs, env.config.targetErrorRatePercent,
                   env.config.httpTimeoutMs)
  }

  function Launched(w: Worker, now: nat, attempt: nat, chosen: Outcome): Worker {
    var latency := RoundedStepDuration(chosen.latency);
    w.(state := InFlight, attempt := attempt, completeAtMs := now + latency, retryAtMs := 0,
       outcome := Some(Outcome(chosen.kind, Finite(latency as real))), attemptLatencyMs := latency)
  }

  function StartTotals(t: Totals, b: Batch, attempt: nat, hadAmbiguous: bool): Totals {
    var started := t.(started := t.started + 1);
    if attempt <= 1 then started
    else
      var retried := started.(retryStarted := t.retryStarted + 1);
      if hadAmbiguous then
        retried.(duplicateRiskTransactions := t.duplicateRiskTransactions + b.transactions)
      else retried
  }

  function StartActivity(a: HttpActivity, b: Batch, attempt: nat): HttpActivity {
    var started := a.(started := a.started + b.transactions);
    if attempt > 1 then started.(retryStarted := a.retryStarted + b.transactions) else started
  }

  function StartAttempt(env: Env, p: Pool, i: nat, attempt: nat): Pool
    requires i < |p.workers| && p.workers[i].batch.Some?
  {
    var w := p.workers[i];
    var b := w.batch.value;
    var (chosen, credit) := SelectOutcome(env, ContextOf(env, b, attempt), p.calls, p.failureCredit);
    p.(workers := p.workers[i := Launched(w, env.now, attempt, chosen)],
       failureCredit := credit, calls := p.calls + 1,
       totals := StartTotals(p.totals, b, attempt, w.hadAmbiguousOutcome),
       http := StartActivity(p.http, b, attempt),
       history := p.history + [Started(b, attempt)])
  }

  /** Hand a batch to an idle worker, which starts its first attempt. */
  function Accept(env: Env, p: Pool, i: nat, b: Batch): Pool
    requires i < |p.workers|
  {
    var given := p.workers[i].(batch := Some(b), hadAmbiguousOutcome := false);
    StartAttempt(env, p.(workers := p.workers[i := given]), i, 1)
  }

  function Released(w: Worker): Worker {
    w.(state := Idle, batch := None, attempt := 0, completeAtMs := 0, retryAtMs := 0, outcome := None,
       attemptLatencyMs := 0, hadAmbiguousOutcome := false)
  }

  /** The worker after its attempt ended: released, or waiting to try again. */
  function Settled(w: Worker, now: nat): Worker
    requires Shaped(w) && w.state.InFlight?
  {
    var kind := w.outcome.value.kind;
    if Succeeded(kind) then Released(w.(terminalError := false))
    else if Final(kind, w.attempt) then Released(w.(terminalError := true))
    else
      w.(state := Backoff, retryAtMs := now + RetryDelayMs(w.batch.value.sequence, w.attempt),
         completeAtMs := 0, outcome := None, attemptLatencyMs := 0,
         hadAmbiguousOutcome := w.hadAmbiguousOutcome || Ambiguous(kind))
  }

  function TerminalTotals(t: Totals, tx: nat, ambiguous: bool): Totals {
    t.(terminalBatches := t.terminalBatches + 1, terminalTransactions := t.terminalTransactions + tx,
       ambiguousTerminalTransactions := t.ambiguousTerminalTransactions + if ambiguous then tx else 0)
  }

  function OutcomeTotals(t: Totals, tx: nat, kind: OutcomeKind): Totals {
    var c := t.(completed := t.completed + 1);
    if Succeeded(kind) then
      c.(succeeded := t.succeeded + 1, successfulTransactions := t.successfulTransactions + tx)
    else
      var f := c.(failed := t.failed + 1, failedAttemptTransactions := t.failedAttemptTransactions + tx);
      match kind
      case Response(code) =>
        f.(rejected := t.rejected + 1, http503 := t.http503 + if code == 503 then 1 else 0)
      case TimedOut =>
        f.(timedOut := t.timedOut + 1, ambiguousTimeoutTransactions := t.ambiguousTimeoutTransactions + tx)
      case NetworkFailed => f.(networkErrors := t.networkErrors + 1)
  }

  function CompletionTotals(t: Totals, w: Worker): Totals
    requires Shaped(w) && w.state.InFlight?
  {
    var (tx, kind) := (w.batch.value.transactions, w.outcome.value.kind);
    var recorded := OutcomeTotals(t, tx, kind);
    if Final(kind, w.attempt) && !Succeeded(kind) then
      TerminalTotals(recorded, tx, w.hadAmbiguousOutcome || Ambiguous(kind))
    else recorded
  }

  function CompletionActivity(a: HttpActivity, w: Worker): HttpActivity
    requires Shaped(w) && w.state.InFlight?
  {
    var (tx, kind) := (w.batch.value.transactions, w.outcome.value.kind);
    HttpActivity(
      a.started, a.retryStarted, a.completed + tx,
      a.succeeded + (if Succeeded(kind) then tx else 0),
      a.rejected + (if kind.Response? && !Succeeded(kind) then tx else 0),
      a.terminalFailed + (if Final(kind, w.attempt) && !Succeeded(kind) then tx else 0))
  }

  function CompletionLatest(l: Latest, w: Worker): Latest
    requires Shaped(w) && w.state.InFlight?
  {
    var latency := Some(w.attemptLatencyMs);
    match w.outcome.value.kind
    case Response(code) => Latest(Some(code), HttpResponse, latency, latency)
    case TimedOut => Latest(None, Timeout, latency, l.responseLatencyMs)
    case NetworkFailed => Latest(None, NetworkError, latency, l.responseLatencyMs)
  }

  function CompletionEvent(w: Worker): Event
    requires Shaped(w) && w.state.InFlight?
  {
    Completed(w.batch.value, w.attempt, w.outcome.value.kind)
  }

  function CompleteAttempt(env: Env, p: Pool, i: nat): Pool
    requires i < |p.workers| && Shaped(p.workers[i]) && p.workers[i].state.InFlight?
  {
    var w := p.workers[i];
    p.(workers := p.workers[i := Settled(w, env.now)], totals := CompletionTotals(p.totals, w),
       http := CompletionActivity(p.http, w), latest := CompletionLatest(p.latest, w),
       history := p.history + [CompletionEvent(w)])
  }

  predicate CompletionDue(w: Worker, now: nat) { w.state.InFlight? && w.completeAtMs <= now }

  predicate RetryDue(w: Worker, now: nat) { w.state.Backoff? && w.retryAtMs <= now }

  /** One turn of the loop over due completions. A worker whose fields do not fit its state would make
      the simulation throw; no reachable state has one. */
  function CompleteIfDue(env: Env, p: Pool, i: nat): Pool {
    if i < |p.workers| && Shaped(p.workers[i]) && CompletionDue(p.workers[i], env.now)
    then CompleteAttempt(env, p, i)
    else p
  }

  function RetryIfDue(env: Env, p: Pool, i: nat): Pool {
    if i < |p.workers| && Shaped(p.workers[i]) && RetryDue(p.workers[i], env.now)
    then StartAttempt(env, p, i, p.workers[i].attempt + 1)
    else p
  }

  /** Apply a turn to workers k, k+1, ... n-1. */
  function Pass(turn: (Pool, nat) -> Pool, p: Pool, k: nat, n: nat): Pool
    decreases n - k
  {
    if k >= n then p else Pass(turn, turn(p, k), k + 1, n)
  }

  function Completing(env: Env): (Pool, nat) -> Pool { (p: Pool, i: nat) => CompleteIfDue(env, p, i) }

  function Retrying(env: Env): (Pool, nat) -> Pool { (p: Pool, i: nat) => RetryIfDue(env, p, i) }

  function CompleteDue(env: Env, p: Pool): Pool { Pass(Completing(env), p, 0, |p.workers|) }

  function StartDueRetries(env: Env, p: Pool): Pool { Pass(Retrying(env), p, 0, |p.workers|) }

  // ----- Choosing and scaling -----

  predicate Available(w: Worker) { !w.retiring && w.state.Idle? }

  /** The first available worker in ring order from start, offsets below offset already ruled out. */
  function FindIdle(ws: seq<Worker>, start: nat, offset: nat): (r: Option<nat>)
    ensures r.Some? ==> r.value < |ws| && Available(ws[r.value])
    decreases |ws| - offset
  {
    if offset >= |ws| then None
    else
      var index := Ring(start + offset, |ws|);
      if Available(ws[index]) then Some(index) else FindIdle(ws, start, offset + 1)
  }

  function NextIdle(p: Pool): (r: Option<nat>)
    ensures r.Some? ==> r.value < |p.workers| && Available(p.workers[r.value])
  {
    FindIdle(p.workers, p.nextIndex, 0)
  }

  function Advanced(p: Pool, i: nat): Pool
    requires i < |p.workers|
  {
    p.(nextIndex := Ring(i + 1, |p.workers|))
  }

  /** Workers carry their position, and exactly those from the target on are retiring. */
  predicate Ranked(ws: seq<Worker>, target: nat) {
    && 1 <= target <= |ws|
    && forall i :: 0 <= i < |ws| ==> ws[i].workerId == i && (ws[i].retiring <==> i >= target)
  }

  function Active(ws: seq<Worker>): seq<Worker> {
    if |ws| == 0 then []
    else if ws[|ws| - 1].retiring then Active(ws[..|ws| - 1])
    else Active(ws[..|ws| - 1]) + [ws[|ws| - 1]]
  }

  predicate ScaleDownReady(ws: seq<Worker>) {
    && (exists i :: 0 <= i < |ws| && ws[i].retiring)
    && (forall i :: 0 <= i < |ws| && ws[i].retiring ==> ws[i].state.Idle?)
  }

  function Finalize(p: Pool): Pool
    requires |Active(p.workers)| > 0
  {
    if ScaleDownReady(p.workers) then
      p.(workers := Active(p.workers), nextIndex := Ring(p.nextIndex, |Active(p.workers)|))
    else p
  }

  function Marked(ws: seq<Worker>, target: nat): (r: seq<Worker>)
    ensures |r| == |ws|
    ensures forall i :: 0 <= i < |ws| ==> r[i] == ws[i].(retiring := i >= target)
  {
    seq(|ws|, i requires 0 <= i < |ws| => ws[i].(retiring := i >= target))
  }

  lemma {:induction false} ActivePrefix(ws: seq<Worker>, target: nat)
    requires target <= |ws| && forall i :: 0 <= i < |ws| ==> (ws[i].retiring <==> i >= target)
    ensures Active(ws) == ws[..target]
  {
    if |ws| > target {
      ActivePrefix(ws[..|ws| - 1], target);
      assert ws[..|ws| - 1][..target] == ws[..target];
    } else if |ws| > 0 {
      ActivePrefix(ws[..|ws| - 1], target - 1);
      assert ws[..|ws| - 1] + [ws[|ws| - 1]] == ws;
      assert ws[..|ws| - 1][..target - 1] == ws[..|ws| - 1];
    }
  }

  function RequestCount(p: Pool, requested: Pos): Pool
    requires |p.workers| > 0
  {
    var n := |p.workers|;
    var marked := p.(workers := Marked(p.workers, requested));
    if requested >= n then marked.(workers := marked.workers + FreshWorkers(n, requested - n))
    else
      ActivePrefix(marked.workers, requested);
      Finalize(marked)
  }

  lemma {:induction false} NoneIdleAt(ws: seq<Worker>, start: nat, offset: nat, k: nat)
    requires offset <= k < |ws| && FindIdle(ws, start, offset).None?
    ensures !Available(ws[Ring(start + k, |ws|)])
    decreases k - offset
  {
    if offset < k {
      NoneIdleAt(ws, start, offset + 1, k);
    }
  }

  /** No idle worker is missed: when none is found, every idle worker is retiring. */
  lemma NoneIdleAnywhere(p: Pool)
    requires p.nextIndex < |p.workers| && NextIdle(p).None?
    ensures forall i :: 0 <= i < |p.workers| ==> !Available(p.workers[i])
  {
    var n := |p.workers|;
    forall i | 0 <= i < n
      ensures !Available(p.workers[i])
    {
      var k := if i >= p.nextIndex then i - p.nextIndex else i + n - p.nextIndex;
      assert Ring(p.nextIndex + k, n) == i;
      NoneIdleAt(p.workers, p.nextIndex, 0, k);
    }
  }
}
