/** What the attempt history says about the sender workers and their counters. The counters are compared
    with sums defined here, directly over the history. */
module PoolHistory {
  import opened Prelude
  import opened SimTypes
  import opened Channels
  import opened SenderWorkers

  // ----- Reference definitions over the history -----

  /** The batches in the order of their first attempts. */
  function FirstAttempts(h: seq<Event>): seq<Batch> {
    if |h| == 0 then []
    else
      var e := h[|h| - 1];
      var before := FirstAttempts(h[..|h| - 1]);
      if e.Started? && e.attempt == 1 then before + [e.batch] else before
  }

  function IsStart(e: Event): nat { if e.Started? then 1 else 0 }
  function IsRetryStart(e: Event): nat { if e.Started? && e.attempt > 1 then 1 else 0 }
  function IsCompletion(e: Event): nat { if e.Completed? then 1 else 0 }
  function IsSuccess(e: Event): nat { if e.Completed? && Succeeded(e.kind) then 1 else 0 }
  function IsFailure(e: Event): nat { if e.Completed? && !Succeeded(e.kind) then 1 else 0 }
  function IsRejection(e: Event): nat {
    if e.Completed? && e.kind.Response? && !(200 <= e.kind.statusCode < 300) then 1 else 0
  }
  function IsTimeout(e: Event): nat { if e.Completed? && e.kind.TimedOut? then 1 else 0 }
  function IsNetworkError(e: Event): nat { if e.Completed? && e.kind.NetworkFailed? then 1 else 0 }
  function Is503(e: Event): nat { if e.Completed? && e.kind == Response(503) then 1 else 0 }
  function IsTerminal(e: Event): nat {
    if e.Completed? && Final(e.kind, e.attempt) && !Succeeded(e.kind) then 1 else 0
  }

  function StartTx(e: Event): nat { if e.Started? then e.batch.transactions else 0 }
  function RetryStartTx(e: Event): nat { if e.Started? && e.attempt > 1 then e.batch.transactions else 0 }
  function CompletionTx(e: Event): nat { if e.Completed? then e.batch.transactions else 0 }
  function SuccessTx(e: Event): nat { if IsSuccess(e) == 1 then e.batch.transactions else 0 }
  function FailureTx(e: Event): nat { if IsFailure(e) == 1 then e.batch.transactions else 0 }
  function RejectionTx(e: Event): nat { if IsRejection(e) == 1 then e.batch.transactions else 0 }
  function TimeoutTx(e: Event): nat { if IsTimeout(e) == 1 then e.batch.transactions else 0 }
  function TerminalTx(e: Event): nat { if IsTerminal(e) == 1 then e.batch.transactions else 0 }

  /** Some earlier attempt of batch k ended without a response. */
  predicate AmbiguousBefore(h: seq<Event>, k: nat) {
    exists i :: 0 <= i < |h| && h[i].Completed? && h[i].batch.sequence == k && Ambiguous(h[i].kind)
  }

  /** Transactions sent again although an earlier attempt may have delivered them. */
  function DuplicateRisk(h: seq<Event>): nat {
    if |h| == 0 then 0
    else
      var before, e := h[..|h| - 1], h[|h| - 1];
      DuplicateRisk(before)
      + (if e.Started? && e.attempt > 1 && AmbiguousBefore(before, e.batch.sequence) then e.batch.transactions else 0)
  }

  /** Transactions given up although some attempt, the last one included, may have delivered them. */
  function AmbiguousTerminal(h: seq<Event>): nat {
    if |h| == 0 then 0
    else
      var e := h[|h| - 1];
      AmbiguousTerminal(h[..|h| - 1])
      + (if IsTerminal(e) == 1 && AmbiguousBefore(h, e.batch.sequence) then e.batch.transactions else 0)
  }

  /** How the attempt that ended last ended. */
  function LastEnd(h: seq<Event>): Option<OutcomeKind> {
    if |h| == 0 then None
    else if h[|h| - 1].Completed? then Some(h[|h| - 1].kind)
    else LastEnd(h[..|h| - 1])
  }

  /** The latest status and outcome are those of the attempt that ended last. */
  predicate LatestIs(l: Latest, end: Option<OutcomeKind>) {
    match end
    case None => l.statusCode.None? && l.outcome.NoOutcome?
    case Some(Response(code)) => l.statusCode == Some(code) && l.outcome.HttpResponse?
    case Some(TimedOut) => l.statusCode.None? && l.outcome.Timeout?
    case Some(NetworkFailed) => l.statusCode.None? && l.outcome.NetworkError?
  }

  function CountsOf(h: seq<Event>): Totals {
    Totals(Sum(h, IsStart), Sum(h, IsRetryStart), Sum(h, IsCompletion), Sum(h, IsSuccess), Sum(h, IsFailure),
           Sum(h, IsRejection), Sum(h, IsTimeout), Sum(h, IsNetworkError), Sum(h, Is503),
           Sum(h, SuccessTx), Sum(h, FailureTx), Sum(h, IsTerminal), Sum(h, TerminalTx), Sum(h, TimeoutTx),
           DuplicateRisk(h), AmbiguousTerminal(h))
  }

  function VolumesOf(h: seq<Event>): HttpActivity {
    HttpActivity(Sum(h, StartTx), Sum(h, RetryStartTx), Sum(h, CompletionTx), Sum(h, SuccessTx),
                 Sum(h, RejectionTx), Sum(h, TerminalTx))
  }

  function StartsOf(k: nat): Event -> nat { (e: Event) => if e.Started? && e.batch.sequence == k then 1 else 0 }

  function FinalsOf(k: nat): Event -> nat {
    (e: Event) => if e.Completed? && e.batch.sequence == k && Final(e.kind, e.attempt) then 1 else 0
  }

  function Owns(k: nat): Worker -> nat {
    (w: Worker) => if w.batch.Some? && w.batch.value.sequence == k then 1 else 0
  }

  function IsInFlight(w: Worker): nat { if w.state.InFlight? then 1 else 0 }
  function IsBackoff(w: Worker): nat { if w.state.Backoff? then 1 else 0 }
  function IsBusy(w: Worker): nat { if w.batch.Some? then 1 else 0 }
  function OwnedTx(w: Worker): nat { if w.batch.Some? then w.batch.value.transactions else 0 }

  // ----- What holds in every reachable state -----

  /** Batches are first attempted in sequence order, and every event is about one of them. */
  predicate BatchesOk(h: seq<Event>) {
    var f := FirstAttempts(h);
    && (forall i :: 0 <= i < |f| ==> f[i].sequence == i)
    && (forall j :: 0 <= j < |h| ==> h[j].batch.sequence < |f| && f[h[j].batch.sequence] == h[j].batch)
  }

  ghost predicate HistoryOk(h: seq<Event>) {
    BatchesOk(h) && forall k: nat :: Sum(h, StartsOf(k)) <= RETRY_MAX_ATTEMPTS
  }

  /** An owned batch has been attempted, as often as the worker says, and the worker's flag tells whether
      one of those attempts was ambiguous. */
  predicate OwnerOk(w: Worker, h: seq<Event>) {
    w.batch.Some? ==>
      var f, b := FirstAttempts(h), w.batch.value;
      && b.sequence < |f| && f[b.sequence] == b
      && (w.hadAmbiguousOutcome <==> AmbiguousBefore(h, b.sequence))
      && w.attempt == Sum(h, StartsOf(b.sequence))
  }

  predicate OwnersOk(ws: seq<Worker>, h: seq<Event>) {
    forall i :: 0 <= i < |ws| ==> OwnerOk(ws[i], h)
  }

  /** Batch k has exactly one final outcome or exactly one owner once attempted, and neither before. */
  predicate OnceFor(ws: seq<Worker>, h: seq<Event>, k: nat) {
    Sum(h, FinalsOf(k)) + Sum(ws, Owns(k)) == if k < |FirstAttempts(h)| then 1 else 0
  }

  ghost predicate OnceOk(ws: seq<Worker>, h: seq<Event>) {
    forall k: nat :: OnceFor(ws, h, k)
  }

  /** Attempts: in flight or completed; first or repeated; ended well or badly, and how. */
  predicate AttemptLedger(ws: seq<Worker>, h: seq<Event>) {
    && Sum(h, IsStart) == Sum(h, IsCompletion) + Sum(ws, IsInFlight)
    && Sum(h, IsStart) == |FirstAttempts(h)| + Sum(h, IsRetryStart)
    && Sum(h, IsCompletion) == Sum(h, IsSuccess) + Sum(h, IsFailure)
    && Sum(h, IsFailure) == Sum(h, IsRejection) + Sum(h, IsTimeout) + Sum(h, IsNetworkError)
  }

  /** Failures: tried again, waiting to be, or final. */
  predicate RetryLedger(ws: seq<Worker>, h: seq<Event>) {
    Sum(h, IsFailure) == Sum(h, IsRetryStart) + Sum(ws, IsBackoff) + Sum(h, IsTerminal)
  }

  /** Batches: owned, delivered or given up. */
  predicate BatchLedger(ws: seq<Worker>, h: seq<Event>) {
    |FirstAttempts(h)| == Sum(ws, IsBusy) + Sum(h, IsSuccess) + Sum(h, IsTerminal)
  }

  /** The same for their transactions. */
  predicate VolumeLedger(ws: seq<Worker>, h: seq<Event>) {
    Sum(FirstAttempts(h), Tx) == Sum(ws, OwnedTx) + Sum(h, SuccessTx) + Sum(h, TerminalTx)
  }

  predicate LedgerOk(ws: seq<Worker>, h: seq<Event>) {
    AttemptLedger(ws, h) && RetryLedger(ws, h) && BatchLedger(ws, h) && VolumeLedger(ws, h)
  }

  /** Some later event starts the attempt after the one that event i completed. */
  predicate TriedAgain(h: seq<Event>, i: nat)
    requires i < |h| && h[i].Completed?
  {
    exists j :: i < j < |h| && h[j] == Started(h[i].batch, h[i].attempt + 1)
  }

  predicate WaitsAfter(w: Worker, b: Batch, attempt: nat) {
    w.state.Backoff? && w.batch == Some(b) && w.attempt == attempt
  }

  /** Some worker waits to try the batch again after this attempt. */
  predicate Waiting(ws: seq<Worker>, b: Batch, attempt: nat) {
    exists k :: 0 <= k < |ws| && WaitsAfter(ws[k], b, attempt)
  }

  /** The attempt that event i completed is followed by another one, made or awaited, unless it was final. */
  predicate FollowedUp(ws: seq<Worker>, h: seq<Event>, i: nat)
    requires i < |h|
  {
    h[i].Completed? ==>
      (TriedAgain(h, i) || Waiting(ws, h[i].batch, h[i].attempt) <==> !Final(h[i].kind, h[i].attempt))
  }

  predicate AllFollowedUp(ws: seq<Worker>, h: seq<Event>) {
    forall i :: 0 <= i < |h| ==> FollowedUp(ws, h, i)
  }

  /** No completion of the attempt that a worker is at has been recorded while it is in flight. */
  predicate NotEnded(w: Worker, h: seq<Event>) {
    w.state.InFlight? ==> forall i :: 0 <= i < |h| && h[i].Completed? && w.batch == Some(h[i].batch) ==>
      h[i].attempt < w.attempt
  }

  predicate Ends(e: Event, b: Batch, attempt: int) { e.Completed? && e.batch == b && e.attempt == attempt }

  predicate EndedBefore(h: seq<Event>, n: nat, b: Batch, attempt: int)
    requires n <= |h|
  {
    exists i :: 0 <= i < n && Ends(h[i], b, attempt)
  }

  /** The completion that a worker in backoff waits after has been recorded; it is the batch's last. */
  predicate HasEnded(w: Worker, h: seq<Event>) {
    w.state.Backoff? && w.batch.Some? ==>
      && EndedBefore(h, |h|, w.batch.value, w.attempt)
      && forall i :: 0 <= i < |h| && h[i].Completed? && w.batch == Some(h[i].batch) ==> h[i].attempt <= w.attempt
  }

  /** An attempt after the first starts only when the one before it has ended. */
  predicate Caused(h: seq<Event>, j: nat)
    requires j < |h|
  {
    h[j].Started? && h[j].attempt > 1 ==> EndedBefore(h, j, h[j].batch, h[j].attempt - 1)
  }

  predicate AllCaused(h: seq<Event>) {
    forall j :: 0 <= j < |h| ==> Caused(h, j)
  }

  predicate InStep(ws: seq<Worker>, h: seq<Event>, k: nat)
    requires k < |ws|
  {
    NotEnded(ws[k], h) && HasEnded(ws[k], h)
  }

  predicate AllInStep(ws: seq<Worker>, h: seq<Event>) {
    forall k :: 0 <= k < |ws| ==> InStep(ws, h, k)
  }

  /** Attempts follow each other as their outcomes call for. */
  predicate RetriesOk(ws: seq<Worker>, h: seq<Event>) {
    AllFollowedUp(ws, h) && AllInStep(ws, h) && AllCaused(h)
  }

  ghost predicate HistoryInv(ws: seq<Worker>, h: seq<Event>) {
    && AllShaped(ws) && HistoryOk(h) && OwnersOk(ws, h) && OnceOk(ws, h) && LedgerOk(ws, h)
    && RetriesOk(ws, h)
  }

  // ----- One event more -----

  lemma AmbiguousAppend(h: seq<Event>, e: Event, k: nat)
    ensures AmbiguousBefore(h + [e], k)
            <==> AmbiguousBefore(h, k) || (e.Completed? && e.batch.sequence == k && Ambiguous(e.kind))
  {
    var g := h + [e];
    assert g[..|h|] == h && g[|h|] == e;
    if AmbiguousBefore(h, k) {
      var i :| 0 <= i < |h| && h[i].Completed? && h[i].batch.sequence == k && Ambiguous(h[i].kind);
      assert g[i] == h[i];
    }
  }

  lemma FirstAppend(h: seq<Event>, e: Event)
    ensures FirstAttempts(h + [e])
         == if e.Started? && e.attempt == 1 then FirstAttempts(h) + [e.batch] else FirstAttempts(h)
  {
    assert (h + [e])[..|h|] == h;
  }

  lemma LastEndAppend(h: seq<Event>, e: Event)
    ensures LastEnd(h + [e]) == if e.Completed? then Some(e.kind) else LastEnd(h)
  {
    assert (h + [e])[..|h|] == h;
  }

  lemma CountsAppend(h: seq<Event>, e: Event)
    ensures var (c, d) := (CountsOf(h), CountsOf(h + [e]));
      && d.started == c.started + IsStart(e) && d.retryStarted == c.retryStarted + IsRetryStart(e)
      && d.completed == c.completed + IsCompletion(e) && d.succeeded == c.succeeded + IsSuccess(e)
      && d.failed == c.failed + IsFailure(e) && d.rejected == c.rejected + IsRejection(e)
      && d.timedOut == c.timedOut + IsTimeout(e) && d.networkErrors == c.networkErrors + IsNetworkError(e)
      && d.http503 == c.http503 + Is503(e)
      && d.successfulTransactions == c.successfulTransactions + SuccessTx(e)
      && d.failedAttemptTransactions == c.failedAttemptTransactions + FailureTx(e)
      && d.terminalBatches == c.terminalBatches + IsTerminal(e)
      && d.terminalTransactions == c.terminalTransactions + TerminalTx(e)
      && d.ambiguousTimeoutTransactions == c.ambiguousTimeoutTransactions + TimeoutTx(e)
  {
    SumAppend(h, e, IsStart); SumAppend(h, e, IsRetryStart); SumAppend(h, e, IsCompletion);
    SumAppend(h, e, IsSuccess); SumAppend(h, e, IsFailure); SumAppend(h, e, IsRejection);
    SumAppend(h, e, IsTimeout); SumAppend(h, e, IsNetworkError); SumAppend(h, e, Is503);
    SumAppend(h, e, SuccessTx); SumAppend(h, e, FailureTx); SumAppend(h, e, IsTerminal);
    SumAppend(h, e, TerminalTx); SumAppend(h, e, TimeoutTx);
  }

  lemma RiskAppend(h: seq<Event>, e: Event)
    ensures DuplicateRisk(h + [e]) == DuplicateRisk(h)
      + (if e.Started? && e.attempt > 1 && AmbiguousBefore(h, e.batch.sequence) then e.batch.transactions else 0)
    ensures AmbiguousTerminal(h + [e]) == AmbiguousTerminal(h)
      + (if IsTerminal(e) == 1 && (AmbiguousBefore(h, e.batch.sequence) || Ambiguous(e.kind))
         then e.batch.transactions else 0)
  {
    assert (h + [e])[..|h|] == h;
    AmbiguousAppend(h, e, e.batch.sequence);
  }

  lemma VolumesAppend(h: seq<Event>, e: Event)
    ensures var (c, d) := (VolumesOf(h), VolumesOf(h + [e]));
      && d.started == c.started + StartTx(e) && d.retryStarted == c.retryStarted + RetryStartTx(e)
      && d.completed == c.completed + CompletionTx(e) && d.succeeded == c.succeeded + SuccessTx(e)
      && d.rejected == c.rejected + RejectionTx(e) && d.terminalFailed == c.terminalFailed + TerminalTx(e)
  {
    SumAppend(h, e, StartTx); SumAppend(h, e, RetryStartTx); SumAppend(h, e, CompletionTx);
    SumAppend(h, e, SuccessTx); SumAppend(h, e, RejectionTx); SumAppend(h, e, TerminalTx);
  }

  // ----- How one worker's move changes the worker sums -----

  /** Worker i becomes w while e is recorded: the shape shared by every move of an attempt. */
  datatype Move = Move(ws: seq<Worker>, h: seq<Event>, i: nat, w: Worker, e: Event) {
    predicate Ok() { i < |ws| && Shaped(ws[i]) && Shaped(w) }
    function Workers(): seq<Worker>
      requires i < |ws|
    { ws[i := w] }
    function History(): seq<Event> { h + [e] }
    /** An idle worker takes batch number |FirstAttempts(h)|. */
    predicate Accepts() {
      && Ok() && ws[i].state.Idle? && w.state.InFlight? && w.attempt == 1 && !w.hadAmbiguousOutcome
      && e == Started(w.batch.value, 1) && e.batch.sequence == |FirstAttempts(h)|
    }
    predicate Retries() {
      && Ok() && ws[i].state.Backoff? && w.state.InFlight? && w.batch == ws[i].batch
      && w.attempt == ws[i].attempt + 1 && w.hadAmbiguousOutcome == ws[i].hadAmbiguousOutcome
      && e == Started(w.batch.value, w.attempt)
    }
    predicate Completes() {
      && Ok() && ws[i].state.InFlight?
      && e == Completed(ws[i].batch.value, ws[i].attempt, ws[i].outcome.value.kind)
      && (if Final(e.kind, e.attempt) then w.state.Idle?
          else w.state.Backoff? && w.batch == ws[i].batch && w.attempt == ws[i].attempt
               && w.hadAmbiguousOutcome == (ws[i].hadAmbiguousOutcome || Ambiguous(e.kind)))
    }
    predicate Legal() { Accepts() || Retries() || Completes() }
  }

  /** No two workers own the same batch. */
  lemma OneOwner(ws: seq<Worker>, h: seq<Event>, i: nat, j: nat)
    requires OnceOk(ws, h) && i < |ws| && j < |ws| && i != j && ws[i].batch.Some? && ws[j].batch.Some?
    ensures ws[i].batch.value.sequence != ws[j].batch.value.sequence
  {
    var k := ws[i].batch.value.sequence;
    assert OnceFor(ws, h, k);
    if i < j { SumAtTwo(ws, i, j, Owns(k)); } else { SumAtTwo(ws, j, i, Owns(k)); }
  }

  /** A batch not attempted yet has left no trace. */
  lemma Untouched(h: seq<Event>, k: nat)
    requires HistoryOk(h) && k >= |FirstAttempts(h)|
    ensures !AmbiguousBefore(h, k) && Sum(h, StartsOf(k)) == 0
  {
    SumZero(h, StartsOf(k));
  }

  lemma MoveKeepsBatches(m: Move)
    requires m.Legal() && BatchesOk(m.h) && OwnerOk(m.ws[m.i], m.h)
    ensures BatchesOk(m.History())
  {
    FirstAppend(m.h, m.e);
  }

  lemma MoveKeepsLimit(m: Move, k: nat)
    requires m.Legal() && HistoryOk(m.h) && OwnerOk(m.ws[m.i], m.h)
    ensures Sum(m.History(), StartsOf(k)) <= RETRY_MAX_ATTEMPTS
  {
    SumAppend(m.h, m.e, StartsOf(k));
    if m.Accepts() { Untouched(m.h, m.e.batch.sequence); }
  }

  lemma MoveKeepsOwner(m: Move, j: nat)
    requires m.Legal() && HistoryOk(m.h) && OnceOk(m.ws, m.h) && j < |m.ws|
    requires OwnerOk(m.ws[j], m.h) && OwnerOk(m.ws[m.i], m.h)
    ensures OwnerOk(m.Workers()[j], m.History())
  {
    var (h, e, w) := (m.h, m.e, m.Workers()[j]);
    FirstAppend(h, e);
    if w.batch.Some? {
      var k := w.batch.value.sequence;
      AmbiguousAppend(h, e, k);
      SumAppend(h, e, StartsOf(k));
      if j == m.i {
        if m.Accepts() { Untouched(h, k); }
      } else if m.ws[m.i].batch.Some? {
        OneOwner(m.ws, h, m.i, j);
      }
    }
  }

  lemma MoveKeepsOnce(m: Move, k: nat)
    requires m.Legal() && OnceFor(m.ws, m.h, k) && OwnerOk(m.ws[m.i], m.h)
    ensures OnceFor(m.Workers(), m.History(), k)
  {
    FirstAppend(m.h, m.e);
    SumAppend(m.h, m.e, FinalsOf(k));
    SumUpdate(m.ws, m.i, m.w, Owns(k));
  }

  lemma MoveKeepsAttemptLedger(m: Move)
    requires m.Legal() && AttemptLedger(m.ws, m.h)
    ensures AttemptLedger(m.Workers(), m.History())
  {
    var (h, e) := (m.h, m.e);
    SumAppend(h, e, IsStart); SumAppend(h, e, IsRetryStart); SumAppend(h, e, IsCompletion);
    SumAppend(h, e, IsSuccess); SumAppend(h, e, IsFailure); SumAppend(h, e, IsRejection);
    SumAppend(h, e, IsTimeout); SumAppend(h, e, IsNetworkError);
    FirstAppend(h, e);
    SumUpdate(m.ws, m.i, m.w, IsInFlight);
  }

  lemma MoveKeepsRetryLedger(m: Move)
    requires m.Legal() && RetryLedger(m.ws, m.h)
    ensures RetryLedger(m.Workers(), m.History())
  {
    var (h, e) := (m.h, m.e);
    SumAppend(h, e, IsFailure); SumAppend(h, e, IsRetryStart); SumAppend(h, e, IsTerminal);
    SumUpdate(m.ws, m.i, m.w, IsBackoff);
  }

  lemma MoveKeepsBatchLedger(m: Move)
    requires m.Legal() && BatchLedger(m.ws, m.h)
    ensures BatchLedger(m.Workers(), m.History())
  {
    SumAppend(m.h, m.e, IsSuccess); SumAppend(m.h, m.e, IsTerminal);
    FirstAppend(m.h, m.e);
    SumUpdate(m.ws, m.i, m.w, IsBusy);
  }

  lemma FirstVolume(h: seq<Event>, e: Event)
    ensures Sum(FirstAttempts(h + [e]), Tx)
         == Sum(FirstAttempts(h), Tx) + if e.Started? && e.attempt == 1 then e.batch.transactions else 0
  {
    FirstAppend(h, e);
    SumAppend(FirstAttempts(h), e.batch, Tx);
  }

  lemma MoveKeepsVolumeLedger(m: Move)
    requires m.Legal() && VolumeLedger(m.ws, m.h)
    ensures VolumeLedger(m.Workers(), m.History())
  {
    SumAppend(m.h, m.e, SuccessTx); SumAppend(m.h, m.e, TerminalTx);
    FirstVolume(m.h, m.e);
    SumUpdate(m.ws, m.i, m.w, OwnedTx);
  }

  lemma EndedAppend(h: seq<Event>, e: Event, n: nat, b: Batch, attempt: int)
    requires n <= |h| && EndedBefore(h, n, b, attempt)
    ensures EndedBefore(h + [e], n, b, attempt) && EndedBefore(h + [e], |h| + 1, b, attempt)
  {
    var i :| 0 <= i < n && Ends(h[i], b, attempt);
    assert (h + [e])[i] == h[i];
  }

  lemma MoveKeepsCauses(m: Move)
    requires m.Legal() && AllCaused(m.h) && HasEnded(m.ws[m.i], m.h)
    ensures AllCaused(m.History())
  {
    var h := m.History();
    forall j | 0 <= j < |h| ensures Caused(h, j) {
      if j < |m.h| {
        assert h[j] == m.h[j] && Caused(m.h, j);
        if h[j].Started? && h[j].attempt > 1 { EndedAppend(m.h, m.e, j, h[j].batch, h[j].attempt - 1); }
      } else if m.Retries() {
        EndedAppend(m.h, m.e, |m.h|, m.e.batch, m.e.attempt - 1);
      }
    }
  }

  /** The move's own worker is past every completion of its batch. */
  lemma MoveKeepsInStep(m: Move, k: nat)
    requires m.Legal() && BatchesOk(m.h) && OnceOk(m.ws, m.h) && k < |m.ws|
    requires InStep(m.ws, m.h, k) && InStep(m.ws, m.h, m.i)
    ensures InStep(m.Workers(), m.History(), k)
  {
    var w := m.Workers()[k];
    if w.state.Backoff? && w.batch.Some? {
      if k == m.i {
        assert Ends(m.History()[|m.h|], w.batch.value, w.attempt);
      } else {
        EndedAppend(m.h, m.e, |m.h|, w.batch.value, w.attempt);
      }
    }
    if k != m.i && m.ws[k].batch.Some? && m.ws[m.i].batch.Some? {
      OneOwner(m.ws, m.h, m.i, k);
    }
  }

  /** The event of a move starts the attempt after e's exactly when it is the retry of e's batch. */
  lemma AgainAppend(h: seq<Event>, e: Event, i: nat)
    requires i < |h| && h[i].Completed?
    ensures TriedAgain(h + [e], i) <==> TriedAgain(h, i) || e == Started(h[i].batch, h[i].attempt + 1)
  {
    var g := h + [e];
    assert g[|h|] == e;
    if TriedAgain(h, i) {
      var j :| i < j < |h| && h[j] == Started(h[i].batch, h[i].attempt + 1);
      assert g[j] == h[j];
    }
  }

  lemma WaitingUpdate(ws: seq<Worker>, i: nat, w: Worker, b: Batch, attempt: nat)
    requires i < |ws| && !WaitsAfter(ws[i], b, attempt)
    ensures Waiting(ws[i := w], b, attempt) <==> Waiting(ws, b, attempt) || WaitsAfter(w, b, attempt)
  {
    var us := ws[i := w];
    if Waiting(ws, b, attempt) {
      var k :| 0 <= k < |ws| && WaitsAfter(ws[k], b, attempt);
      assert us[k] == ws[k];
    }
    assert us[i] == w;
  }

  /** After its retry has started nobody waits for it any more, but then it has been tried again. */
  lemma RetryFollowsUp(m: Move, i: nat)
    requires m.Retries() && i < |m.h| && FollowedUp(m.ws, m.h, i)
    ensures FollowedUp(m.Workers(), m.History(), i)
  {
    var e := m.h[i];
    assert m.History()[i] == e;
    if e.Completed? {
      AgainAppend(m.h, m.e, i);
      if WaitsAfter(m.ws[m.i], e.batch, e.attempt) {
        assert Waiting(m.ws, e.batch, e.attempt);
      } else {
        WaitingUpdate(m.ws, m.i, m.w, e.batch, e.attempt);
      }
    }
  }

  lemma OtherFollowsUp(m: Move, i: nat)
    requires m.Accepts() || m.Completes()
    requires BatchesOk(m.h) && NotEnded(m.ws[m.i], m.h) && i < |m.h| && FollowedUp(m.ws, m.h, i)
    ensures FollowedUp(m.Workers(), m.History(), i)
  {
    var e := m.h[i];
    assert m.History()[i] == e;
    if e.Completed? {
      AgainAppend(m.h, m.e, i);
      WaitingUpdate(m.ws, m.i, m.w, e.batch, e.attempt);
    }
  }

  /** The completion just recorded. */
  lemma NewFollowsUp(m: Move)
    requires m.Legal() && OnceOk(m.ws, m.h)
    ensures FollowedUp(m.Workers(), m.History(), |m.h|)
  {
    var ws, h, b, a := m.Workers(), m.History(), m.e.batch, m.e.attempt;
    assert h[|m.h|] == m.e;
    if m.Completes() {
      if Final(m.e.kind, a) && Waiting(ws, b, a) {
        var k :| 0 <= k < |ws| && WaitsAfter(ws[k], b, a);
        assert k != m.i && ws[k] == m.ws[k];
        OneOwner(m.ws, m.h, m.i, k);
      } else if !Final(m.e.kind, a) {
        assert WaitsAfter(ws[m.i], b, a);
      }
    }
  }

  lemma MoveKeepsFollowUps(m: Move)
    requires m.Legal() && BatchesOk(m.h) && OnceOk(m.ws, m.h) && InStep(m.ws, m.h, m.i) && AllFollowedUp(m.ws, m.h)
    ensures AllFollowedUp(m.Workers(), m.History())
  {
    forall i | 0 <= i < |m.History()| ensures FollowedUp(m.Workers(), m.History(), i) {
      if i == |m.h| { NewFollowsUp(m); } else if m.Retries() { RetryFollowsUp(m, i); } else { OtherFollowsUp(m, i); }
    }
  }

  lemma MoveKeepsRetries(m: Move)
    requires m.Legal() && BatchesOk(m.h) && OnceOk(m.ws, m.h) && RetriesOk(m.ws, m.h)
    ensures RetriesOk(m.Workers(), m.History())
  {
    assert InStep(m.ws, m.h, m.i);
    MoveKeepsFollowUps(m);
    MoveKeepsCauses(m);
    forall k | 0 <= k < |m.ws| ensures InStep(m.Workers(), m.History(), k) { MoveKeepsInStep(m, k); }
  }

  lemma MoveKeeps(m: Move)
    requires m.Legal() && HistoryInv(m.ws, m.h)
    ensures HistoryInv(m.Workers(), m.History())
    ensures FirstAttempts(m.History()) == if m.Accepts() then FirstAttempts(m.h) + [m.e.batch] else FirstAttempts(m.h)
  {
    assert OwnerOk(m.ws[m.i], m.h);
    MoveKeepsRetries(m);
    MoveKeepsBatches(m);
    MoveKeepsAttemptLedger(m); MoveKeepsRetryLedger(m); MoveKeepsBatchLedger(m); MoveKeepsVolumeLedger(m);
    FirstAppend(m.h, m.e);
    forall k: nat ensures Sum(m.History(), StartsOf(k)) <= RETRY_MAX_ATTEMPTS { MoveKeepsLimit(m, k); }
    forall j | 0 <= j < |m.ws| ensures OwnerOk(m.Workers()[j], m.History()) { MoveKeepsOwner(m, j); }
    forall k: nat ensures OnceFor(m.Workers(), m.History(), k) { MoveKeepsOnce(m, k); }
  }
}
