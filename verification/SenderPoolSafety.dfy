/** What every interleaving of the sender pool keeps, and exactly which scale-up strands a batch. */
module SenderPoolSafety {
  import opened Prelude
  import opened SenderPool

  // ----- Kept by every step -----

  /** A free worker has an empty mailbox, so handing it a batch never blocks; a busy one has its batch in
      exactly one place until it has ended. */
  predicate SlotOk(w: Worker) {
    && (!w.busy ==> w.mailbox.None? && !w.place.Processing? && !w.place.Completed?)
    && (w.busy ==> (w.mailbox.Some? <==> !w.place.Processing? && !w.place.Completed?))
  }

  /** A worker that must leave does not wait without its token. */
  predicate WillWake(w: Worker, stopping: bool) {
    w.place.Waiting? && (stopping || w.draining) ==> w.wake
  }

  predicate AllOk(ws: seq<Worker>, stopping: bool) {
    forall i :: 0 <= i < |ws| ==> SlotOk(ws[i]) && WillWake(ws[i], stopping)
  }

  /** A batch received is in one place; one never received is in none. */
  predicate Once(p: Pool, k: nat) { Places(p, k) == if k < p.received then 1 else 0 }

  ghost predicate OneEach(p: Pool) {
    forall k: nat :: Once(p, k)
  }

  predicate LedgerOk(p: Pool) {
    && p.counter == Sum(p.finished, DeliveredTx)
    && (!p.cancelled ==> forall j :: 0 <= j < |p.finished| ==> p.finished[j].delivered)
  }

  predicate StopOk(p: Pool) {
    && (p.stopping ==> p.cancelled && !p.intake.Selecting? && !p.intake.Holding?)
    && (!p.stopping ==> Sum(p.workers, Active) >= p.desired)
  }

  ghost predicate Inv(p: Pool) {
    AllOk(p.workers, p.stopping) && OneEach(p) && LedgerOk(p) && StopOk(p)
  }

  /** Replacing one worker by another that owns the same batches and drains alike. */
  lemma PutKeeps(p: Pool, i: nat, w: Worker)
    requires Inv(p) && i < |p.workers| && SlotOk(w) && WillWake(w, p.stopping)
    requires Active(w) == Active(p.workers[i]) && forall k: nat :: OwnedBy(k)(w) == OwnedBy(k)(p.workers[i])
    ensures Inv(Put(p, i, w))
  {
    SumUpdate(p.workers, i, w, Active);
    forall k: nat
      ensures Once(Put(p, i, w), k)
    {
      assert Once(p, k);
      SumUpdate(p.workers, i, w, OwnedBy(k));
    }
  }

  lemma FinishKeeps(p: Pool, i: nat, delivered: bool)
    requires Inv(p) && Enabled(p, EndSending(i, delivered))
    ensures Inv(Finish(p, i, delivered))
  {
    var (w, q) := (p.workers[i], Finish(p, i, delivered));
    var ended := Finished(w.place.batch, delivered);
    SumUpdate(p.workers, i, w.(place := Completed), Active);
    SumAppend(p.finished, ended, DeliveredTx);
    forall k: nat
      ensures Once(q, k)
    {
      assert Once(p, k);
      SumUpdate(p.workers, i, w.(place := Completed), OwnedBy(k));
      SumAppend(p.finished, ended, EndedAs(k));
    }
  }

  lemma HandKeeps(p: Pool, j: nat)
    requires Inv(p) && p.intake.Holding? && j < |p.workers| && Available(p.workers[j])
    ensures Inv(HandOver(p, j))
  {
    var w := p.workers[j].(busy := true, mailbox := Some(p.intake.batch));
    SumUpdate(p.workers, j, w, Active);
    forall k: nat
      ensures Once(HandOver(p, j), k)
    {
      assert Once(p, k);
      SumUpdate(p.workers, j, w, OwnedBy(k));
    }
  }

  lemma {:induction false} FirstAvailableIs(ws: seq<Worker>)
    ensures match FirstAvailable(ws)
            case None => forall i :: 0 <= i < |ws| ==> !Available(ws[i])
            case Some(j) => j < |ws| && Available(ws[j]) && forall i :: 0 <= i < j ==> !Available(ws[i])
  {
    if |ws| > 0 {
      FirstAvailableIs(ws[..|ws| - 1]);
    }
  }

  lemma ReceiveKeeps(p: Pool, transactions: nat)
    requires Inv(p) && p.intake.Selecting?
    ensures Inv(Next(p, Receive(transactions)))
  {
    forall k: nat
      ensures Once(Next(p, Receive(transactions)), k)
    {
      assert Once(p, k);
    }
  }

  /** New workers own nothing and do not drain. */
  lemma {:induction false} NewWorkersAre(started: nat, count: nat, k: nat)
    ensures Sum(NewWorkers(started, count), Active) == count && Sum(NewWorkers(started, count), OwnedBy(k)) == 0
  {
    var ws := NewWorkers(started, count);
    if count > 0 {
      NewWorkersAre(started, count - 1, k);
      assert ws[..count - 1] == NewWorkers(started, count - 1);
    }
  }

  lemma SumWithout(ws: seq<Worker>, i: nat, f: Worker -> nat)
    requires i < |ws|
    ensures Sum(ws[..i] + ws[i + 1..], f) + f(ws[i]) == Sum(ws, f)
  {
    SplitAt(ws, i);
    SumMiddle(ws[..i], ws[i], ws[i + 1..], f);
  }

  lemma ExitOnce(p: Pool, i: nat, k: nat)
    requires i < |p.workers| && !p.workers[i].place.Processing? && Once(p, k)
    ensures Once(Exit(p, i), k)
  {
    var (w, rest, q) := (p.workers[i], p.workers[..i] + p.workers[i + 1..], Exit(p, i));
    var count := |q.workers| - |rest|;
    SumWithout(p.workers, i, OwnedBy(k));
    SumConcat(rest, NewWorkers(p.started, count), OwnedBy(k));
    NewWorkersAre(p.started, count, k);
    if w.mailbox.Some? {
      SumAppend(p.lost, w.mailbox.value, LostAs(k));
    } else {
      assert q.lost == p.lost;
    }
  }

  lemma ExitCounts(p: Pool, i: nat)
    requires i < |p.workers| && StopOk(p)
    ensures StopOk(Exit(p, i))
  {
    var (rest, q) := (p.workers[..i] + p.workers[i + 1..], Exit(p, i));
    var count := |q.workers| - |rest|;
    SumWithout(p.workers, i, Active);
    SumConcat(rest, NewWorkers(p.started, count), Active);
    NewWorkersAre(p.started, count, 0);
  }

  lemma ExitSlots(ws: seq<Worker>, i: nat, started: nat, count: nat, stopping: bool)
    requires i < |ws| && AllOk(ws, stopping)
    ensures AllOk(ws[..i] + ws[i + 1..] + NewWorkers(started, count), stopping)
  {
  }

  lemma ExitKeeps(p: Pool, i: nat)
    requires Inv(p) && Enabled(p, Leave(i))
    ensures Inv(Exit(p, i))
  {
    var q := Exit(p, i);
    ExitCounts(p, i);
    ExitSlots(p.workers, i, p.started, |q.workers| - |p.workers| + 1, p.stopping);
    forall k: nat
      ensures Once(q, k)
    {
      assert Once(p, k);
      ExitOnce(p, i, k);
    }
  }

  // ----- Reconciling -----

  /** The same worker but for its draining mark and its token. */
  predicate Remark(w: Worker, v: Worker) {
    v == w.(draining := v.draining, wake := v.wake)
  }

  lemma {:induction false} DrainFromBackCount(ws: seq<Worker>, k: nat)
    requires k <= Sum(ws, Active)
    ensures Sum(DrainFromBack(ws, k), Active) == Sum(ws, Active) - k
  {
    if |ws| > 0 && k > 0 {
      var (init, last) := (ws[..|ws| - 1], ws[|ws| - 1]);
      var rest := if last.draining then k else k - 1;
      DrainFromBackCount(init, rest);
      SumAppend(DrainFromBack(init, rest), last.(draining := true), Active);
    }
  }

  /** Only marks are set, and of two workers that were active the later one is marked first. */
  lemma {:induction false} DrainFromBackIs(ws: seq<Worker>, k: nat)
    ensures var ds := DrainFromBack(ws, k);
      && |ds| == |ws|
      && (forall i :: 0 <= i < |ws| ==> ds[i] == ws[i].(draining := ds[i].draining)
                                         && (ws[i].draining ==> ds[i].draining))
      && (forall i, j :: 0 <= i < j < |ws| && ds[i].draining && !ws[i].draining ==> ds[j].draining)
  {
    if |ws| > 0 && k > 0 {
      DrainFromBackIs(ws[..|ws| - 1], if ws[|ws| - 1].draining then k else k - 1);
    }
  }

  lemma {:induction false} UndrainedActive(ws: seq<Worker>)
    ensures Sum(Undrained(ws), Active) == |ws| >= Sum(ws, Active)
  {
    if |ws| > 0 {
      UndrainedActive(ws[..|ws| - 1]);
      assert Undrained(ws)[..|ws| - 1] == Undrained(ws[..|ws| - 1]);
    }
  }

  predicate Remarks(ws: seq<Worker>, vs: seq<Worker>) {
    |vs| == |ws| && forall i :: 0 <= i < |ws| ==> Remark(ws[i], vs[i])
  }

  predicate KeepsMarks(ws: seq<Worker>, vs: seq<Worker>)
    requires |vs| == |ws|
  {
    forall i :: 0 <= i < |ws| && ws[i].draining ==> vs[i].draining
  }

  lemma Lowered(ws: seq<Worker>, desired: nat)
    requires Sum(ws, Active) >= desired
    ensures var marked := Remarked(ws, desired);
            Remarks(ws, marked) && KeepsMarks(ws, marked) && Sum(marked, Active) == desired
  {
    if Sum(ws, Active) > desired {
      DrainFromBackIs(ws, Sum(ws, Active) - desired);
      DrainFromBackCount(ws, Sum(ws, Active) - desired);
    }
  }

  lemma RemarkedIs(ws: seq<Worker>, desired: nat)
    ensures var marked := Remarked(ws, desired);
      && Remarks(ws, marked)
      && (Sum(ws, Active) >= desired ==> Sum(marked, Active) == desired && KeepsMarks(ws, marked))
      && (Sum(ws, Active) < desired ==> marked == Undrained(ws) && Sum(marked, Active) == |ws|)
  {
    if Sum(ws, Active) >= desired {
      Lowered(ws, desired);
    } else {
      UndrainedActive(ws);
    }
  }

  lemma WokenKeeps(ws: seq<Worker>, f: Worker -> nat)
    requires forall w: Worker, wake: bool :: f(w.(wake := wake)) == f(w)
    ensures Sum(Woken(ws), f) == Sum(ws, f)
  {
    SumSame(Woken(ws), ws, f);
  }

  lemma ReconciledCount(ws: seq<Worker>, started: nat, desired: nat)
    ensures var marked := Remarked(ws, desired);
            Sum(Woken(marked) + NewWorkers(started, Missing(marked, desired)), Active)
              == if Sum(ws, Active) < desired <= |ws| then |ws| else desired
  {
    var marked := Remarked(ws, desired);
    var missing := Missing(marked, desired);
    RemarkedIs(ws, desired);
    UndrainedActive(ws);
    SumConcat(Woken(marked), NewWorkers(started, missing), Active);
    NewWorkersAre(started, missing, 0);
    WokenKeeps(marked, Active);
  }

  /** The workers a reconcile leaves: the old ones with new marks and a token each, then new ones. */
  lemma ReconciledWorkers(p: Pool, desired: nat)
    requires !p.stopping
    ensures var (ws, n) := (Reconcile(p, desired).workers, |p.workers|);
      && |ws| >= n && (forall i :: 0 <= i < n ==> Remark(p.workers[i], ws[i]) && ws[i].wake)
      && (forall i :: n <= i < |ws| ==> ws[i].place.AtCheck? && !ws[i].busy && ws[i].mailbox.None? && !ws[i].draining)
      && Sum(ws, Active) == (if Sum(p.workers, Active) < desired <= n then n else desired)
      && (Sum(p.workers, Active) >= desired ==> forall i :: 0 <= i < n && p.workers[i].draining ==> ws[i].draining)
      && (Sum(p.workers, Active) < desired ==> forall i :: 0 <= i < n ==> !ws[i].draining)
  {
    ReconciledCount(p.workers, p.started, desired);
    RemarkedIs(p.workers, desired);
  }

  /** Remarked workers own what they owned, and workers added at the end own nothing. */
  lemma SameOwners(ws: seq<Worker>, vs: seq<Worker>, k: nat)
    requires |ws| <= |vs| && forall i :: 0 <= i < |ws| ==> Remark(ws[i], vs[i])
    requires forall i :: |ws| <= i < |vs| ==> vs[i].place.AtCheck? && vs[i].mailbox.None?
    ensures Sum(vs, OwnedBy(k)) == Sum(ws, OwnedBy(k))
  {
    var (kept, added) := (vs[..|ws|], vs[|ws|..]);
    SumParts(vs, |ws|, OwnedBy(k));
    SumSame(kept, ws, OwnedBy(k));
    SumZero(added, OwnedBy(k));
  }

  lemma ReconcileOnce(p: Pool, desired: nat, k: nat)
    requires !p.stopping && Once(p, k)
    ensures Once(Reconcile(p, desired), k)
  {
    ReconciledWorkers(p, desired);
    SameOwners(p.workers, Reconcile(p, desired).workers, k);
  }

  lemma ReconcileKeeps(p: Pool, desired: nat)
    requires Inv(p)
    ensures Inv(Reconcile(p, desired))
  {
    if !p.stopping {
      ReconciledWorkers(p, desired);
      forall k: nat
        ensures Once(Reconcile(p, desired), k)
      {
        assert Once(p, k);
        ReconcileOnce(p, desired, k);
      }
    }
  }

  lemma WakeKeeps(p: Pool, q: Pool)
    requires Inv(p) && (q == p.(paused := true, workers := Woken(p.workers))
                        || (Enabled(p, MarkStopping) && q == p.(stopping := true, workers := Woken(p.workers))))
    ensures Inv(q)
  {
    WokenKeeps(p.workers, Active);
    forall k: nat
      ensures Once(q, k)
    {
      assert Once(p, k);
      WokenKeeps(p.workers, OwnedBy(k));
    }
  }

  /** The steps of a worker's loop that move its batch at most from the mailbox into its hand. */
  lemma LoopKeeps(p: Pool, step: Step)
    requires Inv(p) && Enabled(p, step) && (step.CheckTop? || step.TakeWake? || step.TakeWork? || step.MarkFree?)
    ensures Inv(Next(p, step))
  {
    PutKeeps(p, step.i, Next(p, step).workers[step.i]);
  }

  lemma StepKeeps(p: Pool, step: Step)
    requires Inv(p)
    ensures Inv(Next(p, step))
  {
    if Enabled(p, step) {
      match step
      case CheckTop(_) | TakeWake(_) | TakeWork(_) | MarkFree(_) => LoopKeeps(p, step);
      case EndSending(i, delivered) => FinishKeeps(p, i, delivered);
      case Leave(i) => ExitKeeps(p, i);
      case Receive(transactions) => ReceiveKeeps(p, transactions);
      case Hand =>
        FirstAvailableIs(p.workers);
        HandKeeps(p, FirstAvailable(p.workers).value);
      case ReconcileTo(desired) => ReconcileKeeps(p, desired);
      case Pause => if !p.paused && !p.stopping { WakeKeeps(p, Next(p, step)); }
      case MarkStopping => WakeKeeps(p, Next(p, step));
      case _ => Unmoved(p, Next(p, step));
    }
  }

  /** Steps that touch neither workers nor batches. */
  lemma Unmoved(p: Pool, q: Pool)
    requires Inv(p) && q.workers == p.workers && q.finished == p.finished
    requires q.lost == p.lost && q.received == p.received
    requires q.desired == p.desired && q.counter == p.counter
    requires q.stopping == p.stopping && (p.cancelled ==> q.cancelled)
    requires forall k: nat :: InHand(q.intake, k) == InHand(p.intake, k)
    requires q.stopping ==> !q.intake.Selecting? && !q.intake.Holding?
    ensures Inv(q)
  {
    forall k: nat
      ensures Once(q, k)
    {
      assert Once(p, k);
    }
  }

  lemma InitialOk(workers: nat)
    ensures Inv(Initial(workers))
  {
    NewWorkersAre(0, workers, 0);
    forall k: nat
      ensures Once(Initial(workers), k)
    {
      NewWorkersAre(0, workers, k);
    }
  }

  lemma {:induction false} RunKeeps(p: Pool, steps: seq<Step>)
    requires Inv(p)
    ensures Inv(Run(p, steps))
  {
    if |steps| > 0 {
      RunKeeps(p, steps[..|steps| - 1]);
      StepKeeps(Run(p, steps[..|steps| - 1]), steps[|steps| - 1]);
    }
  }
}
