/** The sender pool's guarantees over all interleavings. */
module SenderPoolTheorems {
  import opened Prelude
  import opened SenderPool
  import opened SenderPoolSafety

  function Reached(workers: nat, steps: seq<Step>): Pool { Run(Initial(workers), steps) }

  lemma ReachedOk(workers: nat, steps: seq<Step>)
    ensures Inv(Reached(workers, steps))
  {
    InitialOk(workers);
    RunKeeps(Initial(workers), steps);
  }

  /** Every batch received is at the intake, owned by exactly one live worker, ended exactly once, or was in
      the mailbox of a worker that left; delivered transactions are counted once each. */
  lemma EveryBatchOnce(workers: nat, steps: seq<Step>, k: nat)
    ensures var p := Reached(workers, steps); Places(p, k) == if k < p.received then 1 else 0
    ensures var p := Reached(workers, steps); p.counter == Sum(p.finished, DeliveredTx)
  {
    ReachedOk(workers, steps);
    assert Once(Reached(workers, steps), k);
  }

  /** Until cancellation, every batch whose sending ended was delivered. */
  lemma AbandonedOnlyWhenCancelled(workers: nat, steps: seq<Step>, j: nat)
    requires j < |Reached(workers, steps).finished| && !Reached(workers, steps).finished[j].delivered
    ensures Reached(workers, steps).cancelled
  {
    ReachedOk(workers, steps);
  }

  /** The hand-over under the mutex finds an empty mailbox. */
  lemma HandOverNeverBlocks(workers: nat, steps: seq<Step>)
    requires Enabled(Reached(workers, steps), Hand)
    ensures var p := Reached(workers, steps); var j := FirstAvailable(p.workers).value;
            p.workers[j].mailbox.None? && !p.workers[j].draining
            && forall i :: 0 <= i < j ==> p.workers[i].draining || p.workers[i].busy
  {
    ReachedOk(workers, steps);
    FirstAvailableIs(Reached(workers, steps).workers);
  }

  /** Until stop, at least the desired number of workers are not draining, and a waiting worker that has to
      leave has a wake-up token. */
  lemma EnoughAndAwake(workers: nat, steps: seq<Step>)
    ensures var p := Reached(workers, steps);
      && (!p.stopping ==> Sum(p.workers, Active) >= p.desired)
      && forall i :: 0 <= i < |p.workers| && p.workers[i].place.Waiting? && (p.stopping || p.workers[i].draining) ==>
           p.workers[i].wake
  {
    ReachedOk(workers, steps);
  }

  /** A scale-down leaves exactly the desired number active and never takes a mark back; a scale-up takes all
      marks back, so it can leave more than desired. */
  lemma ActiveAfterReconcile(workers: nat, steps: seq<Step>, desired: nat)
    requires !Reached(workers, steps).stopping
    ensures var p := Reached(workers, steps); var q := Reconcile(p, desired);
      Sum(q.workers, Active) == if Sum(p.workers, Active) < desired <= |p.workers| then |p.workers| else desired
  {
    ReconciledWorkers(Reached(workers, steps), desired);
  }

  /** A pause closes the gate and wakes every worker, one that waits between two attempts too, unless the gate is
      closed or the pool stops already; a resume opens it. */
  lemma GateMoves(p: Pool)
    requires p.barrier == {}
    ensures var q := Next(p, Pause);
      && q.paused == (p.paused || !p.stopping) && |q.workers| == |p.workers|
      && (!p.paused && !p.stopping ==> forall i :: 0 <= i < |q.workers| ==> q.workers[i].wake)
      && forall i :: 0 <= i < |q.workers| ==> q.workers[i] == p.workers[i].(wake := q.workers[i].wake)
    ensures Next(p, Resume) == p.(paused := false)
  {
  }

  // ----- Stranding -----

  /** This step raises the target, so that draining marks are taken back. */
  predicate Raises(p: Pool, step: Step) {
    step.ReconcileTo? && Enabled(p, step) && !p.stopping && Sum(p.workers, Active) < step.desired
  }

  predicate SomeExiting(ws: seq<Worker>) { exists i :: 0 <= i < |ws| && ws[i].place.Exiting? }

  /** No raise of the target happens while a worker is between its last check and its removal. In particular
      this holds when the target is only raised while no worker is draining. */
  predicate Careful(p: Pool, steps: seq<Step>) {
    |steps| > 0 ==>
      var before := Run(p, steps[..|steps| - 1]);
      && Careful(p, steps[..|steps| - 1])
      && (Raises(before, steps[|steps| - 1]) ==> !SomeExiting(before.workers))
  }

  predicate LeaverOk(w: Worker, stopping: bool) {
    w.place.Exiting? ==> !w.busy && (stopping || w.draining)
  }

  ghost predicate Sound(p: Pool) {
    Inv(p) && p.lost == [] && AllLeaversOk(p.workers, p.stopping)
  }

  predicate AllLeaversOk(ws: seq<Worker>, stopping: bool) {
    forall i :: 0 <= i < |ws| ==> LeaverOk(ws[i], stopping)
  }

  lemma CarefulReconcile(p: Pool, desired: nat)
    requires Sound(p) && (!p.stopping && Sum(p.workers, Active) < desired ==> !SomeExiting(p.workers))
    ensures AllLeaversOk(Reconcile(p, desired).workers, p.stopping)
  {
    if !p.stopping {
      var ws := Reconcile(p, desired).workers;
      ReconciledWorkers(p, desired);
      forall i | 0 <= i < |ws|
        ensures LeaverOk(ws[i], p.stopping)
      {
        if i < |p.workers| {
          assert LeaverOk(p.workers[i], p.stopping) && Remark(p.workers[i], ws[i]);
        }
      }
    }
  }

  lemma CarefulHand(p: Pool)
    requires Sound(p) && Enabled(p, Hand)
    ensures AllLeaversOk(Next(p, Hand).workers, p.stopping)
  {
    var j := FirstAvailable(p.workers).value;
    FirstAvailableIs(p.workers);
    assert LeaverOk(p.workers[j], p.stopping);
  }

  lemma CarefulLeave(p: Pool, i: nat)
    requires Sound(p) && Enabled(p, Leave(i))
    ensures AllLeaversOk(Exit(p, i).workers, p.stopping) && Exit(p, i).lost == []
  {
    assert LeaverOk(p.workers[i], p.stopping) && SlotOk(p.workers[i]);
  }

  /** The steps of one worker's goroutine before it leaves. */
  predicate OfWorker(step: Step) {
    step.CheckTop? || step.TakeWake? || step.TakeWork? || step.EndSending? || step.MarkFree?
  }

  lemma CarefulWorker(p: Pool, step: Step)
    requires Sound(p) && Enabled(p, step) && OfWorker(step)
    ensures AllLeaversOk(Next(p, step).workers, p.stopping) && Next(p, step).lost == []
  {
    assert SlotOk(p.workers[step.i]) && LeaverOk(p.workers[step.i], p.stopping);
  }

  lemma CarefulWake(ws: seq<Worker>, stopping: bool)
    requires AllLeaversOk(ws, stopping)
    ensures AllLeaversOk(Woken(ws), stopping) && AllLeaversOk(Woken(ws), true)
  {
  }

  lemma CarefulStep(p: Pool, step: Step)
    requires Sound(p) && (Raises(p, step) ==> !SomeExiting(p.workers))
    ensures Sound(Next(p, step))
  {
    StepKeeps(p, step);
    CarefulWake(p.workers, p.stopping);
    CarefulLeavers(p, step);
  }

  lemma CarefulLeavers(p: Pool, step: Step)
    requires Sound(p) && (Raises(p, step) ==> !SomeExiting(p.workers))
    requires AllLeaversOk(Woken(p.workers), p.stopping) && AllLeaversOk(Woken(p.workers), true)
    ensures AllLeaversOk(Next(p, step).workers, Next(p, step).stopping) && Next(p, step).lost == []
  {
    if Enabled(p, step) {
      if OfWorker(step) {
        CarefulWorker(p, step);
      } else if step.ReconcileTo? {
        CarefulReconcile(p, step.desired);
      } else if step.Hand? {
        CarefulHand(p);
      } else if step.Leave? {
        CarefulLeave(p, step.i);
      }
    }
  }

  lemma {:induction false} CarefulRun(p: Pool, steps: seq<Step>)
    requires Sound(p) && Careful(p, steps)
    ensures Sound(Run(p, steps))
  {
    if |steps| > 0 {
      CarefulRun(p, steps[..|steps| - 1]);
      CarefulStep(Run(p, steps[..|steps| - 1]), steps[|steps| - 1]);
    }
  }

  /** Nothing is stranded: in every careful run, received batches are in the intake's hand, owned by exactly
      one live worker, or ended. */
  lemma NothingStranded(workers: nat, steps: seq<Step>, k: nat)
    requires Careful(Initial(workers), steps)
    ensures var p := Reached(workers, steps);
      && p.lost == []
      && InHand(p.intake, k) + Sum(p.workers, OwnedBy(k)) + Sum(p.finished, EndedAs(k))
         == if k < p.received then 1 else 0
  {
    InitialOk(workers);
    CarefulRun(Initial(workers), steps);
    assert Once(Reached(workers, steps), k);
  }

  /** After a joined stop (the intake returned and every worker gone) each received batch was delivered or
      abandoned, exactly once. */
  lemma JoinedStop(workers: nat, steps: seq<Step>, k: nat)
    requires Careful(Initial(workers), steps)
    requires var p := Reached(workers, steps); p.stopping && p.intake.Done? && p.workers == []
    ensures var p := Reached(workers, steps);
      Sum(p.finished, EndedAs(k)) == (if k < p.received then 1 else 0) && p.counter == Sum(p.finished, DeliveredTx)
  {
    NothingStranded(workers, steps, k);
    EveryBatchOnce(workers, steps, k);
  }

  /** Raising only while nobody drains is careful. */
  lemma {:induction false} QuietRaisesAreCareful(workers: nat, steps: seq<Step>)
    requires forall n :: 0 <= n < |steps| && Raises(Reached(workers, steps[..n]), steps[n]) ==>
               forall w :: w in Reached(workers, steps[..n]).workers ==> !w.draining
    ensures Careful(Initial(workers), steps)
  {
    if |steps| > 0 {
      var init := steps[..|steps| - 1];
      forall n | 0 <= n < |init|
        ensures steps[..n] == init[..n]
      {
      }
      QuietRaisesAreCareful(workers, init);
      InitialOk(workers);
      CarefulRun(Initial(workers), init);
      var p := Run(Initial(workers), init);
      if Raises(p, steps[|steps| - 1]) {
        forall i | 0 <= i < |p.workers|
          ensures !p.workers[i].place.Exiting?
        {
          assert p.workers[i] in p.workers && LeaverOk(p.workers[i], p.stopping);
        }
      }
    }
  }

  // ----- The other direction -----

  predicate NoReconcile(steps: seq<Step>) { forall n :: 0 <= n < |steps| ==> !steps[n].ReconcileTo? }

  lemma {:induction false} RunConcat(p: Pool, a: seq<Step>, b: seq<Step>)
    ensures Run(p, a + b) == Run(Run(p, a), b)
  {
    if |b| == 0 {
      assert a + b == a;
    } else {
      RunConcat(p, a, b[..|b| - 1]);
      assert (a + b)[..|a + b| - 1] == a + b[..|b| - 1];
    }
  }

  lemma RunOne(p: Pool, step: Step)
    ensures Run(p, [step]) == Next(p, step)
  {
    assert [step][..0] == [];
  }

  /** A running intake with a free worker gets a batch into its hand. */
  lemma ReceiveOne(p: Pool) returns (steps: seq<Step>)
    requires !p.cancelled && !p.intake.Done? && FirstAvailable(p.workers).Some?
    ensures NoReconcile(steps)
    ensures var q := Run(p, steps); q.intake.Holding? && q.workers == p.workers && q.lost == p.lost && !q.cancelled
  {
    if p.intake.Holding? {
      return [];
    }
    var before: Step := if p.intake.Looking? then StopLooking else if p.intake.Passed? then LockIntake else Receive(1);
    RunOne(p, before);
    if p.intake.Selecting? {
      return [before];
    }
    if p.intake.Passed? {
      RunConcat(p, [before], [Receive(1)]);
      RunOne(Next(p, before), Receive(1));
      return [before] + [Receive(1)];
    }
    var q := Next(p, before);
    RunOne(q, LockIntake);
    RunConcat(p, [before], [LockIntake]);
    RunConcat(p, [before] + [LockIntake], [Receive(1)]);
    RunOne(Next(q, LockIntake), Receive(1));
    return [before] + [LockIntake] + [Receive(1)];
  }

  /** A worker past its check that is kept will be given a batch, and leaves with it. */
  lemma {:induction false} Strand(p: Pool, i: nat) returns (steps: seq<Step>)
    requires !p.cancelled && !p.intake.Done? && At(p, i, Exiting) && Available(p.workers[i])
    ensures NoReconcile(steps) && Run(p, steps).lost != []
    decreases Sum(p.workers[..i], Free)
  {
    FirstAvailableIs(p.workers);
    var first := ReceiveOne(p);
    var q := Run(p, first);
    RunConcat(p, first, [Hand]);
    RunOne(q, Hand);
    var r := Next(q, Hand);
    var j := FirstAvailable(q.workers).value;
    var rest: seq<Step>;
    if j == i {
      rest := [Leave(i)];
      RunOne(r, Leave(i));
    } else {
      assert r.workers[..i] == q.workers[..i][j := r.workers[j]];
      SumUpdate(q.workers[..i], j, r.workers[j], Free);
      rest := Strand(r, i);
    }
    steps := first + [Hand] + rest;
    RunConcat(p, first + [Hand], rest);
  }

  function Free(w: Worker): nat { if Available(w) then 1 else 0 }

  /** Some continuation without a further reconcile loses a batch. */
  ghost predicate CanStrand(q: Pool) { exists more :: NoReconcile(more) && Run(q, more).lost != [] }

  lemma UnsafeRaise(p: Pool, desired: nat)
    requires Sound(p) && Raises(p, ReconcileTo(desired)) && !p.cancelled && !p.intake.Done? && SomeExiting(p.workers)
    ensures CanStrand(Next(p, ReconcileTo(desired)))
  {
    var q := Next(p, ReconcileTo(desired));
    var i :| 0 <= i < |p.workers| && p.workers[i].place.Exiting?;
    ReconciledWorkers(p, desired);
    assert LeaverOk(p.workers[i], p.stopping) && Remark(p.workers[i], q.workers[i]);
    var more := Strand(q, i);
  }

  lemma SafeRaise(p: Pool, desired: nat)
    requires Sound(p) && !SomeExiting(p.workers)
    ensures !CanStrand(Next(p, ReconcileTo(desired)))
  {
    var q := Next(p, ReconcileTo(desired));
    CarefulStep(p, ReconcileTo(desired));
    forall more | NoReconcile(more)
      ensures Run(q, more).lost == []
    {
      NoReconcileIsCareful(q, more);
      CarefulRun(q, more);
    }
  }

  // ----- With the context cancelled, or the intake gone -----

  /** The first worker that is not busy, whatever its mark: the first one available once marks are taken back. */
  function FirstFree(ws: seq<Worker>): Option<nat> { FirstAvailable(Undrained(ws)) }

  predicate FirstFreeExits(ws: seq<Worker>) {
    FirstFree(ws).Some? && FirstFree(ws).value < |ws| && ws[FirstFree(ws).value].place.Exiting?
  }

  predicate NobodyDrains(ws: seq<Worker>) { forall i :: 0 <= i < |ws| ==> !ws[i].draining }

  predicate ExitersFree(ws: seq<Worker>) { forall i :: 0 <= i < |ws| && ws[i].place.Exiting? ==> !ws[i].busy }

  predicate Covered(ws: seq<Worker>, i: nat)
    requires i < |ws|
  {
    exists f :: 0 <= f < i && Available(ws[f]) && !ws[f].place.Exiting?
  }

  /** Nobody leaves from now on but those who have passed their check, and before each of these there is an
      available worker that stays. */
  predicate Shielded(ws: seq<Worker>) {
    NobodyDrains(ws) && forall i :: 0 <= i < |ws| && ws[i].place.Exiting? ==> Covered(ws, i)
  }

  /** At most one more batch will be handed over, and to a worker that stays. */
  predicate LastHand(p: Pool) {
    match p.intake
    case Done => true
    case Looking | Passed => p.cancelled
    case Selecting | Holding(_) => p.cancelled && Shielded(p.workers)
  }

  ghost predicate Harmless(p: Pool) {
    Inv(p) && p.lost == [] && ExitersFree(p.workers) && LastHand(p)
  }

  /** What a step of a worker's goroutine makes of a worker that stays. */
  lemma WorkerStep(p: Pool, step: Step)
    requires Inv(p) && Enabled(p, step) && OfWorker(step)
    ensures var q := Next(p, step);
      && step.i < |p.workers| == |q.workers| && q.workers == p.workers[step.i := q.workers[step.i]]
      && q.intake == p.intake && q.cancelled == p.cancelled && q.lost == p.lost
      && var (w, v) := (p.workers[step.i], q.workers[step.i]);
         && v.draining == w.draining && !w.place.Exiting? && (Available(w) ==> Available(v))
         && (v.place.Exiting? ==> !v.busy && (p.stopping || w.draining))
  {
    assert SlotOk(p.workers[step.i]);
  }

  lemma WorkerShields(ws: seq<Worker>, i: nat, v: Worker)
    requires i < |ws| && Shielded(ws) && !ws[i].place.Exiting? && !v.place.Exiting?
    requires v.draining == ws[i].draining && (Available(ws[i]) ==> Available(v))
    ensures Shielded(ws[i := v])
  {
    var vs := ws[i := v];
    forall e | 0 <= e < |vs| && vs[e].place.Exiting?
      ensures Covered(vs, e)
    {
      assert Covered(ws, e);
      var f :| 0 <= f < e && Available(ws[f]) && !ws[f].place.Exiting?;
      assert Available(vs[f]) && !vs[f].place.Exiting?;
    }
  }

  lemma HarmlessWorker(p: Pool, step: Step)
    requires Harmless(p) && Enabled(p, step) && OfWorker(step)
    ensures ExitersFree(Next(p, step).workers) && LastHand(Next(p, step)) && Next(p, step).lost == []
  {
    WorkerStep(p, step);
    if p.intake.Selecting? || p.intake.Holding? {
      WorkerShields(p.workers, step.i, Next(p, step).workers[step.i]);
    }
  }

  lemma LeaveShields(ws: seq<Worker>, i: nat, more: seq<Worker>)
    requires i < |ws| && Shielded(ws) && ws[i].place.Exiting?
    requires forall k :: 0 <= k < |more| ==> !more[k].draining && !more[k].place.Exiting?
    ensures Shielded(ws[..i] + ws[i + 1..] + more)
  {
    var vs := ws[..i] + ws[i + 1..] + more;
    forall e | 0 <= e < |vs| && vs[e].place.Exiting?
      ensures Covered(vs, e)
    {
      var was := if e < i then e else e + 1;
      assert vs[e] == ws[was] && Covered(ws, was);
      var f :| 0 <= f < was && Available(ws[f]) && !ws[f].place.Exiting?;
      assert vs[if f < i then f else f - 1] == ws[f];
    }
  }

  lemma HarmlessLeave(p: Pool, i: nat)
    requires Harmless(p) && Enabled(p, Leave(i))
    ensures ExitersFree(Exit(p, i).workers) && LastHand(Exit(p, i)) && Exit(p, i).lost == []
  {
    var (rest, q) := (p.workers[..i] + p.workers[i + 1..], Exit(p, i));
    assert SlotOk(p.workers[i]);
    if p.intake.Selecting? || p.intake.Holding? {
      LeaveShields(p.workers, i, NewWorkers(p.started, |q.workers| - |rest|));
    }
  }

  lemma CoveredIsLater(ws: seq<Worker>, i: nat)
    requires i < |ws| && Covered(ws, i)
    ensures FirstAvailable(ws).Some? && FirstAvailable(ws).value < i
  {
    FirstAvailableIs(ws);
  }

  lemma FirstStays(ws: seq<Worker>)
    requires Shielded(ws) && FirstAvailable(ws).Some?
    ensures !ws[FirstAvailable(ws).value].place.Exiting?
  {
    var j := FirstAvailable(ws).value;
    if ws[j].place.Exiting? {
      CoveredIsLater(ws, j);
    }
  }

  lemma HarmlessHand(p: Pool)
    requires Harmless(p) && Enabled(p, Hand)
    ensures ExitersFree(Next(p, Hand).workers) && LastHand(Next(p, Hand)) && Next(p, Hand).lost == []
  {
    var j := FirstAvailable(p.workers).value;
    FirstAvailableIs(p.workers);
    assert !p.workers[j].place.Exiting? by { FirstStays(p.workers); }
  }

  lemma WakeShields(ws: seq<Worker>)
    ensures Shielded(ws) ==> Shielded(Woken(ws))
    ensures ExitersFree(ws) ==> ExitersFree(Woken(ws))
  {
    if Shielded(ws) {
      forall e | 0 <= e < |ws| && ws[e].place.Exiting?
        ensures Covered(Woken(ws), e)
      {
        assert Covered(ws, e);
        var f :| 0 <= f < e && Available(ws[f]) && !ws[f].place.Exiting?;
        assert Available(Woken(ws)[f]) && !Woken(ws)[f].place.Exiting?;
      }
    }
  }

  /** The other steps leave the workers alone, but for waking them, and never bring the intake back. */
  lemma HarmlessOther(p: Pool, step: Step)
    requires Harmless(p) && Enabled(p, step) && !OfWorker(step) && !step.Leave? && !step.Hand? && !step.ReconcileTo?
    ensures ExitersFree(Next(p, step).workers) && LastHand(Next(p, step)) && Next(p, step).lost == []
  {
    WakeShields(p.workers);
  }

  lemma HarmlessStep(p: Pool, step: Step)
    requires Harmless(p) && !step.ReconcileTo?
    ensures Harmless(Next(p, step))
  {
    StepKeeps(p, step);
    if Enabled(p, step) {
      if OfWorker(step) {
        HarmlessWorker(p, step);
      } else if step.Leave? {
        HarmlessLeave(p, step.i);
      } else if step.Hand? {
        HarmlessHand(p);
      } else {
        HarmlessOther(p, step);
      }
    }
  }

  lemma {:induction false} HarmlessRun(p: Pool, steps: seq<Step>)
    requires Harmless(p) && NoReconcile(steps)
    ensures Harmless(Run(p, steps))
  {
    if |steps| > 0 {
      HarmlessRun(p, steps[..|steps| - 1]);
      HarmlessStep(Run(p, steps[..|steps| - 1]), steps[|steps| - 1]);
    }
  }

  lemma HarmlessNeverStrands(q: Pool)
    requires Harmless(q)
    ensures !CanStrand(q)
  {
    forall more | NoReconcile(more)
      ensures Run(q, more).lost == []
    {
      HarmlessRun(q, more);
    }
  }

  lemma RaisedExiters(p: Pool, desired: nat)
    requires Sound(p) && Raises(p, ReconcileTo(desired))
    ensures var q := Reconcile(p, desired);
      && NobodyDrains(q.workers) && |p.workers| <= |q.workers|
      && (forall i :: 0 <= i < |p.workers| ==> Remark(p.workers[i], q.workers[i]))
      && (forall i :: 0 <= i < |q.workers| && q.workers[i].place.Exiting? ==> i < |p.workers| && !q.workers[i].busy)
  {
    ReconciledWorkers(p, desired);
    forall i | 0 <= i < |p.workers| && p.workers[i].place.Exiting?
      ensures !p.workers[i].busy
    {
      assert LeaverOk(p.workers[i], p.stopping);
    }
  }

  /** A raise takes all marks back, so the first worker that was not busy is now the first available. */
  lemma RaisedFirst(p: Pool, desired: nat)
    requires Sound(p) && Raises(p, ReconcileTo(desired))
    ensures var ws := Reconcile(p, desired).workers;
      && (FirstFreeExits(p.workers) ==> FirstAvailable(ws) == FirstFree(p.workers))
      && (!FirstFreeExits(p.workers) ==> Shielded(ws))
  {
    var (old_, ws) := (Undrained(p.workers), Reconcile(p, desired).workers);
    RaisedExiters(p, desired);
    FirstAvailableIs(old_);
    FirstAvailableIs(ws);
    if !FirstFreeExits(p.workers) {
      forall e | 0 <= e < |ws| && ws[e].place.Exiting?
        ensures Covered(ws, e)
      {
        assert Available(old_[e]);
        var f := FirstFree(p.workers).value;
        assert Available(ws[f]) && !ws[f].place.Exiting?;
      }
    }
  }

  /** The hand-over still to come goes to a worker past its check. */
  lemma UnsafeLastRaise(p: Pool, desired: nat)
    requires Sound(p) && Raises(p, ReconcileTo(desired)) && FirstFreeExits(p.workers)
    requires p.intake.Selecting? || p.intake.Holding?
    ensures CanStrand(Next(p, ReconcileTo(desired)))
  {
    var q := Next(p, ReconcileTo(desired));
    var i := FirstFree(p.workers).value;
    RaisedFirst(p, desired);
    RaisedExiters(p, desired);
    var first: seq<Step> := [];
    if p.intake.Selecting? {
      first := [Receive(1)];
      RunOne(q, Receive(1));
    }
    var held := Run(q, first);
    assert held.workers == q.workers && held.intake.Holding?;
    HandAndLeave(held, i);
    var second := OneMore(q, first, Hand);
    var third := OneMore(q, second, Leave(i));
  }

  lemma OneMore(q: Pool, first: seq<Step>, a: Step) returns (steps: seq<Step>)
    requires NoReconcile(first) && !a.ReconcileTo?
    ensures NoReconcile(steps) && Run(q, steps) == Next(Run(q, first), a)
  {
    steps := first + [a];
    RunConcat(q, first, [a]);
    RunOne(Run(q, first), a);
  }

  lemma HandAndLeave(p: Pool, i: nat)
    requires p.intake.Holding? && FirstAvailable(p.workers) == Some(i) && p.workers[i].place.Exiting?
    ensures Next(Next(p, Hand), Leave(i)).lost != []
  {
  }

  lemma SafeLastRaise(p: Pool, desired: nat)
    requires Sound(p) && Raises(p, ReconcileTo(desired))
    requires p.intake.Done? || (p.cancelled && (p.intake.Looking? || p.intake.Passed? || !FirstFreeExits(p.workers)))
    ensures !CanStrand(Next(p, ReconcileTo(desired)))
  {
    var q := Next(p, ReconcileTo(desired));
    StepKeeps(p, ReconcileTo(desired));
    RaisedExiters(p, desired);
    RaisedFirst(p, desired);
    HarmlessNeverStrands(q);
  }

  // ----- Exactly when -----

  /** While batches keep coming, any worker past its last check is in danger. Once the context is cancelled at
      most the batch that the intake is about to take is still handed over, to the first worker that is not
      busy. An intake that has returned hands over nothing. */
  predicate Endangers(p: Pool) {
    match p.intake
    case Done => false
    case Looking | Passed => !p.cancelled && SomeExiting(p.workers)
    case Selecting | Holding(_) => if p.cancelled then FirstFreeExits(p.workers) else SomeExiting(p.workers)
  }

  lemma StrandsExactly(p: Pool, desired: nat)
    requires Sound(p) && Raises(p, ReconcileTo(desired))
    ensures Endangers(p) <==> CanStrand(Next(p, ReconcileTo(desired)))
  {
    if p.intake.Done? || p.cancelled {
      if Endangers(p) { UnsafeLastRaise(p, desired); } else { SafeLastRaise(p, desired); }
    } else {
      if SomeExiting(p.workers) { UnsafeRaise(p, desired); } else { SafeRaise(p, desired); }
    }
  }

  /** Exactly when a raise is unsafe: from every pool reached carefully, raising the target lets some
      continuation without a further reconcile strand a batch if and only if Endangers holds; while the intake
      runs and nothing is cancelled, that is when a worker is between its last check and its removal. */
  lemma RaiseStrandsExactly(workers: nat, steps: seq<Step>, desired: nat)
    requires Careful(Initial(workers), steps) && Raises(Reached(workers, steps), ReconcileTo(desired))
    ensures var p := Reached(workers, steps);
      && (Endangers(p) <==> CanStrand(Next(p, ReconcileTo(desired))))
      && (!p.cancelled && !p.intake.Done? ==> (Endangers(p) <==> SomeExiting(p.workers)))
  {
    InitialOk(workers);
    CarefulRun(Initial(workers), steps);
    StrandsExactly(Reached(workers, steps), desired);
  }

  lemma {:induction false} NoReconcileIsCareful(p: Pool, steps: seq<Step>)
    requires NoReconcile(steps)
    ensures Careful(p, steps)
  {
    if |steps| > 0 {
      NoReconcileIsCareful(p, steps[..|steps| - 1]);
    }
  }

  // ----- The unsafe raise happens -----

  lemma FirstOfTwo(w0: Worker, w1: Worker)
    ensures FirstAvailable([w0, w1]) == if Available(w0) then Some(0) else if Available(w1) then Some(1) else None
  {
    assert [w0, w1][..1] == [w0] && [w0][..0] == [];
  }

  lemma ActiveOfTwo(w0: Worker, w1: Worker)
    ensures Sum([w0, w1], Active) == Active(w0) + Active(w1)
  {
    assert [w0, w1] == ([] + [w0]) + [w1];
    SumAppend([], w0, Active);
    SumAppend([w0], w1, Active);
  }

  lemma {:induction false} CarefulConcat(p: Pool, a: seq<Step>, b: seq<Step>)
    requires Careful(p, a) && Careful(Run(p, a), b)
    ensures Careful(p, a + b)
  {
    if |b| == 0 {
      assert a + b == a;
    } else {
      var init := b[..|b| - 1];
      CarefulConcat(p, a, init);
      RunConcat(p, a, init);
      assert (a + b)[..|a + b| - 1] == a + init;
    }
  }

  lemma CarefulOne(p: Pool, step: Step)
    requires !Raises(p, step)
    ensures Careful(p, [step])
  {
    assert [step][..0] == [];
  }

  lemma FourSteps(p: Pool, a: Step, b: Step, c: Step, d: Step) returns (steps: seq<Step>)
    ensures steps == [a] + [b] + [c] + [d] && Run(p, steps) == Next(Next(Next(Next(p, a), b), c), d)
  {
    steps := [a] + [b] + [c] + [d];
    RunConcat(p, [a] + [b] + [c], [d]);
    RunConcat(p, [a] + [b], [c]);
    RunConcat(p, [a], [b]);
    RunOne(p, a);
    RunOne(Next(p, a), b);
    RunOne(Next(Next(p, a), b), c);
    RunOne(Next(Next(Next(p, a), b), c), d);
  }

  lemma ThreeSteps(p: Pool, a: Step, b: Step, c: Step) returns (steps: seq<Step>)
    ensures steps == [a] + [b] + [c] && Run(p, steps) == Next(Next(Next(p, a), b), c)
  {
    steps := [a] + [b] + [c];
    RunConcat(p, [a] + [b], [c]);
    RunConcat(p, [a], [b]);
    RunOne(p, a);
    RunOne(Next(p, a), b);
    RunOne(Next(Next(p, a), b), c);
  }

  /** One batch goes through the intake to the first free of two workers. */
  lemma HandOne(p: Pool, w0: Worker, w1: Worker) returns (steps: seq<Step>)
    requires p.workers == [w0, w1] && p.intake.Looking? && !p.cancelled && (Available(w0) || Available(w1))
    ensures NoReconcile(steps)
    ensures var b := Some(Batch(p.received, 1));
            Run(p, steps) == p.(received := p.received + 1, workers :=
                      if Available(w0) then [w0.(busy := true, mailbox := b), w1]
                      else [w0, w1.(busy := true, mailbox := b)])
  {
    FirstOfTwo(w0, w1);
    steps := FourSteps(p, StopLooking, LockIntake, Receive(1), Hand);
    IntakeTakesOne(p);
  }

  lemma IntakeTakesOne(p: Pool)
    requires p.intake.Looking? && !p.cancelled && FirstAvailable(p.workers).Some?
    ensures Next(Next(Next(p, StopLooking), LockIntake), Receive(1))
         == p.(intake := Holding(Batch(p.received, 1)), received := p.received + 1)
  {
  }

  lemma LowerToOne(p: Pool, w0: Worker, w1: Worker)
    requires p.workers == [w0, w1] && !p.stopping && !w0.draining && !w1.draining && w0.busy && w1.busy
    ensures Reconcile(p, 1)
         == p.(desired := 1, barrier := {}, workers := [w0.(wake := true), w1.(draining := true, wake := true)])
  {
    var marked := [w0, w1.(draining := true)];
    ActiveOfTwo(w0, w1);
    ActiveOfTwo(w0, w1.(draining := true));
    assert [w0, w1][..1] == [w0];
    assert DrainFromBack([w0], 0) == [w0];
    assert DrainFromBack([w0, w1], 1) == marked;
    assert IdleDraining(marked) == {};
    assert Woken(marked) + NewWorkers(p.started, 0) == [w0.(wake := true), w1.(draining := true, wake := true)];
  }

  /** The second worker takes its batch and is marked to leave. */
  lemma MarkSecond(p: Pool, w0: Worker, w1: Worker, b: Batch) returns (steps: seq<Step>)
    requires p.workers == [w0, w1] && !p.stopping && p.barrier == {} && !w0.draining && !w1.draining && w0.busy
    requires w1.place.AtCheck? && w1.busy && w1.mailbox == Some(b)
    ensures Careful(p, steps)
    ensures Run(p, steps) == p.(desired := 1, workers :=
              [w0.(wake := true), w1.(mailbox := None, draining := true, wake := true, place := Processing(b))])
  {
    var (check, lower) := (CheckTop(1), SenderPool.ReconcileTo(1));
    var q := Next(p, check);
    assert q.workers == [w0, w1.(mailbox := None, place := Processing(b))];
    LowerToOne(q, q.workers[0], q.workers[1]);
    ActiveOfTwo(q.workers[0], q.workers[1]);
    RunOne(p, check);
    RunOne(q, lower);
    CarefulOne(p, check);
    CarefulOne(q, lower);
    RunConcat(p, [check], [lower]);
    CarefulConcat(p, [check], [lower]);
    steps := [check] + [lower];
  }

  /** It finishes, and passes its last check. */
  lemma FinishSecond(p: Pool, w0: Worker, w1: Worker) returns (steps: seq<Step>)
    requires p.workers == [w0, w1] && w1.place.Processing? && w1.draining && w1.mailbox.None?
    ensures NoReconcile(steps)
    ensures var q := Run(p, steps);
            && q.workers == [w0, w1.(busy := false, place := Exiting)]
            && q.barrier == p.barrier && q.stopping == p.stopping && q.cancelled == p.cancelled && q.intake == p.intake
  {
    steps := ThreeSteps(p, EndSending(1, true), MarkFree(1), CheckTop(1));
  }

  /** Two batches, one for each of two workers. */
  lemma BothBusy() returns (steps: seq<Step>, q: Pool)
    ensures NoReconcile(steps) && q == Reached(2, steps)
    ensures var w := Worker(0, false, true, Some(Batch(0, 1)), false, AtCheck);
      && q.workers == [w, w.(id := 1, mailbox := Some(Batch(1, 1)))]
      && !q.stopping && !q.cancelled && q.barrier == {} && q.intake.Looking?
  {
    var p := Initial(2);
    var w := Worker(0, false, false, None, false, AtCheck);
    assert p.workers == [w, w.(id := 1)];
    steps := HandOne(p, w, w.(id := 1));
    q := Run(p, steps);
    var more := HandOne(q, q.workers[0], q.workers[1]);
    RunConcat(p, steps, more);
    steps := steps + more;
    q := Run(p, steps);
  }

  /** With the second one busy and the target at one, it leaves its loop. */
  lemma SecondLeaves(q: Pool, w0: Worker, w1: Worker) returns (steps: seq<Step>)
    requires q.workers == [w0, w1] && !q.stopping && !q.cancelled && q.barrier == {} && q.intake.Looking?
    requires !w0.draining && !w1.draining && w0.busy && w1.place.AtCheck? && w1.busy && w1.mailbox == Some(Batch(1, 1))
    ensures Careful(q, steps)
    ensures var r := Run(q, steps);
      && |r.workers| == 2 && !r.workers[0].draining && r.workers[1].draining && r.workers[1].place.Exiting?
      && !r.stopping && !r.cancelled && r.barrier == {} && r.intake.Looking?
  {
    steps := MarkSecond(q, w0, w1, Batch(1, 1));
    var q1 := Run(q, steps);
    var more := FinishSecond(q1, q1.workers[0], q1.workers[1]);
    NoReconcileIsCareful(q1, more);
    RunConcat(q, steps, more);
    CarefulConcat(q, steps, more);
    steps := steps + more;
  }

  /** The unsafe raise can happen: with two workers busy, scale down to one, let the marked worker finish and
      pass its last check, and scale up again. */
  lemma UnsafeRaiseIsReachable() returns (steps: seq<Step>)
    ensures var p := Reached(2, steps);
      && Careful(Initial(2), steps) && Raises(p, ReconcileTo(2)) && SomeExiting(p.workers)
      && !p.cancelled && !p.intake.Done?
  {
    var first, q := BothBusy();
    NoReconcileIsCareful(Initial(2), first);
    var more := SecondLeaves(q, q.workers[0], q.workers[1]);
    RunConcat(Initial(2), first, more);
    CarefulConcat(Initial(2), first, more);
    steps := first + more;
    var r := Run(q, more);
    ActiveOfTwo(r.workers[0], r.workers[1]);
    assert r.workers == [r.workers[0], r.workers[1]];
  }
}
