/** The sender pool never gets stuck: from every reached state there is a way for its goroutines to go on that
    delivers all that was received, and one that lets it stop. */
module SenderPoolProgress {
  import opened Prelude
  import opened SenderPool
  import opened SenderPoolSafety
  import opened SenderPoolTheorems

  /** What a worker has left to do with its batch. */
  function Left(w: Worker): nat {
    if w.mailbox.Some? then 3
    else
      match w.place
      case Processing(_) => 2
      case Completed => 1
      case _ => 0
  }

  function InHandLeft(intake: Intake): nat { if intake.Holding? then 4 else 0 }

  predicate AllFree(ws: seq<Worker>) { forall i :: 0 <= i < |ws| ==> !ws[i].busy }

  /** The next step of a busy worker. */
  function WorkStep(w: Worker, i: nat): Step {
    match w.place
    case Processing(_) => EndSending(i, true)
    case Completed => MarkFree(i)
    case Waiting => TakeWork(i)
    case _ => CheckTop(i)
  }

  /** Unchanged by the steps of workers and by hand-overs. */
  predicate SameOutside(p: Pool, q: Pool) {
    && q.received == p.received && q.desired == p.desired && q.cancelled == p.cancelled && q.stopping == p.stopping
    && q.barrier == p.barrier
  }

  /** Only worker i has moved, and it is nearer to its end. */
  predicate Nearer(p: Pool, q: Pool, i: nat, far: Worker -> nat)
    requires i < |p.workers|
  {
    && SameOutside(p, q) && q.intake == p.intake
    && |q.workers| == |p.workers| && q.workers == p.workers[i := q.workers[i]] && far(q.workers[i]) < far(p.workers[i])
  }

  lemma WorkIsNearer(p: Pool, i: nat)
    requires i < |p.workers| && p.workers[i].busy && SlotOk(p.workers[i]) && LeaverOk(p.workers[i], p.stopping)
    ensures Nearer(p, Next(p, WorkStep(p.workers[i], i)), i, Left)
  {
  }

  lemma NearerIsLess(p: Pool, q: Pool, i: nat, far: Worker -> nat)
    requires i < |p.workers| && Nearer(p, q, i, far)
    ensures Sum(q.workers, far) < Sum(p.workers, far)
  {
    SumUpdate(p.workers, i, q.workers[i], far);
  }

  lemma WorkProceeds(p: Pool, i: nat)
    requires Sound(p) && i < |p.workers| && p.workers[i].busy
    ensures var q := Next(p, WorkStep(p.workers[i], i));
      Sound(q) && SameOutside(p, q) && q.intake == p.intake && Sum(q.workers, Left) < Sum(p.workers, Left)
  {
    var step := WorkStep(p.workers[i], i);
    WorkIsNearer(p, i);
    NearerIsLess(p, Next(p, step), i, Left);
    CarefulStep(p, step);
  }

  lemma {:induction false} SomeActive(ws: seq<Worker>)
    requires Sum(ws, Active) > 0
    ensures exists i :: 0 <= i < |ws| && !ws[i].draining
  {
    if ws[|ws| - 1].draining {
      SomeActive(ws[..|ws| - 1]);
      var i :| 0 <= i < |ws| - 1 && !ws[..|ws| - 1][i].draining;
      assert !ws[i].draining;
    }
  }

  /** With nobody busy, somebody who stays can take the batch in hand. */
  lemma HandProceeds(p: Pool)
    requires Sound(p) && !p.stopping && p.desired > 0 && p.intake.Holding? && AllFree(p.workers)
    ensures var q := Next(p, Hand);
      Sound(q) && SameOutside(p, q) && !q.intake.Holding? && Sum(q.workers, Left) <= Sum(p.workers, Left) + 3
  {
    SomeActive(p.workers);
    FirstAvailableIs(p.workers);
    var j := FirstAvailable(p.workers).value;
    CarefulStep(p, Hand);
    SumUpdate(p.workers, j, Next(p, Hand).workers[j], Left);
  }

  lemma RunFirst(p: Pool, step: Step, rest: seq<Step>)
    ensures Run(p, [step] + rest) == Run(Next(p, step), rest)
  {
    RunOne(p, step);
    RunConcat(p, [step], rest);
  }

  lemma {:induction false} DeliverAll(p: Pool) returns (steps: seq<Step>)
    requires Sound(p) && !p.stopping && p.desired > 0
    ensures NoReconcile(steps)
    ensures var q := Run(p, steps); Sound(q) && SameOutside(p, q) && !q.intake.Holding? && AllFree(q.workers)
    decreases InHandLeft(p.intake) + Sum(p.workers, Left)
  {
    if i :| 0 <= i < |p.workers| && p.workers[i].busy {
      var step := WorkStep(p.workers[i], i);
      WorkProceeds(p, i);
      var rest := DeliverAll(Next(p, step));
      RunFirst(p, step, rest);
      steps := [step] + rest;
    } else if p.intake.Holding? {
      HandProceeds(p);
      var rest := DeliverAll(Next(p, Hand));
      RunFirst(p, Hand, rest);
      steps := [Hand] + rest;
    } else {
      steps := [];
    }
  }

  /** Everything received has ended, delivered, exactly once. */
  ghost predicate AllDelivered(p: Pool) {
    && (forall j :: 0 <= j < |p.finished| ==> p.finished[j].delivered)
    && (forall k: nat :: Sum(p.finished, EndedAs(k)) == if k < p.received then 1 else 0)
  }

  lemma FreeOwnNothing(p: Pool)
    requires Sound(p) && !p.cancelled && !p.intake.Holding? && AllFree(p.workers)
    ensures AllDelivered(p)
  {
    forall k: nat ensures Sum(p.finished, EndedAs(k)) == if k < p.received then 1 else 0 {
      assert Once(p, k);
      assert forall i :: 0 <= i < |p.workers| ==> SlotOk(p.workers[i]);
      SumZero(p.workers, OwnedBy(k));
    }
  }

  /** In every careful run that is not cancelled, with at least one worker desired, whatever the goroutines have done
      so far: all batches received so far can still be delivered, without any help of the control goroutine. */
  lemma AllCanBeDelivered(workers: nat, steps: seq<Step>)
    requires Careful(Initial(workers), steps)
    requires !Reached(workers, steps).cancelled && Reached(workers, steps).desired > 0
    ensures exists more :: NoReconcile(more)
              && Run(Reached(workers, steps), more).received == Reached(workers, steps).received
              && AllDelivered(Run(Reached(workers, steps), more))
  {
    InitialOk(workers);
    CarefulRun(Initial(workers), steps);
    var p := Reached(workers, steps);
    var more := DeliverAll(p);
    FreeOwnNothing(Run(p, more));
  }

  // ----- Stopping -----

  /** How far a worker of a stopping pool is from being gone. */
  function ToGo(w: Worker): nat {
    if w.mailbox.Some? then 8
    else
      match w.place
      case Processing(_) => 6
      case Completed => 5
      case Waiting => 3
      case AtCheck => 2
      case Exiting => 1
  }

  function LeaveStep(w: Worker): Step {
    match w.place
    case Processing(_) => EndSending(0, true)
    case Completed => MarkFree(0)
    case Waiting => if w.mailbox.Some? then TakeWork(0) else TakeWake(0)
    case AtCheck => CheckTop(0)
    case Exiting => Leave(0)
  }

  lemma LeavingIsNearer(p: Pool)
    requires p.stopping && |p.workers| > 0 && !p.workers[0].place.Exiting?
    requires SlotOk(p.workers[0]) && WillWake(p.workers[0], p.stopping)
    ensures Nearer(p, Next(p, LeaveStep(p.workers[0])), 0, ToGo)
  {
  }

  lemma GoneIsLess(p: Pool)
    requires p.stopping && At(p, 0, Exiting)
    ensures var q := Next(p, Leave(0));
      SameOutside(p, q) && q.intake == p.intake && Sum(q.workers, ToGo) < Sum(p.workers, ToGo)
  {
    SumHead(p.workers, ToGo);
    assert Next(p, Leave(0)).workers == p.workers[1..];
  }

  lemma LeavingProceeds(p: Pool)
    requires Sound(p) && p.stopping && |p.workers| > 0
    ensures var q := Next(p, LeaveStep(p.workers[0]));
      Sound(q) && SameOutside(p, q) && q.intake == p.intake && Sum(q.workers, ToGo) < Sum(p.workers, ToGo)
  {
    var step := LeaveStep(p.workers[0]);
    if step.Leave? {
      GoneIsLess(p);
    } else {
      LeavingIsNearer(p);
      NearerIsLess(p, Next(p, step), 0, ToGo);
    }
    CarefulStep(p, step);
  }

  lemma {:induction false} AllLeave(p: Pool) returns (steps: seq<Step>)
    requires Sound(p) && p.stopping
    ensures NoReconcile(steps)
    ensures var q := Run(p, steps); Sound(q) && SameOutside(p, q) && q.intake == p.intake && q.workers == []
    decreases Sum(p.workers, ToGo)
  {
    steps := [];
    if |p.workers| > 0 {
      var step := LeaveStep(p.workers[0]);
      LeavingProceeds(p);
      var rest := AllLeave(Next(p, step));
      RunFirst(p, step, rest);
      steps := [step] + rest;
    }
  }

  /** The intake of a cancelled pool, with no batch in hand, can return. */
  lemma IntakeReturns(p: Pool) returns (steps: seq<Step>)
    requires Sound(p) && p.cancelled && !p.intake.Holding?
    ensures NoReconcile(steps)
    ensures var q := Run(p, steps); Sound(q) && SameOutside(p, q) && q.intake.Done? && q.workers == p.workers
  {
    if p.intake.Done? { return []; }
    var step :=
      if p.intake.Looking? then StopLooking else if p.intake.Passed? then LockIntake else QuitReceiving(false);
    CarefulStep(p, step);
    RunOne(p, step);
    return [step];
  }

  /** Both of the stopping goroutine's moves, and what they lead to. */
  predicate Joined(q: Pool) { q.stopping && q.intake.Done? && q.workers == [] }

  lemma MarkAndLeave(p: Pool) returns (steps: seq<Step>)
    requires Sound(p) && p.cancelled && p.intake.Done? && p.barrier == {}
    ensures NoReconcile(steps) && Joined(Run(p, steps))
  {
    var q := Next(p, MarkStopping);
    CarefulStep(p, MarkStopping);
    var rest := AllLeave(q);
    RunFirst(p, MarkStopping, rest);
    steps := [MarkStopping] + rest;
  }

  lemma StopsFrom(p: Pool) returns (steps: seq<Step>)
    requires Sound(p) && !p.stopping && p.desired > 0 && p.barrier == {}
    ensures NoReconcile(steps) && Joined(Run(p, steps))
  {
    var p1 := Next(p, Cancel);
    CarefulStep(p, Cancel);
    var first := DeliverAll(p1);
    var p2 := Run(p1, first);
    var second := IntakeReturns(p2);
    var p3 := Run(p2, second);
    var third := MarkAndLeave(p3);
    RunConcat(p2, second, third);
    RunConcat(p1, first, second + third);
    RunFirst(p, Cancel, first + (second + third));
    steps := [Cancel] + (first + (second + third));
  }

  /** In every careful run with at least one worker desired, whenever the control goroutine is not inside a reconcile:
      the pool can be stopped, with the intake returned and every worker gone. No goroutine waits for something that
      cannot come. */
  lemma StopCanEnd(workers: nat, steps: seq<Step>)
    requires Careful(Initial(workers), steps)
    requires var p := Reached(workers, steps); !p.stopping && p.desired > 0 && p.barrier == {}
    ensures exists more :: NoReconcile(more) && Joined(Run(Reached(workers, steps), more))
  {
    InitialOk(workers);
    CarefulRun(Initial(workers), steps);
    var more := StopsFrom(Reached(workers, steps));
  }
}
