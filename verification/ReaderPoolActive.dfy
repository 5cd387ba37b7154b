/** When the number of reader workers that are not draining can fall below the target. */
module ReaderPoolActive {
  import opened Prelude
  import opened ReaderPool

  function Active(ws: seq<Worker>): nat { Sum(ws, NonDraining) }

  predicate NobodyDrains(ws: seq<Worker>) { forall i :: 0 <= i < |ws| ==> !ws[i].draining }

  predicate LeaversDrain(ws: seq<Worker>) { forall i :: 0 <= i < |ws| && ws[i].place.Leaving? ==> ws[i].draining }

  /** Some worker has left its loop and is kept all the same. */
  predicate KeptLeaver(ws: seq<Worker>) { exists i :: 0 <= i < |ws| && ws[i].place.Leaving? && !ws[i].draining }

  /** The pool runs on, and its target is left alone. */
  predicate Calm(steps: seq<Step>) {
    forall n :: 0 <= n < |steps| ==> !steps[n].ReconcileTo? && !steps[n].Cancel? && !steps[n].MarkStopping?
  }

  ghost predicate CanFallShort(q: Pool) {
    exists steps :: Calm(steps) && Active(Run(q, steps).workers) < q.desired
  }

  lemma ActiveAfterExit(ws: seq<Worker>, i: nat)
    requires i < |ws|
    ensures Active(ws[..i] + ws[i + 1..]) + NonDraining(ws[i]) == Active(ws)
  {
    SplitAt(ws, i);
    SumMiddle(ws[..i], ws[i], ws[i + 1..], NonDraining);
  }

  lemma ActiveAfterPut(ws: seq<Worker>, i: nat, w: Worker)
    requires i < |ws| && w.draining == ws[i].draining
    ensures Active(ws[i := w]) == Active(ws)
  {
    SumUpdate(ws, i, w, NonDraining);
  }

  lemma {:induction false} ActiveAtMost(ws: seq<Worker>)
    ensures Active(ws) <= |ws|
  {
    if |ws| > 0 {
      ActiveAtMost(ws[..|ws| - 1]);
    }
  }

  lemma OneMore(ws: seq<Worker>, started: nat)
    ensures Active(ws + Fresh(started, 1)) == Active(ws) + 1
    ensures LeaversDrain(ws) ==> LeaversDrain(ws + Fresh(started, 1))
    ensures NobodyDrains(ws) ==> NobodyDrains(ws + Fresh(started, 1))
  {
    SumAppend(ws, Worker(started, false, false, Looping), NonDraining);
    assert ws + Fresh(started, 1) == ws + [Worker(started, false, false, Looping)];
  }

  // ----- What a calm run keeps -----

  /** With a target that is met, nothing that still leaves is missed: everyone who leaves drains, or nobody
      drains and so every leaver is replaced. */
  predicate Firm(p: Pool) {
    && !p.cancelled && !p.stopping && Active(p.workers) >= p.desired
    && (NobodyDrains(p.workers) || LeaversDrain(p.workers))
  }

  predicate Moves(step: Step) { step.Claim? || step.Release? || step.CheckContext? }

  /** A worker's own move keeps its mark, and takes it out of its loop only when it drains. */
  lemma MoveIsPut(p: Pool, step: Step)
    requires !p.cancelled && !p.stopping && Enabled(p, step) && Moves(step)
    ensures var q := Next(p, step);
      && step.i < |p.workers| == |q.workers| && q.workers == p.workers[step.i := q.workers[step.i]]
      && q.workers[step.i].draining == p.workers[step.i].draining
      && (q.workers[step.i].place.Leaving? ==> p.workers[step.i].draining)
      && q.desired == p.desired && q.cancelled == p.cancelled && q.stopping == p.stopping
  {
  }

  lemma MoveKeepsFirm(p: Pool, step: Step)
    requires Firm(p) && Enabled(p, step) && Moves(step)
    ensures Firm(Next(p, step)) && Active(Next(p, step).workers) == Active(p.workers)
    ensures LeaversDrain(p.workers) ==> LeaversDrain(Next(p, step).workers)
  {
    MoveIsPut(p, step);
    ActiveAfterPut(p.workers, step.i, Next(p, step).workers[step.i]);
  }

  lemma ExitKeepsFirm(p: Pool, i: nat)
    requires Firm(p) && Enabled(p, Leave(i))
    ensures Firm(Exit(p, i))
    ensures LeaversDrain(p.workers) ==>
              LeaversDrain(Exit(p, i).workers) && Active(Exit(p, i).workers) == Active(p.workers)
  {
    var rest := p.workers[..i] + p.workers[i + 1..];
    ActiveAfterExit(p.workers, i);
    ActiveAtMost(rest);
    OneMore(rest, p.started);
    if NobodyDrains(p.workers) {
      NoneDrainingCount(rest);
    }
  }

  lemma NoneDrainingCount(ws: seq<Worker>)
    requires NobodyDrains(ws)
    ensures Active(ws) == |ws|
  {
    AllStay(ws);
  }

  lemma FirmStep(p: Pool, step: Step)
    requires Firm(p) && Calm([step])
    ensures Firm(Next(p, step)) && Next(p, step).desired == p.desired
    ensures LeaversDrain(p.workers) ==>
              LeaversDrain(Next(p, step).workers) && Active(Next(p, step).workers) == Active(p.workers)
  {
    assert [step][0] == step;
    if Enabled(p, step) {
      if step.Leave? {
        ExitKeepsFirm(p, step.i);
      } else {
        MoveKeepsFirm(p, step);
      }
    }
  }

  lemma {:induction false} FirmRun(p: Pool, steps: seq<Step>)
    requires Firm(p) && Calm(steps)
    ensures Firm(Run(p, steps)) && Run(p, steps).desired == p.desired
  {
    if |steps| > 0 {
      FirmRun(p, steps[..|steps| - 1]);
      FirmStep(Run(p, steps[..|steps| - 1]), steps[|steps| - 1]);
    }
  }

  // ----- Exactly when it falls short -----

  lemma {:induction false} FullMeansNobody(ws: seq<Worker>)
    requires Active(ws) == |ws|
    ensures NobodyDrains(ws)
  {
    if |ws| > 0 {
      var (init, last) := (ws[..|ws| - 1], ws[|ws| - 1]);
      ActiveAtMost(init);
      FullMeansNobody(init);
      assert forall i :: 0 <= i < |init| ==> ws[i] == init[i];
    }
  }

  lemma ExitFallsShort(q: Pool, i: nat)
    requires !q.cancelled && !q.stopping && Active(q.workers) == q.desired < |q.workers|
    requires i < |q.workers| && q.workers[i].place.Leaving? && !q.workers[i].draining
    ensures CanFallShort(q)
  {
    var steps := [Leave(i)];
    ActiveAfterExit(q.workers, i);
    assert steps[..0] == [];
    assert Run(q, steps) == Next(q, Leave(i));
    assert Calm(steps);
  }

  /** Right after a reconcile the target is met. It can fall short later, without a further reconcile or a
      cancellation, exactly when the reconcile kept a worker that had already left its loop while it told
      others to leave. */
  lemma FallsShortExactly(p: Pool, desired: nat)
    requires Inv(p) && !p.cancelled && !p.stopping
    ensures var q := Reconcile(p, desired);
            CanFallShort(q) <==> KeptLeaver(q.workers) && |q.workers| > q.desired
  {
    var q := Reconcile(p, desired);
    ReconcileIsExact(p, desired);
    if KeptLeaver(q.workers) && |q.workers| > q.desired {
      var i :| 0 <= i < |q.workers| && q.workers[i].place.Leaving? && !q.workers[i].draining;
      ExitFallsShort(q, i);
    } else {
      if |q.workers| == q.desired { FullMeansNobody(q.workers); }
      forall steps | Calm(steps)
        ensures Active(Run(q, steps).workers) >= q.desired
      {
        FirmRun(q, steps);
      }
    }
  }

  // ----- A condition to keep to -----

  /** Every reconcile comes at a moment when no worker drains. */
  predicate Patient(p: Pool, steps: seq<Step>) {
    |steps| > 0 ==>
      && Patient(p, steps[..|steps| - 1])
      && (steps[|steps| - 1].ReconcileTo? ==> NobodyDrains(Run(p, steps[..|steps| - 1]).workers))
  }

  predicate Met(p: Pool) {
    !p.cancelled ==> !p.stopping && Active(p.workers) == p.desired && LeaversDrain(p.workers)
  }

  lemma ReconcileMeets(p: Pool, desired: nat)
    requires Met(p) && NobodyDrains(p.workers)
    ensures Met(Reconcile(p, desired))
  {
    if !p.cancelled {
      ReconcileIsExact(p, desired);
    }
  }

  lemma StepMeets(p: Pool, step: Step)
    requires Met(p) && (step.ReconcileTo? ==> NobodyDrains(p.workers))
    ensures Met(Next(p, step))
  {
    if !p.cancelled && Enabled(p, step) {
      match step
      case ReconcileTo(desired) => ReconcileMeets(p, desired);
      case Cancel =>
      case MarkStopping =>
      case _ => FirmStep(p, step);
    }
  }

  lemma {:induction false} PatientRun(p: Pool, steps: seq<Step>)
    requires Met(p) && Patient(p, steps)
    ensures Met(Run(p, steps))
  {
    if |steps| > 0 {
      PatientRun(p, steps[..|steps| - 1]);
      StepMeets(Run(p, steps[..|steps| - 1]), steps[|steps| - 1]);
    }
  }

  lemma InitialMeets(files: Pos, workers: nat)
    ensures Met(Initial(files, workers))
  {
    ReconcileMeets(Pool(files, {}, 0, [], 0, false, false, 0, []), workers);
  }

  /** Reconciling only while nobody drains keeps the active workers at exactly the target until cancellation. */
  lemma PatientStaysExact(files: Pos, workers: nat, steps: seq<Step>)
    requires Patient(Initial(files, workers), steps)
    ensures var p := Reached(files, workers, steps); !p.cancelled ==> Active(p.workers) == p.desired
  {
    InitialMeets(files, workers);
    PatientRun(Initial(files, workers), steps);
  }

  // ----- It does happen -----

  /** The workers that are not draining can be fewer than desired between reconciles: one told to leave and
      then kept may have left its loop already, and its place is not refilled while another one drains. The
      bound on live workers is the one that always holds. */
  lemma KeptWorkersCanBeShort() returns (steps: seq<Step>)
    ensures var p := Reached(1, 2, steps); !p.cancelled && |p.workers| == p.desired == 1 && p.workers[0].draining
  {
    var initial, first := FirstFour();
    ThreeMore(initial, first, ReconcileTo(2), ReconcileTo(1), Leave(1));
    KeptThenShort(Run(initial, first));
    steps := first + [ReconcileTo(2), ReconcileTo(1), Leave(1)];
  }

  lemma FourSteps(p: Pool, a: Step, b: Step, c: Step, d: Step)
    ensures Run(p, [a, b, c, d]) == Next(Next(Next(Next(p, a), b), c), d)
  {
    var steps := [a, b, c, d];
    RunStep(p, steps, 0);
    RunStep(p, steps, 1);
    RunStep(p, steps, 2);
    RunStep(p, steps, 3);
    assert steps[..4] == steps;
  }

  lemma ThreeMore(p: Pool, first: seq<Step>, a: Step, b: Step, c: Step)
    ensures Run(p, first + [a, b, c]) == Next(Next(Next(Run(p, first), a), b), c)
  {
    var (steps, n) := (first + [a, b, c], |first|);
    RunStep(p, steps, n);
    RunStep(p, steps, n + 1);
    RunStep(p, steps, n + 2);
    assert steps[..n] == first && steps[..n + 3] == steps;
  }

  /** One worker reads while the other one is told to leave and does. */
  lemma FirstFour() returns (p: Pool, steps: seq<Step>)
    ensures p == Initial(1, 2)
    ensures var q := Run(p, steps);
            && q.workers == [Worker(0, false, false, Released), Worker(1, true, false, Leaving)]
            && !q.stopping && !q.cancelled
  {
    p := Initial(1, 2);
    OneToldToLeave();
    FourSteps(p, Claim(0), ReconcileTo(1), Claim(1), Release(0));
    steps := [Claim(0), ReconcileTo(1), Claim(1), Release(0)];
  }

  lemma OneToldToLeave()
    ensures var p := Next(Next(Next(Next(Initial(1, 2), Claim(0)), ReconcileTo(1)), Claim(1)), Release(0));
            && p.workers == [Worker(0, false, false, Released), Worker(1, true, false, Leaving)]
            && !p.stopping && !p.cancelled
  {
    var (w0, w1) := (Worker(0, false, false, Looping), Worker(1, false, false, Looping));
    assert Initial(1, 2).workers == [w0, w1];
    var p1 := Next(Initial(1, 2), Claim(0));
    assert p1.workers == [w0.(busy := true, place := Owning(0)), w1];
    ReconcileTwo(p1, 1);
  }

  lemma KeptThenShort(p: Pool)
    requires p.workers == [Worker(0, false, false, Released), Worker(1, true, false, Leaving)]
    requires !p.stopping && !p.cancelled
    ensures var q := Next(Next(Next(p, ReconcileTo(2)), ReconcileTo(1)), Leave(1));
            !q.cancelled && |q.workers| == q.desired == 1 && q.workers[0].draining
  {
    ReconcileTwo(p, 2);
    ReconcileTwo(Next(p, ReconcileTo(2)), 1);
  }

  lemma ReconcileTwo(p: Pool, desired: nat)
    requires |p.workers| == 2 && desired <= 2 && !p.stopping && !p.cancelled
    ensures var (ws, excess) := (p.workers, 2 - desired);
            var first := if ws[0].busy && !ws[1].busy then 1 else 0;
            Next(p, ReconcileTo(desired)).workers
              == [ws[0].(draining := first < excess), ws[1].(draining := 1 - first < excess)]
  {
    var ws := p.workers;
    assert ws[..0] == [] && ws[..1] == [] + [ws[0]] && ws == [ws[0]] + [ws[1]];
    SumAppend([], ws[0], Idle);
    SumAppend([ws[0]], ws[1], Idle);
    SumAppend([], ws[0], Busy);
  }

  lemma RunStep(p: Pool, steps: seq<Step>, k: nat)
    requires k < |steps|
    ensures Run(p, steps[..k + 1]) == Next(Run(p, steps[..k]), steps[k])
  {
    assert steps[..k + 1][..k] == steps[..k];
  }
}
