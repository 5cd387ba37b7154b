/** The sender pool's critical sections as the source writes them, proved to be the steps of the model. */
module SenderPoolMethods {
  import opened Prelude
  import opened SenderPool
  import opened SenderPoolSafety

  /** Workers stay in the order they were started in. */
  predicate InStartOrder(ws: seq<Worker>, started: nat) {
    && (forall i :: 0 <= i < |ws| ==> ws[i].id < started)
    && (forall i, j :: 0 <= i < j < |ws| ==> ws[i].id < ws[j].id)
  }

  lemma OrderKept(p: Pool, step: Step)
    requires InStartOrder(p.workers, p.started)
    ensures var q := Next(p, step); InStartOrder(q.workers, q.started)
  {
    if Enabled(p, step) {
      match step
      case Leave(i) => OrderLeft(p, i);
      case ReconcileTo(desired) => if !p.stopping { OrderReconciled(p, desired); }
      case _ =>
        IdsStay(p, step);
        SameIds(p.workers, Next(p, step).workers, p.started);
    }
  }

  lemma IdsStay(p: Pool, step: Step)
    requires Enabled(p, step) && !step.Leave? && (step.ReconcileTo? ==> p.stopping)
    ensures var q := Next(p, step);
      |q.workers| == |p.workers| && q.started == p.started
      && forall i :: 0 <= i < |p.workers| ==> q.workers[i].id == p.workers[i].id
  {
  }

  lemma SameIds(ws: seq<Worker>, vs: seq<Worker>, started: nat)
    requires InStartOrder(ws, started) && |vs| == |ws| && forall i :: 0 <= i < |ws| ==> vs[i].id == ws[i].id
    ensures InStartOrder(vs, started)
  {
  }

  lemma MoreIds(ws: seq<Worker>, started: nat, count: nat)
    requires InStartOrder(ws, started)
    ensures InStartOrder(ws + NewWorkers(started, count), started + count)
  {
  }

  lemma OrderLeft(p: Pool, i: nat)
    requires InStartOrder(p.workers, p.started) && i < |p.workers|
    ensures InStartOrder(Exit(p, i).workers, Exit(p, i).started)
  {
    var rest := p.workers[..i] + p.workers[i + 1..];
    assert InStartOrder(rest, p.started);
    MoreIds(rest, p.started, |Exit(p, i).workers| - |rest|);
  }

  lemma OrderReconciled(p: Pool, desired: nat)
    requires InStartOrder(p.workers, p.started) && !p.stopping
    ensures InStartOrder(Reconcile(p, desired).workers, Reconcile(p, desired).started)
  {
    var marked := Remarked(p.workers, desired);
    RemarkedIs(p.workers, desired);
    forall i | 0 <= i < |marked|
      ensures Woken(marked)[i].id == p.workers[i].id
    {
      assert Remark(p.workers[i], marked[i]);
    }
    SameIds(p.workers, Woken(marked), p.started);
    MoreIds(Woken(marked), p.started, Missing(marked, desired));
  }

  lemma {:induction false} FirstAvailablePrefix(ws: seq<Worker>, n: nat)
    requires n <= |ws|
    ensures FirstAvailable(ws[..n]).Some? ==> FirstAvailable(ws) == FirstAvailable(ws[..n])
  {
    if n < |ws| {
      assert ws[..|ws| - 1][..n] == ws[..n];
      FirstAvailablePrefix(ws[..|ws| - 1], n);
    } else {
      assert ws[..n] == ws;
    }
  }

  lemma NextPrefix(ws: seq<Worker>, i: nat, f: Worker -> nat)
    requires i < |ws|
    ensures Sum(ws[..i + 1], f) == Sum(ws[..i], f) + f(ws[i])
  {
    assert ws[..i + 1] == ws[..i] + [ws[i]];
    SumAppend(ws[..i], ws[i], f);
  }

  lemma InitialIs(p: Pool, count: nat)
    requires p == Initial(count)
    ensures Inv(p) && InStartOrder(p.workers, p.started)
  {
    InitialOk(count);
  }

  lemma NoneBefore(ws: seq<Worker>, vs: seq<Worker>)
    requires ws == [] + vs
    ensures ws == vs
  {
  }

  class StatefulSenderPool {
    var workers: seq<Worker>
    var desired: nat
    var cancelled: bool
    var stopping: bool
    var paused: bool
    var intake: Intake
    var barrier: set<nat>
    var started: nat
    ghost var counter: nat
    ghost var received: nat
    ghost var finished: seq<Finished>
    ghost var lost: seq<Batch>

    ghost function View(): Pool
      reads this
    {
      Pool(workers, desired, cancelled, stopping, paused, intake, barrier, started, counter, received, finished, lost)
    }

    ghost predicate Valid()
      reads this
    {
      Inv(View()) && InStartOrder(workers, started)
    }

    constructor (count: nat)
      ensures Valid() && View() == Initial(count)
    {
      workers, desired, cancelled, stopping, paused, intake := [], count, false, false, false, Looking;
      barrier, started, counter, received, finished, lost := {}, 0, 0, 0, [], [];
      new;
      StartWorkers(0);
      NoneBefore(workers, NewWorkers(0, count));
      InitialIs(View(), count);
    }

    method AvailableWorkerLocked() returns (selected: Option<nat>)
      ensures selected == FirstAvailable(workers)
    {
      selected := None;
      for i := 0 to |workers|
        invariant selected == FirstAvailable(workers[..i])
      {
        assert workers[..i + 1][..i] == workers[..i];
        if workers[i].draining || workers[i].busy { continue; }
        if selected.None? { selected := Some(i); }
      }
      assert workers[..|workers|] == workers;
    }

    method ActiveWorkerCountLocked() returns (active: nat)
      ensures active == Sum(workers, Active)
    {
      active := 0;
      for i := 0 to |workers|
        invariant active == Sum(workers[..i], Active)
      {
        NextPrefix(workers, i, Active);
        if !workers[i].draining { active := active + 1; }
      }
      assert workers[..|workers|] == workers;
    }

    method StartWorkerLocked()
      modifies `workers, `started
      ensures workers == old(workers) + NewWorkers(old(started), 1) && started == old(started) + 1
    {
      workers := workers + [Worker(started, false, false, None, false, AtCheck)];
      started := started + 1;
    }

    /** Starts workers until the desired number is active. */
    method StartWorkers(active: nat)
      modifies `workers, `started
      ensures var missing := if active < desired then desired - active else 0;
              workers == old(workers) + NewWorkers(old(started), missing) && started == old(started) + missing
    {
      ghost var (ws, first) := (workers, started);
      var running := active;
      while running < desired
        invariant active <= running && (running <= desired || running == active)
        invariant workers == ws + NewWorkers(first, running - active) && started == first + running - active
      {
        StartWorkerLocked();
        running := running + 1;
      }
    }

    /** Marks active workers from the back until no more than desired are active. */
    method DrainExcess(active: nat) returns (left: nat)
      requires active == Sum(workers, Active) > desired
      modifies `workers
      ensures workers == DrainFromBack(old(workers), active - desired) && left == desired
    {
      ghost var (ws, tail, drained) := (workers, [], DrainFromBack(workers, active - desired));
      left := active;
      var index := |workers|;
      assert ws[..index] == ws && drained + [] == drained;
      while left > desired && index > 0
        invariant index <= |ws| && desired <= left && workers == ws[..index] + tail
        invariant left - desired <= Sum(ws[..index], Active)
        invariant DrainFromBack(ws[..index], left - desired) + tail == drained
        decreases index
      {
        index := index - 1;
        NextPrefix(ws, index, Active);
        DrainOne(ws, index, left - desired, tail);
        tail := [ws[index].(draining := true)] + tail;
        if workers[index].draining { continue; }
        workers := workers[index := workers[index].(draining := true)];
        left := left - 1;
      }
    }

    method UndrainAll()
      modifies `workers
      ensures workers == Undrained(old(workers))
    {
      ghost var ws := workers;
      for i := 0 to |workers|
        invariant |workers| == |ws|
        invariant forall k :: 0 <= k < |ws| ==> workers[k] == if k < i then ws[k].(draining := false) else ws[k]
      {
        if !workers[i].draining { continue; }
        workers := workers[i := workers[i].(draining := false)];
      }
    }

    /** Sends every worker a token, and finds the idle ones that are to leave. */
    method WakeAll() returns (idleDraining: set<nat>)
      modifies `workers
      ensures workers == Woken(old(workers)) && idleDraining == IdleDraining(old(workers))
    {
      ghost var ws := workers;
      idleDraining := {};
      for i := 0 to |workers|
        invariant |workers| == |ws| && idleDraining == IdleDraining(ws[..i])
        invariant forall k :: 0 <= k < |ws| ==> workers[k] == if k < i then ws[k].(wake := true) else ws[k]
      {
        IdleDrainingNext(ws, i);
        if workers[i].draining && !workers[i].busy {
          idleDraining := idleDraining + {workers[i].id};
        }
        workers := workers[i := workers[i].(wake := true)];
      }
      assert ws[..|ws|] == ws;
    }

    method MarkWorkers() returns (active: nat)
      modifies `workers
      ensures workers == Remarked(old(workers), desired) && active == Sum(workers, Active)
    {
      RemarkedIs(workers, desired);
      active := ActiveWorkerCountLocked();
      if active > desired {
        active := DrainExcess(active);
      } else if active < desired {
        UndrainAll();
        active := |workers|;
      }
    }

    /** The critical section of reconcile; what is left in `barrier` is then waited for. */
    method ReconcileTo(target: nat)
      requires Valid() && barrier == {}
      modifies `workers, `desired, `barrier, `started
      ensures Valid() && View() == Reconcile(old(View()), target)
    {
      ReconcileKeeps(View(), target);
      if stopping { return; }
      OrderReconciled(View(), target);
      Retarget(target);
    }

    method Retarget(target: nat)
      modifies `workers, `desired, `barrier, `started
      ensures var marked := Remarked(old(workers), target);
              && workers == Woken(marked) + NewWorkers(old(started), Missing(marked, target))
              && started == old(started) + Missing(marked, target)
              && barrier == IdleDraining(marked) && desired == target
    {
      desired := target;
      var active := MarkWorkers();
      barrier := WakeAll();
      StartWorkers(active);
    }

    /** Removes the worker and, when it was not marked to leave and too few are active, starts another. */
    method WorkerExited(id: nat) returns (found: Option<nat>)
      requires Valid()
      requires forall i :: 0 <= i < |workers| && workers[i].id == id ==> workers[i].place.Exiting?
      modifies `workers, `started, `lost
      ensures Valid()
      ensures found.Some? ==> found.value < |old(workers)| && old(workers)[found.value].id == id
                              && View() == Exit(old(View()), found.value)
      ensures found.None? ==> View() == old(View()) && forall i :: 0 <= i < |workers| ==> workers[i].id != id
    {
      ghost var p := View();
      var index := 0;
      while index < |workers| && workers[index].id != id
        invariant index <= |workers| && View() == p && forall k :: 0 <= k < index ==> workers[k].id != id
      {
        index := index + 1;
      }
      if index == |workers| { return None; }
      ExitKeeps(p, index);
      OrderLeft(p, index);
      RemoveAt(index);
      return Some(index);
    }

    method RemoveAt(index: nat)
      requires index < |workers|
      modifies `workers, `started, `lost
      ensures View() == Exit(old(View()), index)
    {
      var worker := workers[index];
      lost := lost + if worker.mailbox.Some? then [worker.mailbox.value] else [];
      workers := workers[..index] + workers[index + 1..];
      ghost var rest := workers;
      assert rest + NewWorkers(started, 0) == rest;
      var active := ActiveWorkerCountLocked();
      if !stopping && !worker.draining && active < desired {
        StartWorkerLocked();
      }
    }

    /** The intake's hand-over: false when it has to wait for a worker. */
    method HandBatch() returns (handed: bool)
      requires Valid() && intake.Holding?
      modifies `workers, `intake
      ensures Valid() && handed == Enabled(old(View()), Hand)
      ensures View() == Next(old(View()), Hand)
    {
      var worker := AvailableWorkerLocked();
      if worker.None? { return false; }
      OrderKept(View(), Hand);
      FirstAvailableIs(workers);
      HandKeeps(View(), worker.value);
      var w := workers[worker.value];
      workers := workers[worker.value := w.(busy := true, mailbox := Some(intake.batch))];
      intake := Looking;
      return true;
    }
  }

  lemma DrainOne(ws: seq<Worker>, i: nat, k: nat, tail: seq<Worker>)
    requires i < |ws| && k > 0
    ensures DrainFromBack(ws[..i + 1], k) + tail
         == DrainFromBack(ws[..i], if ws[i].draining then k else k - 1) + ([ws[i].(draining := true)] + tail)
    ensures (ws[..i + 1] + tail)[i := ws[i].(draining := true)] == ws[..i] + ([ws[i].(draining := true)] + tail)
    ensures ws[i].draining ==> ws[..i + 1] + tail == ws[..i] + ([ws[i].(draining := true)] + tail)
  {
    assert ws[..i + 1][..i] == ws[..i] && ws[..i + 1][i] == ws[i];
  }

  lemma IdleDrainingNext(ws: seq<Worker>, i: nat)
    requires i < |ws|
    ensures IdleDraining(ws[..i + 1])
         == IdleDraining(ws[..i]) + if ws[i].draining && !ws[i].busy then {ws[i].id} else {}
  {
    assert ws[..i + 1] == ws[..i] + [ws[i]];
    forall id | id in IdleDraining(ws[..i])
      ensures id in IdleDraining(ws[..i + 1])
    {
      var k :| 0 <= k < i && ws[..i][k].draining && !ws[..i][k].busy && ws[..i][k].id == id;
      assert ws[..i + 1][k].id == id;
    }
    assert ws[..i + 1][i] == ws[i];
  }
}
