/** The reader pool never gets stuck: from every reached state any file can still be claimed, and the pool can end. */
module ReaderPoolProgress {
  import opened Prelude
  import opened ReaderPool
  import opened ReaderPoolActive

  lemma {:induction false} RunBoth(p: Pool, a: seq<Step>, b: seq<Step>)
    ensures Run(p, a + b) == Run(Run(p, a), b)
  {
    if |b| == 0 {
      assert a + b == a;
    } else {
      RunBoth(p, a, b[..|b| - 1]);
      assert (a + b)[..|a + b| - 1] == a + b[..|b| - 1];
    }
  }

  lemma RunFirst(p: Pool, step: Step, rest: seq<Step>)
    ensures Run(p, [step] + rest) == Run(Next(p, step), rest)
  {
    assert [step][..0] == [] && Run(p, [step]) == Next(Run(p, []), step);
    RunBoth(p, [step], rest);
  }

  // ----- Coming to rest -----

  /** At the top of its loop, and staying. */
  predicate Ready(w: Worker) { w.place.Looping? && !w.draining }

  predicate AllReady(ws: seq<Worker>) { forall i :: 0 <= i < |ws| ==> Ready(ws[i]) }

  /** How far a worker is from being ready, or gone. */
  function Far(w: Worker): nat {
    match w.place
    case Owning(_) => 5
    case Released => 4
    case Looping => if w.draining then 2 else 0
    case Leaving => 1
  }

  /** What a worker that is not ready does next. */
  function OwnStep(w: Worker, i: nat): Step {
    match w.place
    case Owning(_) => Release(i)
    case Released => CheckContext(i)
    case Looping => Claim(i)
    case Leaving => Leave(i)
  }

  predicate RunsOn(p: Pool) { !p.cancelled && !p.stopping && p.desired > 0 }

  predicate SamePool(p: Pool, q: Pool) {
    q.files == p.files && q.desired == p.desired && q.cancelled == p.cancelled && q.stopping == p.stopping
  }

  lemma LeavingIsLess(ws: seq<Worker>, i: nat, added: seq<Worker>)
    requires i < |ws| && ws[i].place.Leaving? && |added| <= 1 && forall k :: 0 <= k < |added| ==> Ready(added[k])
    ensures Sum(ws[..i] + ws[i + 1..] + added, Far) < Sum(ws, Far)
  {
    SplitAt(ws, i);
    SumMiddle(ws[..i], ws[i], ws[i + 1..], Far);
    SumConcat(ws[..i] + ws[i + 1..], added, Far);
    SumZero(added, Far);
  }

  lemma LeaveComesNearer(p: Pool, i: nat)
    requires RunsOn(p) && i < |p.workers| && p.workers[i].place.Leaving?
    ensures SamePool(p, Next(p, Leave(i))) && Sum(Next(p, Leave(i)).workers, Far) < Sum(p.workers, Far)
  {
    LeavingIsLess(p.workers, i, []);
    LeavingIsLess(p.workers, i, Fresh(p.started, 1));
    assert p.workers[..i] + p.workers[i + 1..] + [] == p.workers[..i] + p.workers[i + 1..];
  }

  lemma ComesNearer(p: Pool, i: nat)
    requires RunsOn(p) && i < |p.workers| && !Ready(p.workers[i])
    ensures var q := Next(p, OwnStep(p.workers[i], i)); SamePool(p, q) && Sum(q.workers, Far) < Sum(p.workers, Far)
  {
    if p.workers[i].place.Leaving? {
      LeaveComesNearer(p, i);
    } else {
      SumUpdate(p.workers, i, Next(p, OwnStep(p.workers[i], i)).workers[i], Far);
    }
  }

  lemma CalmFirst(w: Worker, i: nat, rest: seq<Step>)
    requires Calm(rest)
    ensures Calm([OwnStep(w, i)] + rest)
  {
  }

  lemma {:induction false} ComesToRest(p: Pool) returns (steps: seq<Step>)
    requires Inv(p) && RunsOn(p)
    ensures Calm(steps)
    ensures var q := Run(p, steps); Inv(q) && SamePool(p, q) && AllReady(q.workers)
    decreases Sum(p.workers, Far)
  {
    steps := [];
    if i :| 0 <= i < |p.workers| && !Ready(p.workers[i]) {
      var step := OwnStep(p.workers[i], i);
      ComesNearer(p, i);
      StepKeeps(p, step);
      var rest := ComesToRest(Next(p, step));
      CalmFirst(p.workers[i], i, rest);
      RunFirst(p, step, rest);
      steps := [step] + rest;
    }
  }

  // ----- Every file's turn -----

  predicate Rested(p: Pool) { Inv(p) && RunsOn(p) && AllReady(p.workers) }

  /** The first worker takes the file at the cursor. */
  lemma TakesNext(p: Pool)
    requires Rested(p)
    ensures var q := Next(p, Claim(0));
      && Inv(q) && SamePool(p, q) && |q.workers| == |p.workers| > 0 && q.workers == p.workers[0 := q.workers[0]]
      && q.workers[0].place == Owning(At(p.nextFile, 0, p.files)) && !q.workers[0].draining
  {
    StepKeeps(p, Claim(0));
    NothingActive(p);
  }

  lemma NothingActive(p: Pool)
    requires Rested(p)
    ensures p.active == {} && |p.workers| > 0 && FirstFree(p, 0) == Some(0)
  {
    forall f ensures f !in p.active { assert f in p.active ==> Owned(f, p.workers); }
  }

  /** It reads it to its end and comes back. */
  lemma PutsBack(p: Pool, f: nat)
    requires Inv(p) && RunsOn(p) && |p.workers| > 0 && p.workers[0].place == Owning(f) && !p.workers[0].draining
    requires forall i :: 0 < i < |p.workers| ==> Ready(p.workers[i])
    ensures var q := Next(Next(p, Release(0)), CheckContext(0)); Rested(q) && SamePool(p, q) && q.nextFile == p.nextFile
  {
    StepKeeps(p, Release(0));
    StepKeeps(Next(p, Release(0)), CheckContext(0));
  }

  /** How many claims it takes until file f has its turn. */
  function Turns(cursor: nat, f: nat, files: Pos): nat {
    if cursor >= files then f
    else if f >= cursor then f - cursor
    else f + files - cursor
  }

  lemma {:induction false} ReachesFile(p: Pool, f: nat) returns (steps: seq<Step>)
    requires Rested(p) && f < p.files && p.nextFile <= p.files
    ensures Calm(steps) && Owned(f, Run(p, steps).workers)
    decreases Turns(p.nextFile, f, p.files)
  {
    TakesNext(p);
    var at := At(p.nextFile, 0, p.files);
    var q := Next(p, Claim(0));
    if at == f {
      steps := [Claim(0)];
      RunFirst(p, Claim(0), []);
    } else {
      PutsBack(q, at);
      NothingActive(p);
      var r := Next(Next(q, Release(0)), CheckContext(0));
      var rest := ReachesFile(r, f);
      RunFirst(Next(q, Release(0)), CheckContext(0), rest);
      RunFirst(q, Release(0), [CheckContext(0)] + rest);
      RunFirst(p, Claim(0), [Release(0)] + ([CheckContext(0)] + rest));
      steps := [Claim(0)] + ([Release(0)] + ([CheckContext(0)] + rest));
    }
  }

  lemma FileCanBeReached(p: Pool, f: nat) returns (steps: seq<Step>)
    requires Inv(p) && RunsOn(p) && f < p.files
    ensures Calm(steps) && Owned(f, Run(p, steps).workers)
  {
    var first := ComesToRest(p);
    var q := Run(p, first);
    var rest := ReachesFile(q, f);
    RunBoth(p, first, rest);
    steps := first + rest;
  }

  /** From every reached state of a pool that runs on with at least one worker desired, every file can still be claimed,
      without any help of the control goroutine: no file and no worker is lost. */
  lemma EveryFileCanBeClaimed(files: Pos, workers: nat, steps: seq<Step>, f: nat)
    requires RunsOn(Reached(files, workers, steps)) && f < files
    ensures exists more :: Calm(more) && Owned(f, Run(Reached(files, workers, steps), more).workers)
  {
    ReachedKeeps(files, workers, steps);
    StepsKeepFiles(Initial(files, workers), steps);
    var more := FileCanBeReached(Reached(files, workers, steps), f);
  }

  // ----- Ending -----

  /** How far a worker of a cancelled pool is from being gone. */
  function ToGo(w: Worker): nat {
    match w.place
    case Owning(_) => 4
    case Released => 3
    case Looping => 2
    case Leaving => 1
  }

  lemma LeavesForGood(p: Pool)
    requires p.cancelled && |p.workers| > 0 && p.workers[0].place.Leaving?
    ensures var q := Next(p, Leave(0)); q.cancelled && Sum(q.workers, ToGo) < Sum(p.workers, ToGo)
  {
    SumHead(p.workers, ToGo);
    assert Next(p, Leave(0)).workers == p.workers[1..];
  }

  lemma MovesOn(p: Pool)
    requires p.cancelled && |p.workers| > 0 && !p.workers[0].place.Leaving?
    ensures var (w, q) := (p.workers[0], Next(p, OwnStep(p.workers[0], 0)));
      && q.cancelled && |q.workers| == |p.workers| && q.workers == p.workers[0 := q.workers[0]]
      && ToGo(q.workers[0]) < ToGo(w)
  {
  }

  lemma GoesOut(p: Pool)
    requires p.cancelled && |p.workers| > 0
    ensures var q := Next(p, OwnStep(p.workers[0], 0)); q.cancelled && Sum(q.workers, ToGo) < Sum(p.workers, ToGo)
  {
    if p.workers[0].place.Leaving? {
      LeavesForGood(p);
    } else {
      MovesOn(p);
      SumUpdate(p.workers, 0, Next(p, OwnStep(p.workers[0], 0)).workers[0], ToGo);
    }
  }

  lemma {:induction false} AllGo(p: Pool) returns (steps: seq<Step>)
    requires Inv(p) && p.cancelled
    ensures var q := Run(p, steps); Inv(q) && q.workers == []
    decreases Sum(p.workers, ToGo)
  {
    steps := [];
    if |p.workers| > 0 {
      var step := OwnStep(p.workers[0], 0);
      GoesOut(p);
      StepKeeps(p, step);
      var rest := AllGo(Next(p, step));
      RunFirst(p, step, rest);
      steps := [step] + rest;
    }
  }

  /** From every reached state, once cancelled, the pool can end: with no worker left and no file active. */
  lemma PoolCanEnd(files: Pos, workers: nat, steps: seq<Step>)
    ensures exists more ::
              var q := Run(Next(Reached(files, workers, steps), Cancel), more); q.workers == [] && q.active == {}
  {
    ReachedKeeps(files, workers, steps);
    var p := Next(Reached(files, workers, steps), Cancel);
    StepKeeps(Reached(files, workers, steps), Cancel);
    var more := AllGo(p);
    NobodyOwns(Run(p, more));
  }

  lemma NobodyOwns(p: Pool)
    requires Inv(p) && p.workers == []
    ensures p.active == {}
  {
    forall f ensures f !in p.active { assert f in p.active ==> Owned(f, p.workers); }
  }
}
