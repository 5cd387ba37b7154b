/** The reader pool: which worker reads which file, and how many workers there are. The steps are the
    critical sections of the pool's mutex and the changes of its context, in any order. */
module ReaderPool {
  import opened Prelude

  /** Where a worker's goroutine is: about to claim, reading a file, between its release and the context
      check, or returned and about to remove itself. */
  datatype Place = Looping | Owning(file: nat) | Released | Leaving

  datatype Worker = Worker(id: nat, draining: bool, busy: bool, place: Place)

  /** One look at a file by a claim: taken by a worker, or passed over because it was active. */
  datatype Visit = Visit(file: nat, takenBy: Option<nat>)

  /** Files stand for their positions in the sorted list of distinct paths. `visits` is history. */
  datatype Pool = Pool(
    files: Pos, active: set<nat>, nextFile: nat, workers: seq<Worker>, desired: nat,
    stopping: bool, cancelled: bool, started: nat, visits: seq<Visit>)

  // ----- Reconciling -----

  function Idle(w: Worker): nat { if w.busy then 0 else 1 }

  function Busy(w: Worker): nat { if w.busy then 1 else 0 }

  function NonDraining(w: Worker): nat { if w.draining then 0 else 1 }

  /** The position of worker i when idle workers are put before busy ones and otherwise keep their order. */
  function Rank(ws: seq<Worker>, i: nat): nat
    requires i < |ws|
  {
    if ws[i].busy then Sum(ws, Idle) + Sum(ws[..i], Busy) else Sum(ws[..i], Idle)
  }

  function Marked(ws: seq<Worker>, excess: int): seq<Worker> {
    seq(|ws|, i requires 0 <= i < |ws| => ws[i].(draining := Rank(ws, i) < excess))
  }

  function Fresh(started: nat, count: nat): seq<Worker> {
    seq(count, j requires j >= 0 => Worker(started + j, false, false, Looping))
  }

  function Missing(ws: seq<Worker>, desired: nat): nat { if |ws| < desired then desired - |ws| else 0 }

  function Reconcile(p: Pool, desired: nat): Pool {
    if p.stopping || p.cancelled then p
    else
      var missing := Missing(p.workers, desired);
      p.(desired := desired, started := p.started + missing,
         workers := Marked(p.workers, |p.workers| - desired) + Fresh(p.started, missing))
  }

  lemma {:induction false} IdleAndBusy(ws: seq<Worker>)
    ensures Sum(ws, Idle) + Sum(ws, Busy) == |ws|
  {
    if |ws| > 0 {
      IdleAndBusy(ws[..|ws| - 1]);
    }
  }

  /** How many ranks are below excess when idle idle workers and busy of the busy ones have been seen, of all
      idle ones. */
  function Below(idle: nat, busy: nat, all: nat, excess: int): nat {
    (if excess <= 0 then 0 else if idle <= excess then idle else excess)
    + (if excess <= all then 0 else if busy <= excess - all then busy else excess - all)
  }

  lemma BelowNext(idle: nat, busy: nat, all: nat, excess: int, isBusy: bool)
    ensures var rank := if isBusy then all + busy else idle;
            Below(if isBusy then idle else idle + 1, if isBusy then busy + 1 else busy, all, excess)
              == Below(idle, busy, all, excess) + if rank < excess then 1 else 0
  {
  }

  lemma MarkedNext(ws: seq<Worker>, excess: int, m: nat)
    requires m < |ws|
    ensures var rank := if ws[m].busy then Sum(ws, Idle) + Sum(ws[..m], Busy) else Sum(ws[..m], Idle);
            Sum(Marked(ws, excess)[..m + 1], NonDraining)
              == Sum(Marked(ws, excess)[..m], NonDraining) + if rank < excess then 0 else 1
  {
    PrefixStep(Marked(ws, excess), m, NonDraining);
  }

  lemma CountsNext(ws: seq<Worker>, m: nat)
    requires m < |ws|
    ensures Sum(ws[..m + 1], Idle) == Sum(ws[..m], Idle) + if ws[m].busy then 0 else 1
    ensures Sum(ws[..m + 1], Busy) == Sum(ws[..m], Busy) + if ws[m].busy then 1 else 0
  {
    PrefixStep(ws, m, Idle);
    PrefixStep(ws, m, Busy);
  }

  lemma {:induction false} CountBelow(ws: seq<Worker>, excess: int, m: nat)
    requires m <= |ws|
    ensures Sum(Marked(ws, excess)[..m], NonDraining)
         == m - Below(Sum(ws[..m], Idle), Sum(ws[..m], Busy), Sum(ws, Idle), excess)
  {
    if m > 0 {
      CountBelow(ws, excess, m - 1);
      MarkedNext(ws, excess, m - 1);
      CountsNext(ws, m - 1);
      BelowNext(Sum(ws[..m - 1], Idle), Sum(ws[..m - 1], Busy), Sum(ws, Idle), excess, ws[m - 1].busy);
    }
  }

  /** After reconciling, exactly the desired number of workers are not draining, and no busy worker drains
      while an idle one stays; among workers of one kind the earliest started drain first. */
  lemma ReconcileIsExact(p: Pool, desired: nat)
    requires !p.stopping && !p.cancelled
    ensures var ws := Reconcile(p, desired).workers;
      && Sum(ws, NonDraining) == desired
      && |ws| == (if |p.workers| < desired then desired else |p.workers|)
      && (forall i :: 0 <= i < |p.workers| ==> ws[i] == p.workers[i].(draining := ws[i].draining))
      && (forall i, j :: 0 <= i < |ws| && 0 <= j < |ws| && ws[i].draining && !ws[j].draining ==>
            (ws[i].busy ==> ws[j].busy) && (ws[i].busy == ws[j].busy ==> i < j))
  {
    StayCount(p.workers, desired, Fresh(p.started, Missing(p.workers, desired)));
    DrainOrder(p.workers, |p.workers| - desired);
  }

  lemma StayCount(ws: seq<Worker>, desired: nat, added: seq<Worker>)
    requires |added| == Missing(ws, desired) && forall i :: 0 <= i < |added| ==> !added[i].draining
    ensures Sum(Marked(ws, |ws| - desired) + added, NonDraining) == desired
  {
    var marked := Marked(ws, |ws| - desired);
    CountBelow(ws, |ws| - desired, |ws|);
    IdleAndBusy(ws);
    assert marked[..|ws|] == marked && ws[..|ws|] == ws;
    SumConcat(marked, added, NonDraining);
    AllStay(added);
  }

  lemma DrainOrder(ws: seq<Worker>, excess: int)
    ensures var marked := Marked(ws, excess);
            forall i, j :: 0 <= i < |ws| && 0 <= j < |ws| && marked[i].draining && !marked[j].draining ==>
              (marked[i].busy ==> marked[j].busy) && (marked[i].busy == marked[j].busy ==> i < j)
  {
    var marked := Marked(ws, excess);
    forall i, j | 0 <= i < |ws| && 0 <= j < |ws| && marked[i].draining && !marked[j].draining
      ensures (marked[i].busy ==> marked[j].busy) && (marked[i].busy == marked[j].busy ==> i < j)
    {
      RankOrder(ws, i, j);
      RankOrder(ws, j, i);
    }
  }

  lemma {:induction false} AllStay(ws: seq<Worker>)
    requires forall i :: 0 <= i < |ws| ==> !ws[i].draining
    ensures Sum(ws, NonDraining) == |ws|
  {
    if |ws| > 0 {
      AllStay(ws[..|ws| - 1]);
    }
  }

  lemma RankOrder(ws: seq<Worker>, i: nat, j: nat)
    requires i < |ws| && j < |ws|
    ensures !ws[i].busy && ws[j].busy ==> Rank(ws, i) < Rank(ws, j)
    ensures ws[i].busy == ws[j].busy && i < j ==> Rank(ws, i) < Rank(ws, j)
  {
    PrefixGrows(ws, i, |ws|, Idle);
    assert ws[..|ws|] == ws;
    if i < j {
      PrefixGrows(ws, i, j, Idle);
      PrefixGrows(ws, i, j, Busy);
    }
  }

  lemma PrefixGrows(ws: seq<Worker>, i: nat, j: nat, f: Worker -> nat)
    requires i < j <= |ws|
    ensures Sum(ws[..i], f) + f(ws[i]) <= Sum(ws[..j], f)
  {
    assert ws[..j] == ws[..i] + ([ws[i]] + ws[i + 1..j]);
    SumConcat(ws[..i], [ws[i]] + ws[i + 1..j], f);
    SumHead([ws[i]] + ws[i + 1..j], f);
  }

  // ----- Claiming, releasing, leaving -----

  /** The file at an offset from the cursor, which is at most the number of files. */
  function At(cursor: nat, offset: nat, files: Pos): nat {
    if cursor + offset < files then cursor + offset
    else if cursor + offset < 2 * files then cursor + offset - files else 0
  }

  lemma AtIsRemainder(cursor: nat, offset: nat, files: Pos)
    requires cursor <= files && offset < files
    ensures At(cursor, offset, files) == (cursor + offset) % files
  {
    if cursor + offset < files {
      Remainder(cursor + offset, files, 0, cursor + offset);
    } else {
      Remainder(cursor + offset, files, 1, cursor + offset - files);
    }
  }

  /** The first offset from the cursor at which a file is free. */
  function FirstFree(p: Pool, offset: nat): Option<nat>
    requires offset <= p.files
    decreases p.files - offset
  {
    if offset == p.files then None
    else if At(p.nextFile, offset, p.files) !in p.active then Some(offset)
    else FirstFree(p, offset + 1)
  }

  function Passed(cursor: nat, count: nat, files: Pos): seq<Visit> {
    seq(count, k requires 0 <= k => Visit(At(cursor, k, files), None))
  }

  function Put(p: Pool, i: nat, w: Worker): Pool
    requires i < |p.workers|
  {
    p.(workers := p.workers[i := w])
  }

  function ClaimNext(p: Pool, i: nat): Pool
    requires i < |p.workers|
  {
    var w := p.workers[i];
    if p.stopping || p.cancelled || w.draining then Put(p, i, w.(place := Leaving))
    else match FirstFree(p, 0)
      case None => p
      case Some(offset) =>
        var index := At(p.nextFile, offset, p.files);
        Put(p, i, w.(busy := true, place := Owning(index)))
          .(active := p.active + {index}, nextFile := index + 1,
            visits := p.visits + Passed(p.nextFile, offset, p.files) + [Visit(index, Some(w.id))])
  }

  function ReleaseFile(p: Pool, i: nat): Pool
    requires i < |p.workers| && p.workers[i].place.Owning?
  {
    var w := p.workers[i];
    Put(p, i, w.(busy := false, place := Released)).(active := p.active - {w.place.file})
  }

  function Exit(p: Pool, i: nat): Pool
    requires i < |p.workers|
  {
    var rest := p.workers[..i] + p.workers[i + 1..];
    if !p.stopping && !p.cancelled && |rest| < p.desired then
      p.(workers := rest + Fresh(p.started, 1), started := p.started + 1)
    else p.(workers := rest)
  }

  // ----- Runs -----

  datatype Step =
    | ReconcileTo(desired: nat)
    | Claim(i: nat)
    | Release(i: nat)
    | CheckContext(i: nat)
    | Leave(i: nat)
    | Cancel
    | MarkStopping

  /** Steps of a worker happen in the order of its goroutine; stopping is set only once cancelled. */
  predicate Enabled(p: Pool, step: Step) {
    match step
    case Claim(i) => i < |p.workers| && p.workers[i].place.Looping?
    case Release(i) => i < |p.workers| && p.workers[i].place.Owning?
    case CheckContext(i) => i < |p.workers| && p.workers[i].place.Released?
    case Leave(i) => i < |p.workers| && p.workers[i].place.Leaving?
    case MarkStopping => p.cancelled
    case _ => true
  }

  function Next(p: Pool, step: Step): Pool {
    if !Enabled(p, step) then p
    else match step
      case ReconcileTo(desired) => Reconcile(p, desired)
      case Claim(i) => ClaimNext(p, i)
      case Release(i) => ReleaseFile(p, i)
      case CheckContext(i) => Put(p, i, p.workers[i].(place := if p.cancelled then Leaving else Looping))
      case Leave(i) => Exit(p, i)
      case Cancel => p.(cancelled := true)
      case MarkStopping => p.(stopping := true)
  }

  function Initial(files: Pos, workers: nat): Pool {
    Reconcile(Pool(files, {}, 0, [], 0, false, false, 0, []), workers)
  }

  function Run(p: Pool, steps: seq<Step>): Pool {
    if |steps| == 0 then p else Next(Run(p, steps[..|steps| - 1]), steps[|steps| - 1])
  }

  predicate OwnersOk(active: set<nat>, ws: seq<Worker>) {
    && (forall i :: 0 <= i < |ws| ==> (ws[i].busy <==> ws[i].place.Owning?))
    && (forall i :: 0 <= i < |ws| && ws[i].place.Owning? ==> ws[i].place.file in active)
    && (forall i, j :: 0 <= i < j < |ws| && ws[i].place.Owning? && ws[j].place.Owning? ==>
          ws[i].place.file != ws[j].place.file)
  }

  predicate Owned(f: nat, ws: seq<Worker>) {
    exists i :: 0 <= i < |ws| && ws[i].place == Owning(f)
  }

  predicate AllOwned(active: set<nat>, ws: seq<Worker>) {
    forall f :: f in active ==> Owned(f, ws)
  }

  /** The history goes round the files one by one, and the cursor is behind the last one visited. */
  predicate VisitsOk(cursor: nat, visits: seq<Visit>, files: Pos) {
    && InRotation(visits, files)
    && cursor == if |visits| == 0 then 0 else visits[|visits| - 1].file + 1
  }

  predicate InRotation(visits: seq<Visit>, files: Pos) {
    && (forall k :: 0 <= k < |visits| ==> visits[k].file < files)
    && (forall j, k :: 0 <= j && k == j + 1 < |visits| ==> visits[k].file == After(visits[j].file, files))
  }

  function After(file: nat, files: Pos): nat { if file + 1 < files then file + 1 else 0 }

  predicate Inv(p: Pool) {
    && OwnersOk(p.active, p.workers) && AllOwned(p.active, p.workers) && VisitsOk(p.nextFile, p.visits, p.files)
    && (p.stopping ==> p.cancelled)
    && (!p.cancelled ==> |p.workers| >= p.desired)
  }

  lemma {:induction false} FirstFreeIs(p: Pool, offset: nat)
    requires offset <= p.files
    ensures match FirstFree(p, offset)
            case None => forall k :: offset <= k < p.files ==> At(p.nextFile, k, p.files) in p.active
            case Some(o) => offset <= o < p.files && At(p.nextFile, o, p.files) !in p.active
                            && forall k :: offset <= k < o ==> At(p.nextFile, k, p.files) in p.active
    decreases p.files - offset
  {
    if offset < p.files && At(p.nextFile, offset, p.files) in p.active {
      FirstFreeIs(p, offset + 1);
    }
  }

  lemma {:induction false} PassedInRotation(cursor: nat, visits: seq<Visit>, files: Pos, count: nat)
    requires VisitsOk(cursor, visits, files) && count <= files
    ensures InRotation(visits + Passed(cursor, count, files), files)
  {
    if count == 0 {
      assert visits + Passed(cursor, 0, files) == visits;
    } else {
      PassedInRotation(cursor, visits, files, count - 1);
      assert visits + Passed(cursor, count, files)
          == visits + Passed(cursor, count - 1, files) + [Visit(At(cursor, count - 1, files), None)];
    }
  }

  lemma ClaimVisits(cursor: nat, visits: seq<Visit>, files: Pos, offset: nat, id: nat)
    requires VisitsOk(cursor, visits, files) && offset < files
    ensures var index := At(cursor, offset, files);
            VisitsOk(index + 1, visits + Passed(cursor, offset, files) + [Visit(index, Some(id))], files)
  {
    PassedInRotation(cursor, visits, files, offset);
  }

  /** Replacing a worker that owns nothing by one that owns nothing changes no ownership. */
  lemma PutKeeps(active: set<nat>, ws: seq<Worker>, i: nat, w: Worker)
    requires i < |ws| && OwnersOk(active, ws) && AllOwned(active, ws)
    requires !ws[i].place.Owning? && !w.place.Owning? && !w.busy
    ensures OwnersOk(active, ws[i := w]) && AllOwned(active, ws[i := w])
  {
    forall f | f in active
      ensures Owned(f, ws[i := w])
    {
      var j :| 0 <= j < |ws| && ws[j].place == Owning(f);
      assert ws[i := w][j].place == Owning(f);
    }
  }

  lemma TakeKeeps(active: set<nat>, ws: seq<Worker>, i: nat, f: nat)
    requires i < |ws| && OwnersOk(active, ws) && AllOwned(active, ws) && !ws[i].place.Owning? && f !in active
    ensures var ws' := ws[i := ws[i].(busy := true, place := Owning(f))];
            OwnersOk(active + {f}, ws') && AllOwned(active + {f}, ws')
  {
    var ws' := ws[i := ws[i].(busy := true, place := Owning(f))];
    forall g | g in active + {f}
      ensures Owned(g, ws')
    {
      if g == f {
        assert ws'[i].place == Owning(f);
      } else {
        var j :| 0 <= j < |ws| && ws[j].place == Owning(g);
        assert ws'[j].place == Owning(g);
      }
    }
  }

  lemma ReleaseKeeps(active: set<nat>, ws: seq<Worker>, i: nat)
    requires i < |ws| && OwnersOk(active, ws) && AllOwned(active, ws) && ws[i].place.Owning?
    ensures var ws' := ws[i := ws[i].(busy := false, place := Released)];
            var rest := active - {ws[i].place.file};
            OwnersOk(rest, ws') && AllOwned(rest, ws')
  {
    var ws' := ws[i := ws[i].(busy := false, place := Released)];
    forall g | g in active - {ws[i].place.file}
      ensures Owned(g, ws')
    {
      var j :| 0 <= j < |ws| && ws[j].place == Owning(g);
      assert ws'[j].place == Owning(g);
    }
  }

  lemma ExitKeeps(active: set<nat>, ws: seq<Worker>, i: nat, added: seq<Worker>)
    requires i < |ws| && OwnersOk(active, ws) && AllOwned(active, ws) && !ws[i].place.Owning?
    requires forall k :: 0 <= k < |added| ==> !added[k].place.Owning? && !added[k].busy
    ensures var ws' := ws[..i] + ws[i + 1..] + added; OwnersOk(active, ws') && AllOwned(active, ws')
  {
    var ws' := ws[..i] + ws[i + 1..] + added;
    forall g | g in active
      ensures Owned(g, ws')
    {
      var j :| 0 <= j < |ws| && ws[j].place == Owning(g);
      assert ws'[if j < i then j else j - 1].place == Owning(g);
    }
  }

  lemma ReconcileKeeps(active: set<nat>, ws: seq<Worker>, excess: int, added: seq<Worker>)
    requires OwnersOk(active, ws) && AllOwned(active, ws)
    requires forall k :: 0 <= k < |added| ==> !added[k].place.Owning? && !added[k].busy
    ensures var ws' := Marked(ws, excess) + added; OwnersOk(active, ws') && AllOwned(active, ws')
  {
    var ws' := Marked(ws, excess) + added;
    forall g | g in active
      ensures Owned(g, ws')
    {
      var j :| 0 <= j < |ws| && ws[j].place == Owning(g);
      assert ws'[j].place == Owning(g);
    }
  }

  lemma ClaimStepKeeps(p: Pool, i: nat)
    requires Inv(p) && Enabled(p, Claim(i))
    ensures Inv(ClaimNext(p, i))
  {
    var w := p.workers[i];
    if p.stopping || p.cancelled || w.draining {
      PutKeeps(p.active, p.workers, i, w.(place := Leaving));
    } else if FirstFree(p, 0).Some? {
      var offset := FirstFree(p, 0).value;
      FirstFreeIs(p, 0);
      TakeKeeps(p.active, p.workers, i, At(p.nextFile, offset, p.files));
      ClaimVisits(p.nextFile, p.visits, p.files, offset, w.id);
    }
  }

  lemma ExitStepKeeps(p: Pool, i: nat)
    requires Inv(p) && Enabled(p, Leave(i))
    ensures Inv(Exit(p, i))
  {
    ExitKeeps(p.active, p.workers, i, []);
    var rest := p.workers[..i] + p.workers[i + 1..];
    assert rest + [] == rest;
    ExitKeeps(p.active, p.workers, i, Fresh(p.started, 1));
  }

  lemma ReconcileStepKeeps(p: Pool, desired: nat)
    requires Inv(p)
    ensures Inv(Reconcile(p, desired))
  {
    ReconcileKeeps(p.active, p.workers, |p.workers| - desired, Fresh(p.started, Missing(p.workers, desired)));
  }

  lemma StepKeeps(p: Pool, step: Step)
    requires Inv(p)
    ensures Inv(Next(p, step))
  {
    if Enabled(p, step) {
      match step
      case ReconcileTo(desired) => ReconcileStepKeeps(p, desired);
      case Claim(i) => ClaimStepKeeps(p, i);
      case Release(i) => ReleaseKeeps(p.active, p.workers, i);
      case CheckContext(i) =>
        PutKeeps(p.active, p.workers, i, p.workers[i].(place := if p.cancelled then Leaving else Looping));
      case Leave(i) => ExitStepKeeps(p, i);
      case Cancel =>
      case MarkStopping =>
    }
  }

  lemma {:induction false} RunKeeps(p: Pool, steps: seq<Step>)
    requires Inv(p)
    ensures Inv(Run(p, steps))
  {
    if |steps| > 0 {
      RunKeeps(p, steps[..|steps| - 1]);
      StepKeeps(Run(p, steps[..|steps| - 1]), steps[|steps| - 1]);
    }
  }

  function Reached(files: Pos, workers: nat, steps: seq<Step>): Pool { Run(Initial(files, workers), steps) }

  lemma ReachedKeeps(files: Pos, workers: nat, steps: seq<Step>)
    ensures Inv(Reached(files, workers, steps))
  {
    RunKeeps(Initial(files, workers), steps);
  }

  /** In every interleaving each active file is owned by exactly one worker, a worker owns a file exactly
      when it is busy, and until cancellation there are at least as many workers as desired. */
  lemma OneOwnerEach(files: Pos, workers: nat, steps: seq<Step>)
    ensures var p := Reached(files, workers, steps);
      && (forall f :: f in p.active <==> Owned(f, p.workers))
      && (forall i, j :: 0 <= i < j < |p.workers| && p.workers[i].busy && p.workers[j].busy ==>
            p.workers[i].place != p.workers[j].place)
      && (forall i :: 0 <= i < |p.workers| ==> (p.workers[i].busy <==> p.workers[i].place.Owning?))
      && (!p.cancelled ==> |p.workers| >= p.desired)
  {
    ReachedKeeps(files, workers, steps);
  }

  /** A claim passes over files only because they are active, and takes one that is not; no other step
      looks at files. */
  lemma VisitsAreHonest(p: Pool, step: Step)
    ensures var q := Next(p, step);
      && p.visits <= q.visits
      && (forall k :: |p.visits| <= k < |q.visits| - 1 ==> q.visits[k].takenBy.None? && q.visits[k].file in p.active)
      && (|q.visits| > |p.visits| ==> step.Claim? && TakenBy(p, q, step.i, q.visits[|q.visits| - 1]))
  {
    FirstFreeIs(p, 0);
  }

  predicate TakenBy(p: Pool, q: Pool, i: nat, v: Visit) {
    i < |p.workers| == |q.workers| && v.file !in p.active && v.takenBy == Some(p.workers[i].id)
    && q.workers[i].place == Owning(v.file)
  }

  /** Between two claims of one file every other file was claimed or seen active. */
  lemma FairRotation(files: Pos, workers: nat, steps: seq<Step>, a: nat, b: nat, f: nat)
    requires var p := Reached(files, workers, steps);
      a < b < |p.visits| && p.visits[a].file == p.visits[b].file && f < files && f != p.visits[a].file
    ensures exists k :: a < k < b && Reached(files, workers, steps).visits[k].file == f
  {
    ReachedKeeps(files, workers, steps);
    StepsKeepFiles(Initial(files, workers), steps);
    var p := Reached(files, workers, steps);
    var file := p.visits[a].file;
    if b - a < files {
      Walk(p.visits, files, a, b - a);
      assert false;
    }
    var steps := if f > file then f - file else f + files - file;
    Walk(p.visits, files, a, steps);
    assert p.visits[a + steps].file == f;
  }

  lemma {:induction false} StepsKeepFiles(p: Pool, steps: seq<Step>)
    ensures Run(p, steps).files == p.files
  {
    if |steps| > 0 {
      StepsKeepFiles(p, steps[..|steps| - 1]);
    }
  }

  lemma {:induction false} Walk(visits: seq<Visit>, files: Pos, a: nat, steps: nat)
    requires InRotation(visits, files) && a + steps < |visits| && steps <= files
    ensures visits[a + steps].file == At(visits[a].file, steps, files)
  {
    if steps > 0 {
      Walk(visits, files, a, steps - 1);
      assert visits[a + steps].file == After(visits[a + steps - 1].file, files);
    }
  }

  // ----- The pool as the source writes it -----

  lemma PrefixStep(ws: seq<Worker>, i: nat, f: Worker -> nat)
    requires i < |ws|
    ensures Sum(ws[..i + 1], f) == Sum(ws[..i], f) + f(ws[i])
  {
    assert ws[..i + 1] == ws[..i] + [ws[i]];
    SumAppend(ws[..i], ws[i], f);
  }

  predicate Ordered(ws: seq<Worker>, ordered: seq<nat>) {
    forall k :: 0 <= k < |ordered| ==> ordered[k] < |ws| && Rank(ws, ordered[k]) == k
  }

  /** The workers' positions, idle workers first and otherwise in start order: what the stable sort gives. */
  method IdleFirst(ws: seq<Worker>) returns (ordered: seq<nat>)
    ensures |ordered| == |ws| && Ordered(ws, ordered)
  {
    ordered := [];
    for i := 0 to |ws|
      invariant |ordered| == Sum(ws[..i], Idle) && Ordered(ws, ordered)
    {
      PrefixStep(ws, i, Idle);
      if !ws[i].busy { ordered := ordered + [i]; }
    }
    assert ws[..|ws|] == ws;
    for i := 0 to |ws|
      invariant |ordered| == Sum(ws, Idle) + Sum(ws[..i], Busy) && Ordered(ws, ordered)
    {
      PrefixStep(ws, i, Busy);
      if ws[i].busy { ordered := ordered + [i]; }
    }
    IdleAndBusy(ws);
  }

  /** No two workers have one rank, so the order visits each of them. */
  lemma RankIsOne(ws: seq<Worker>, i: nat, j: nat)
    requires i < |ws| && j < |ws| && i != j
    ensures Rank(ws, i) != Rank(ws, j)
  {
    RankOrder(ws, i, j);
    RankOrder(ws, j, i);
  }

  lemma RankIsBelow(ws: seq<Worker>, i: nat)
    requires i < |ws|
    ensures Rank(ws, i) < |ws|
  {
    IdleAndBusy(ws);
    assert ws[..|ws|] == ws;
    PrefixGrows(ws, i, |ws|, Idle);
    PrefixGrows(ws, i, |ws|, Busy);
  }

  class SourcePool {
    const files: Pos
    var active: set<nat>
    var nextFile: nat
    var workers: seq<Worker>
    var desired: nat
    var stopping: bool
    var cancelled: bool
    var started: nat
    ghost var visits: seq<Visit>

    ghost function View(): Pool
      reads this
    {
      Pool(files, active, nextFile, workers, desired, stopping, cancelled, started, visits)
    }

    constructor (files: Pos, workers: nat)
      ensures View() == Initial(files, workers) && Inv(View())
    {
      this.files, active, nextFile, visits := files, {}, 0, [];
      this.workers, desired, stopping, cancelled, started := [], 0, false, false, 0;
      new;
      ReconcileTo(workers);
    }

    method ReconcileTo(desired: nat)
      requires Inv(View())
      modifies `desired, `workers, `started
      ensures Inv(View()) && View() == Reconcile(old(View()), desired)
    {
      ReconcileStepKeeps(View(), desired);
      if stopping || cancelled { return; }
      this.desired := desired;
      MarkDraining();
      StartMissing();
    }

    /** Drains the first workers in idle-first order, as many as there are too many, and keeps the others. */
    method MarkDraining()
      modifies `workers
      ensures workers == Marked(old(workers), |old(workers)| - desired)
    {
      ghost var ws := workers;
      var ordered := IdleFirst(workers);
      var excess := |ordered| - desired;
      for index := 0 to |ordered|
        invariant |workers| == |ws|
        invariant forall i :: 0 <= i < |ws| ==>
          workers[i] == if Rank(ws, i) < index then ws[i].(draining := Rank(ws, i) < excess) else ws[i]
      {
        var at := ordered[index];
        forall i | 0 <= i < |ws| && i != at
          ensures Rank(ws, i) != index
        {
          RankIsOne(ws, i, at);
        }
        workers := workers[at := workers[at].(draining := index < excess)];
      }
      forall i | 0 <= i < |ws|
        ensures workers[i] == Marked(ws, excess)[i]
      {
        RankIsBelow(ws, i);
      }
    }

    method StartMissing()
      modifies `workers, `started
      ensures var missing := Missing(old(workers), desired);
              workers == old(workers) + Fresh(old(started), missing) && started == old(started) + missing
    {
      ghost var (ws, first) := (workers, started);
      while |workers| < desired
        invariant |ws| <= |workers| && (|workers| <= desired || |workers| == |ws|)
        invariant workers == ws + Fresh(first, |workers| - |ws|)
        invariant started == first + |workers| - |ws|
      {
        StartReplacement();
      }
    }

    method StartReplacement()
      modifies `workers, `started
      ensures workers == old(workers) + Fresh(old(started), 1) && started == old(started) + 1
    {
      workers := workers + [Worker(started, false, false, Looping)];
      started := started + 1;
    }

    /** One critical section of a claim, up to the result or the wait. */
    method ClaimNextFile(i: nat) returns (file: Option<nat>)
      requires Inv(View()) && Enabled(View(), Claim(i))
      modifies `active, `nextFile, `workers, `visits
      ensures Inv(View()) && View() == ClaimNext(old(View()), i)
      ensures file.Some? ==> file.value !in old(active) && workers[i].place == Owning(file.value)
      ensures file.None? ==>
                active == old(active) && (workers[i].place.Leaving? || forall f :: 0 <= f < files ==> f in active)
    {
      ghost var p := View();
      ClaimStepKeeps(p, i);
      FirstFreeIs(p, 0);
      var w := workers[i];
      if stopping || cancelled || w.draining {
        workers := workers[i := w.(place := Leaving)];
        return None;
      }
      CursorInRange(p);
      var found := FindFree();
      if found.None? {
        forall f | 0 <= f < files
          ensures f in active
        {
          assert At(nextFile, if f >= nextFile then f - nextFile else f + files - nextFile, files) == f;
        }
        return None;
      }
      var index := found.value;
      ghost var offset := FirstFree(p, 0).value;
      visits := visits + Passed(nextFile, offset, files) + [Visit(index, Some(w.id))];
      active, nextFile := active + {index}, index + 1;
      workers := workers[i := w.(busy := true, place := Owning(index))];
      return Some(index);
    }

    /** The first file from the cursor on, going round, that is not active. */
    method FindFree() returns (found: Option<nat>)
      requires nextFile <= files
      ensures FirstFree(View(), 0).None? ==> found.None?
      ensures FirstFree(View(), 0).Some? ==> found == Some(At(nextFile, FirstFree(View(), 0).value, files))
    {
      for offset := 0 to files
        invariant FirstFree(View(), 0) == FirstFree(View(), offset)
      {
        AtIsRemainder(nextFile, offset, files);
        var index := (nextFile + offset) % files;
        if index !in active { return Some(index); }
      }
      return None;
    }

    method ReleaseFileLocked(i: nat)
      requires Inv(View()) && Enabled(View(), Release(i))
      modifies `active, `workers
      ensures Inv(View()) && View() == ReleaseFile(old(View()), i)
    {
      ReleaseKeeps(active, workers, i);
      active := active - {workers[i].place.file};
      workers := workers[i := workers[i].(busy := false, place := Released)];
    }

    method WorkerExits(i: nat)
      requires Inv(View()) && Enabled(View(), Leave(i))
      modifies `workers, `started
      ensures Inv(View()) && View() == Exit(old(View()), i)
    {
      ExitStepKeeps(View(), i);
      workers := workers[..i] + workers[i + 1..];
      if !stopping && !cancelled && |workers| < desired {
        StartReplacement();
      }
    }
  }

  lemma CursorInRange(p: Pool)
    requires Inv(p)
    ensures p.nextFile <= p.files
  {
  }
}
