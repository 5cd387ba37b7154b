/** The sender pool as a transition system. A step is one critical section, one channel operation, or one
    move of a goroutine between them; steps of different goroutines interleave in any order. */
module SenderPool {
  import opened Prelude

  datatype Batch = Batch(id: nat, transactions: nat)

  /** Where a worker's goroutine is: before the check at the top of its loop, waiting for a wake-up or work,
      sending a batch, done with a batch but not yet marked free, or past its loop and not yet removed. */
  datatype Place = AtCheck | Waiting | Processing(batch: Batch) | Completed | Exiting

  /** The mailbox is the worker's channel of capacity one; wake is its one wake-up token. */
  datatype Worker = Worker(id: nat, draining: bool, busy: bool, mailbox: Option<Batch>, wake: bool, place: Place)

  /** Where the intake goroutine is: looking for a free worker, past that wait, holding the intake mutex at
      the receive, holding it with a batch, or returned. */
  datatype Intake = Looking | Passed | Selecting | Holding(batch: Batch) | Done

  datatype Finished = Finished(batch: Batch, delivered: bool)

  /** The pool. `barrier` holds the idle draining workers a reconcile waits for, and is empty when the control
      goroutine is not inside a reconcile. `received`, `finished` and `lost` are history: batches received,
      batches whose sending ended, and batches left in the mailbox of a removed worker. */
  datatype Pool = Pool(
    workers: seq<Worker>, desired: nat, cancelled: bool, stopping: bool, paused: bool, intake: Intake,
    barrier: set<nat>, started: nat, counter: nat, received: nat, finished: seq<Finished>, lost: seq<Batch>)

  // ----- Workers -----

  function NewWorkers(started: nat, count: nat): seq<Worker> {
    seq(count, j requires j >= 0 => Worker(started + j, false, false, None, false, AtCheck))
  }

  function Active(w: Worker): nat { if w.draining then 0 else 1 }

  predicate Available(w: Worker) { !w.draining && !w.busy }

  /** The first worker that is neither draining nor busy. */
  function FirstAvailable(ws: seq<Worker>): (first: Option<nat>)
    ensures first.Some? ==> first.value < |ws|
  {
    if |ws| == 0 then None
    else if FirstAvailable(ws[..|ws| - 1]).Some? then FirstAvailable(ws[..|ws| - 1])
    else if Available(ws[|ws| - 1]) then Some(|ws| - 1) else None
  }

  /** Marks k workers that are not draining, from the back. */
  function DrainFromBack(ws: seq<Worker>, k: nat): seq<Worker> {
    if |ws| == 0 || k == 0 then ws
    else
      var (init, last) := (ws[..|ws| - 1], ws[|ws| - 1]);
      DrainFromBack(init, if last.draining then k else k - 1) + [last.(draining := true)]
  }

  function Undrained(ws: seq<Worker>): seq<Worker> {
    seq(|ws|, i requires 0 <= i < |ws| => ws[i].(draining := false))
  }

  function Woken(ws: seq<Worker>): seq<Worker> {
    seq(|ws|, i requires 0 <= i < |ws| => ws[i].(wake := true))
  }

  /** The marks after a reconcile, before new workers start. */
  function Remarked(ws: seq<Worker>, desired: nat): seq<Worker> {
    var active := Sum(ws, Active);
    if active > desired then DrainFromBack(ws, active - desired)
    else if active < desired then Undrained(ws)
    else ws
  }

  function Missing(ws: seq<Worker>, desired: nat): nat {
    var active := Sum(ws, Active);
    if active < desired then desired - active else 0
  }

  function IdleDraining(ws: seq<Worker>): set<nat> {
    set i | 0 <= i < |ws| && ws[i].draining && !ws[i].busy :: ws[i].id
  }

  // ----- Critical sections -----

  function Reconcile(p: Pool, desired: nat): Pool {
    if p.stopping then p
    else
      var marked := Remarked(p.workers, desired);
      var missing := Missing(marked, desired);
      p.(desired := desired, barrier := IdleDraining(marked), started := p.started + missing,
         workers := Woken(marked) + NewWorkers(p.started, missing))
  }

  /** The top of a worker's loop: work, leave, or wait. */
  function Check(w: Worker, stopping: bool): Worker {
    if w.mailbox.Some? then w.(mailbox := None, place := Processing(w.mailbox.value))
    else if stopping || w.draining then w.(place := Exiting)
    else w.(place := Waiting)
  }

  function Exit(p: Pool, i: nat): Pool
    requires i < |p.workers|
  {
    var (w, rest) := (p.workers[i], p.workers[..i] + p.workers[i + 1..]);
    var replace := !p.stopping && !w.draining && Sum(rest, Active) < p.desired;
    p.(workers := rest + NewWorkers(p.started, if replace then 1 else 0),
       started := p.started + (if replace then 1 else 0),
       lost := p.lost + if w.mailbox.Some? then [w.mailbox.value] else [])
  }

  function HandOver(p: Pool, j: nat): Pool
    requires p.intake.Holding? && j < |p.workers|
  {
    p.(workers := p.workers[j := p.workers[j].(busy := true, mailbox := Some(p.intake.batch))], intake := Looking)
  }

  function Put(p: Pool, i: nat, w: Worker): Pool
    requires i < |p.workers|
  {
    p.(workers := p.workers[i := w])
  }

  /** The sending of a batch ended; a delivered one has been counted. */
  function Finish(p: Pool, i: nat, delivered: bool): Pool
    requires i < |p.workers| && p.workers[i].place.Processing?
  {
    var b := p.workers[i].place.batch;
    Put(p, i, p.workers[i].(place := Completed))
      .(finished := p.finished + [Finished(b, delivered)],
        counter := p.counter + if delivered then b.transactions else 0)
  }

  // ----- Steps -----

  datatype Step =
    // a worker
    | CheckTop(i: nat)
    | TakeWake(i: nat)
    | TakeWork(i: nat)
    | EndSending(i: nat, delivered: bool)
    | MarkFree(i: nat)
    | Leave(i: nat)
    // the intake
    | StopLooking
    | LockIntake
    | Receive(transactions: nat)
    | QuitReceiving(closed: bool)
    | Hand
    // the control goroutine, and the context
    | ReconcileTo(desired: nat)
    | BarrierPassed
    | Pause
    | Resume
    | Cancel
    | MarkStopping

  predicate At(p: Pool, i: nat, place: Place) { i < |p.workers| && p.workers[i].place == place }

  predicate Enabled(p: Pool, step: Step) {
    match step
    case CheckTop(i) => At(p, i, AtCheck)
    // the same token also wakes a worker out of the wait between two attempts
    case TakeWake(i) =>
      i < |p.workers| && p.workers[i].wake && (p.workers[i].place.Waiting? || p.workers[i].place.Processing?)
    case TakeWork(i) => At(p, i, Waiting) && p.workers[i].mailbox.Some?
    // sending ends without delivery only when the context is cancelled
    case EndSending(i, delivered) => i < |p.workers| && p.workers[i].place.Processing? && (delivered || p.cancelled)
    case MarkFree(i) => At(p, i, Completed)
    case Leave(i) => At(p, i, Exiting)
    case StopLooking => p.intake.Looking? && (FirstAvailable(p.workers).Some? || p.cancelled)
    case LockIntake => p.intake.Passed?
    case Receive(_) => p.intake.Selecting?
    case QuitReceiving(closed) => p.intake.Selecting? && (closed || p.cancelled)
    case Hand => p.intake.Holding? && FirstAvailable(p.workers).Some?
    case ReconcileTo(_) => p.barrier == {}
    case BarrierPassed => p.barrier != {} && forall i :: 0 <= i < |p.workers| ==> p.workers[i].id !in p.barrier
    case Pause => p.barrier == {}
    case Resume => p.barrier == {}
    case Cancel => true
    // stop holds both mutexes, so the intake holds neither
    case MarkStopping => p.barrier == {} && p.cancelled && !p.intake.Selecting? && !p.intake.Holding?
  }

  function Next(p: Pool, step: Step): Pool {
    if !Enabled(p, step) then p
    else match step
      case CheckTop(i) => Put(p, i, Check(p.workers[i], p.stopping))
      case TakeWake(i) =>
        Put(p, i, p.workers[i].(wake := false,
                                place := if p.workers[i].place.Waiting? then AtCheck else p.workers[i].place))
      case TakeWork(i) => Put(p, i, p.workers[i].(mailbox := None, place := Processing(p.workers[i].mailbox.value)))
      case EndSending(i, delivered) => Finish(p, i, delivered)
      case MarkFree(i) => Put(p, i, p.workers[i].(busy := false, place := AtCheck))
      case Leave(i) => Exit(p, i)
      // a batch is in hand only between the receive and the hand-over
      case StopLooking => p.(intake := if p.cancelled then Done else Passed)
      case LockIntake => p.(intake := if p.cancelled then Done else Selecting)
      case Receive(transactions) => p.(intake := Holding(Batch(p.received, transactions)), received := p.received + 1)
      case QuitReceiving(_) => p.(intake := Done)
      case Hand => HandOver(p, FirstAvailable(p.workers).value)
      case ReconcileTo(desired) => Reconcile(p, desired)
      case BarrierPassed => p.(barrier := {})
      case Pause => if p.paused || p.stopping then p else p.(paused := true, workers := Woken(p.workers))
      case Resume => p.(paused := false)
      case Cancel => p.(cancelled := true)
      case MarkStopping => p.(stopping := true, workers := Woken(p.workers))
  }

  /** A pool after startSenderPool. */
  function Initial(workers: nat): Pool {
    Pool(NewWorkers(0, workers), workers, false, false, false, Looking, {}, workers, 0, 0, [], [])
  }

  function Run(p: Pool, steps: seq<Step>): Pool {
    if |steps| == 0 then p else Next(Run(p, steps[..|steps| - 1]), steps[|steps| - 1])
  }

  // ----- Where the batches are -----

  function Is(b: Batch, k: nat): nat { if b.id == k then 1 else 0 }

  function OwnedBy(k: nat): Worker -> nat {
    (w: Worker) =>
      (if w.mailbox.Some? then Is(w.mailbox.value, k) else 0)
      + (if w.place.Processing? then Is(w.place.batch, k) else 0)
  }

  function EndedAs(k: nat): Finished -> nat { (f: Finished) => Is(f.batch, k) }

  function LostAs(k: nat): Batch -> nat { (b: Batch) => Is(b, k) }

  function InHand(intake: Intake, k: nat): nat { if intake.Holding? then Is(intake.batch, k) else 0 }

  /** In how many places batch k is. */
  function Places(p: Pool, k: nat): nat {
    InHand(p.intake, k) + Sum(p.workers, OwnedBy(k)) + Sum(p.finished, EndedAs(k)) + Sum(p.lost, LostAs(k))
  }

  function DeliveredTx(f: Finished): nat { if f.delivered then f.batch.transactions else 0 }
}
