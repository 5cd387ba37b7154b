/** The throttler: forwards batches in order, no faster than the installed rate. */
module Throttler {
  import opened Prelude
  import opened RetryConfig

  datatype Settings = Settings(requestedTps: nat, installed: bool)

  /** The longest batch that configuration validation lets through. */
  const MAX_BATCH: nat := 9_223_372_036

  type Length = n: nat | n <= MAX_BATCH
  type Rate64 = n: nat | 0 < n <= 0x7FFF_FFFF_FFFF_FFFF witness 1

  /** Every batch that a validated batch size allows has a length that the throttler can pace. */
  lemma ValidatedBatchesFit(r: Range, initial: int64, size: int64, transactions: nat)
    requires PositiveRange(r, initial) && r.max as int * SECOND as int <= MAX_INT64 as int
    requires Contains(r, size) && transactions <= size as int
    ensures transactions <= MAX_BATCH && transactions * SECOND as int <= MAX_INT64 as int
  {
    assert transactions * 1_000_000_000 <= r.max as int * 1_000_000_000;
  }

  datatype Packet = Packet(id: nat, transactions: Length)

  /** The time, in ns, that a batch takes at a rate; on 64-bit integers, so nothing overflows. */
  function Interval(transactions: Length, tps: Rate64): nat {
    Quotient(transactions as int64 * SECOND, tps as int64) as nat
  }

  lemma IntervalBounds(transactions: Length, tps: Rate64)
    ensures var i := Interval(transactions, tps); i * tps <= transactions * 1_000_000_000 < (i + 1) * tps
  {
    var product := transactions * 1_000_000_000;
    assert product == tps * (product / tps) + product % tps;
    assert (product / tps + 1) * tps == tps * (product / tps) + tps;
  }

  // ----- What a trace may contain -----

  /** Paced, Halted and Blocked mark the start of a wait: for the interval to pass, for a rate above zero,
      for room in the sender channel. */
  datatype Event =
    | Received(packet: Packet, at: nat)
    | Updated(settings: Settings, at: nat)
    | Sent(packet: Packet, at: nat)
    | Paced(at: nat)
    | Halted(at: nat)
    | Blocked(at: nat)

  function InForce(initial: Settings, log: seq<Event>): Settings {
    if |log| == 0 then initial
    else if log[|log| - 1].Updated? then log[|log| - 1].settings
    else InForce(initial, log[..|log| - 1])
  }

  /** The batch received and not sent yet. */
  function InHand(log: seq<Event>): Option<Packet> {
    if |log| == 0 then None
    else match log[|log| - 1]
      case Received(p, _) => Some(p)
      case Sent(_, _) => None
      case _ => InHand(log[..|log| - 1])
  }

  function Latest(log: seq<Event>): nat {
    if |log| == 0 then 0 else log[|log| - 1].at
  }

  /** When the clock of the batch in hand was last set: by its receipt or by an update since. */
  function Since(log: seq<Event>): nat {
    if |log| == 0 then 0
    else if log[|log| - 1].Received? || log[|log| - 1].Updated? || log[|log| - 1].Sent? then log[|log| - 1].at
    else Since(log[..|log| - 1])
  }

  predicate Stopped(s: Settings) { s.installed && s.requestedTps == 0 }

  /** The interval of the batch, counted from started, is not over. */
  predicate Early(s: Settings, batch: Packet, started: nat, at: nat) {
    s.installed && 0 < s.requestedTps <= 0x7FFF_FFFF_FFFF_FFFF
    && at < started + Interval(batch.transactions, s.requestedTps)
  }

  /** What may be done with the batch in hand: it is never sent early nor at rate zero, and the throttler
      waits for time or for a rate only when it must. */
  predicate Allowed(s: Settings, batch: Packet, started: nat, e: Event) {
    match e
    case Sent(p, at) => p == batch && !Stopped(s) && !Early(s, batch, started, at)
    case Paced(at) => Early(s, batch, started, at)
    case Halted(_) => Stopped(s)
    case Blocked(at) => !Stopped(s) && !Early(s, batch, started, at)
    case _ => false
  }

  predicate May(initial: Settings, before: seq<Event>, e: Event) {
    && e.at >= Latest(before)
    && match InHand(before)
       case None => e.Received? || e.Updated?
       case Some(batch) => e.Updated? || Allowed(InForce(initial, before), batch, Since(before), e)
  }

  predicate Lawful(initial: Settings, log: seq<Event>) {
    |log| > 0 ==> Lawful(initial, log[..|log| - 1]) && May(initial, log[..|log| - 1], log[|log| - 1])
  }

  function AllReceived(log: seq<Event>): seq<Packet> {
    if |log| == 0 then []
    else AllReceived(log[..|log| - 1]) + if log[|log| - 1].Received? then [log[|log| - 1].packet] else []
  }

  function AllSent(log: seq<Event>): seq<Packet> {
    if |log| == 0 then []
    else AllSent(log[..|log| - 1]) + if log[|log| - 1].Sent? then [log[|log| - 1].packet] else []
  }

  /** Every batch received is forwarded once, in the order of receipt, except the one in hand. */
  lemma {:induction false} ForwardedInOrder(initial: Settings, log: seq<Event>)
    requires Lawful(initial, log)
    ensures AllReceived(log) == AllSent(log) + if InHand(log).Some? then [InHand(log).value] else []
  {
    if |log| > 0 {
      ForwardedInOrder(initial, log[..|log| - 1]);
    }
  }

  lemma {:induction false} SinceIsPast(initial: Settings, log: seq<Event>)
    requires Lawful(initial, log)
    ensures Since(log) <= Latest(log)
  {
    if |log| > 0 {
      SinceIsPast(initial, log[..|log| - 1]);
    }
  }

  lemma {:induction false} LawfulPrefix(initial: Settings, log: seq<Event>, k: nat)
    requires Lawful(initial, log) && k <= |log|
    ensures Lawful(initial, log[..k])
  {
    if k < |log| {
      LawfulPrefix(initial, log[..|log| - 1], k);
      assert log[..|log| - 1][..k] == log[..k];
    } else {
      assert log[..k] == log;
    }
  }

  /** Under an installed rate above zero, a batch is sent at least its interval after whatever set its clock. */
  lemma PacedSend(initial: Settings, log: seq<Event>, k: nat, tps: Rate64)
    requires Lawful(initial, log) && k < |log| && log[k].Sent?
    requires InForce(initial, log[..k]) == Settings(tps, true)
    ensures log[k].at >= Since(log[..k]) + Interval(log[k].packet.transactions, tps)
  {
    LawfulPrefix(initial, log, k + 1);
    assert log[..k + 1][..k] == log[..k];
  }

  lemma {:induction false} SinceGrows(initial: Settings, log: seq<Event>, from: nat, to: nat)
    requires Lawful(initial, log) && from <= to <= |log|
    ensures Since(log[..from]) <= Since(log[..to])
  {
    if from < to {
      SinceGrows(initial, log, from, to - 1);
      assert log[..to][..to - 1] == log[..to - 1];
      LawfulPrefix(initial, log, to);
      SinceIsPast(initial, log[..to - 1]);
    }
  }

  /** And so at least its interval after every earlier send. */
  lemma SpacedSends(initial: Settings, log: seq<Event>, i: nat, k: nat, tps: Rate64)
    requires Lawful(initial, log) && i < k < |log| && log[i].Sent? && log[k].Sent?
    requires InForce(initial, log[..k]) == Settings(tps, true)
    ensures log[k].at >= log[i].at + Interval(log[k].packet.transactions, tps)
  {
    PacedSend(initial, log, k, tps);
    SinceGrows(initial, log, i + 1, k);
    assert log[..i + 1][i] == log[i];
  }

  function TransactionsIn(e: Event): nat { if e.Sent? then e.packet.transactions else 0 }

  function SendsIn(e: Event): nat { if e.Sent? then 1 else 0 }

  predicate ConstantRate(initial: Settings, log: seq<Event>, from: nat, to: nat, tps: Rate64)
    requires from <= to <= |log|
  {
    forall k :: from <= k < to ==> InForce(initial, log[..k]) == Settings(tps, true)
  }

  /** The rate lets that many transactions pass in that time. */
  predicate Allows(ns: int, tps: Rate64, transactions: nat) { transactions * 1_000_000_000 <= ns * tps }

  /** One event at an installed rate: the transactions it sends fit the time its clock moves by, rounded
      up by one ns. */
  lemma OneEvent(initial: Settings, log: seq<Event>, k: nat, tps: Rate64)
    requires Lawful(initial, log) && k < |log| && InForce(initial, log[..k]) == Settings(tps, true)
    ensures Since(log[..k]) <= Since(log[..k + 1])
    ensures Allows(Since(log[..k + 1]) - Since(log[..k]) + SendsIn(log[k]), tps, TransactionsIn(log[k]))
  {
    var e := log[k];
    assert log[..k + 1][..k] == log[..k];
    LawfulPrefix(initial, log, k + 1);
    SinceIsPast(initial, log[..k]);
    var grown := Since(log[..k + 1]) - Since(log[..k]);
    if e.Sent? {
      PacedSend(initial, log, k, tps);
      IntervalBounds(e.packet.transactions, tps);
      Bounded(e.packet.transactions, grown, Interval(e.packet.transactions, tps), tps);
    } else {
      Shares(0, grown, tps);
    }
  }

  /** The rate bound: over any stretch of the trace at one installed rate, the transactions sent are at
      most those of the time passed, and of one further ns for each batch. */
  lemma {:induction false} WindowBound(initial: Settings, log: seq<Event>, from: nat, to: nat, tps: Rate64)
    requires Lawful(initial, log) && from <= to <= |log| && ConstantRate(initial, log, from, to, tps)
    ensures Since(log[..from]) <= Since(log[..to])
    ensures Allows(Since(log[..to]) - Since(log[..from]) + Sum(log[from..to], SendsIn), tps,
                   Sum(log[from..to], TransactionsIn))
  {
    if from < to {
      var (k, e) := (to - 1, log[to - 1]);
      WindowBound(initial, log, from, k, tps);
      OneEvent(initial, log, k, tps);
      assert log[from..to] == log[from..k] + [e];
      SumAppend(log[from..k], e, TransactionsIn);
      SumAppend(log[from..k], e, SendsIn);
      AddAllowances(Sum(log[from..k], TransactionsIn),
                    Since(log[..k]) - Since(log[..from]) + Sum(log[from..k], SendsIn),
                    TransactionsIn(e), Since(log[..to]) - Since(log[..k]) + SendsIn(e), tps);
    } else {
      assert log[from..to] == [];
    }
  }

  lemma AddAllowances(sent: nat, ns: nat, more: nat, moreNs: nat, tps: Rate64)
    requires Allows(ns, tps, sent) && Allows(moreNs, tps, more)
    ensures Allows(ns + moreNs, tps, sent + more)
  {
    Shares(ns, moreNs, tps);
  }

  lemma Bounded(transactions: nat, grown: nat, interval: nat, tps: Rate64)
    requires transactions * 1_000_000_000 <= (interval + 1) * tps && interval <= grown
    ensures Allows(grown + 1, tps, transactions)
  {
    assert (interval + 1) * tps <= (grown + 1) * tps;
  }

  lemma Shares(a: nat, b: nat, tps: nat)
    ensures (a + b) * tps == a * tps + b * tps && b * tps >= 0
  {
  }

  /** Between two sends at one installed rate, n batches later. */
  lemma SendWindow(initial: Settings, log: seq<Event>, i: nat, k: nat, tps: Rate64)
    requires Lawful(initial, log) && i < k < |log| && log[i].Sent? && log[k].Sent?
    requires ConstantRate(initial, log, i + 1, k + 1, tps)
    ensures Allows(log[k].at - log[i].at + Sum(log[i + 1..k + 1], SendsIn), tps, Sum(log[i + 1..k + 1], TransactionsIn))
  {
    WindowBound(initial, log, i + 1, k + 1, tps);
    assert log[..i + 1][|log[..i + 1]| - 1] == log[i] && log[..k + 1][|log[..k + 1]| - 1] == log[k];
  }

  // ----- The loops -----

  /** What a select finds after a while: cancellation, new settings, the awaited event, or, for a select
      that does not wait, nothing. */
  datatype Pick = Cancel | Update(settings: Settings) | Proceed | Nothing

  datatype Choice = Choice(after: nat, pick: Pick)

  predicate Fits(s: Settings) { s.requestedTps <= 0x7FFF_FFFF_FFFF_FFFF }

  /** The goroutine's loop. The choices say what each select finds in turn; when they run out, the run is
      cancelled. Timers are not trusted: a timer may fire at any time. */
  class Loop {
    const initial: Settings
    var settings: Settings
    var now: nat
    var queue: seq<Packet>
    var choices: seq<Choice>
    var cancelled: bool
    var blockedSenders: nat
    var log: seq<Event>

    constructor (initial: Settings, now: nat, queue: seq<Packet>, choices: seq<Choice>)
      requires AllFit(initial, choices)
      ensures Valid() && InHand(log) == None && this.initial == initial && this.queue == queue
      ensures log == [] && blockedSenders == 0 && !cancelled
    {
      this.initial, this.settings, this.now, this.queue, this.choices := initial, initial, now, queue, choices;
      cancelled, blockedSenders, log := false, 0, [];
    }

    static predicate AllFit(s: Settings, choices: seq<Choice>) {
      Fits(s) && forall c :: c in choices && c.pick.Update? ==> Fits(c.pick.settings)
    }

    ghost predicate Valid()
      reads `settings, `log, `now, `choices
    {
      settings == InForce(initial, log) && Lawful(initial, log) && Latest(log) <= now && AllFit(settings, choices)
    }

    method Select() returns (pick: Pick)
      requires Valid()
      modifies `now, `choices, `cancelled
      ensures Valid() && now >= old(now)
      ensures pick.Update? ==> Fits(pick.settings)
      ensures pick.Cancel? ==> cancelled
      ensures !pick.Cancel? ==> cancelled == old(cancelled) && |choices| < |old(choices)|
      ensures |choices| <= |old(choices)|
    {
      if |choices| == 0 {
        cancelled := true;
        return Cancel;
      }
      var c := choices[0];
      choices := choices[1..];
      now := now + c.after;
      pick := c.pick;
      cancelled := cancelled || pick.Cancel?;
    }

    method Record(e: Event)
      requires Valid() && May(initial, log, e) && e.at <= now
      requires e.Updated? ==> Fits(e.settings)
      modifies `log, `settings
      ensures Valid() && log == old(log) + [e]
      ensures InHand(log) == if e.Received? then Some(e.packet) else if e.Sent? then None else old(InHand(log))
      ensures Since(log) == if e.Received? || e.Updated? || e.Sent? then e.at else old(Since(log))
      ensures AllReceived(log) == old(AllReceived(log)) + if e.Received? then [e.packet] else []
    {
      assert (log + [e])[..|log|] == log;
      log := log + [e];
      if e.Updated? { settings := e.settings; }
    }

    ghost predicate Holding(batch: Packet, waitStarted: nat)
      reads `settings, `log, `now, `choices
    {
      Valid() && InHand(log) == Some(batch) && Since(log) == waitStarted <= now
    }

    /** Marks the wait, if there is one, and selects; new settings take effect and restart the clock. */
    method Await(mark: Option<Event>, batch: Packet, waitStarted: nat) returns (pick: Pick, started: nat)
      requires Holding(batch, waitStarted)
      requires mark.Some? ==> (mark.value.Paced? || mark.value.Halted? || mark.value.Blocked?)
                              && mark.value.at == now && Allowed(settings, batch, waitStarted, mark.value)
      modifies `settings, `now, `choices, `cancelled, `log
      ensures Holding(batch, started) && now >= old(now)
      ensures !pick.Update? ==> settings == old(settings) && started == waitStarted
      ensures pick.Update? ==> settings == pick.settings && started == now
      ensures pick.Cancel? ==> cancelled
      ensures !pick.Cancel? ==> cancelled == old(cancelled) && |choices| < |old(choices)|
      ensures |choices| <= |old(choices)| && AllReceived(log) == old(AllReceived(log))
    {
      if mark.Some? { Record(mark.value); }
      pick := Select();
      started := waitStarted;
      if pick.Update? {
        Record(Updated(pick.settings, now));
        started := now;
      }
    }

    method Send(batch: Packet, waitStarted: nat)
      requires Holding(batch, waitStarted) && Allowed(settings, batch, waitStarted, Sent(batch, now))
      modifies `settings, `log
      ensures Valid() && InHand(log) == None && AllReceived(log) == old(AllReceived(log))
    {
      Record(Sent(batch, now));
    }

    /** Holds the batch until it may go and there is room. True: it was sent. False: the run is cancelled,
        and the batch is dropped. */
    method ForwardBatch(batch: Packet) returns (sent: bool)
      requires Holding(batch, now)
      modifies `settings, `now, `choices, `cancelled, `blockedSenders, `log
      ensures Valid() && blockedSenders == old(blockedSenders)
      ensures InHand(log) == if sent then None else Some(batch)
      ensures if sent then cancelled == old(cancelled) else cancelled
      ensures |choices| <= |old(choices)| && AllReceived(log) == old(AllReceived(log))
    {
      var waitStarted, pick := now, Nothing;
      while true
        invariant Holding(batch, waitStarted) && blockedSenders == old(blockedSenders)
        invariant cancelled == old(cancelled) && |choices| <= |old(choices)|
        invariant AllReceived(log) == old(AllReceived(log))
        decreases |choices|
      {
        if settings.installed && settings.requestedTps == 0 {
          pick, waitStarted := Await(Some(Halted(now)), batch, waitStarted);
          if pick.Cancel? { return false; }
          continue;
        }
        if settings.installed {
          var interval := Interval(batch.transactions, settings.requestedTps);
          var remaining := interval - (now - waitStarted);
          if remaining > 0 {
            pick, waitStarted := Await(Some(Paced(now)), batch, waitStarted);
            if pick.Cancel? { return false; }
            continue;
          }
        }
        pick, waitStarted := Await(None, batch, waitStarted);
        if pick.Cancel? { return false; }
        if pick.Update? { continue; }
        if pick.Nothing? {
          blockedSenders := blockedSenders + 1;
          pick, waitStarted := Await(Some(Blocked(now)), batch, waitStarted);
          blockedSenders := blockedSenders - 1;
          if pick.Cancel? { return false; }
          if pick.Update? { continue; }
        }
        Send(batch, waitStarted);
        return true;
      }
    }

    /** Runs until cancelled, or until the reader channel is closed and empty. */
    method Run()
      requires Valid() && InHand(log) == None && log == []
      modifies `settings, `now, `choices, `cancelled, `queue, `blockedSenders, `log
      ensures Valid() && blockedSenders == old(blockedSenders)
      ensures AllReceived(log) + queue == old(queue)
      ensures cancelled || queue == []
      ensures InHand(log).Some? ==> cancelled
    {
      while true
        invariant Valid() && InHand(log) == None && blockedSenders == old(blockedSenders)
        invariant AllReceived(log) + queue == old(queue)
        invariant cancelled ==> old(cancelled)
        decreases |choices|
      {
        var pick := Select();
        match pick
        case Cancel => return;
        case Update(update) => Record(Updated(update, now));
        case Proceed =>
          if queue == [] { return; }
          var batch := queue[0];
          assert AllReceived(log) + queue == (AllReceived(log) + [batch]) + queue[1..];
          queue := queue[1..];
          Record(Received(batch, now));
          var sent := ForwardBatch(batch);
          if !sent { return; }
        case Nothing =>
      }
    }
  }
}
