/** Sending one batch: attempts, the pause gate, and the waits between attempts. */
module BatchDelivery {
  import opened Prelude
  import opened RetryConfig

  datatype Outcome = Success | Failure | Cancelled

  /** One attempt: its number, when it began and ended, and how. */
  datatype Attempt = Attempt(number: Pos, began: nat, ended: nat, outcome: Outcome)

  /** What the sender finds when it looks again: how much later it is, whether the context is cancelled by
      then, and whether the pool is paused. */
  datatype Look = Look(after: nat, cancel: bool, paused: bool)

  /** The deterministic value of the batch and an attempt, modulo 41. */
  type Jitter = n: nat | n <= 40

  function DelayNs(s: Schedule, hash: Pos -> Jitter, attempt: Pos): nat
    requires ValidSchedule(s)
  {
    DelayWithinAFifth(s, attempt, hash(attempt));
    DelayAfter(s, attempt, hash(attempt)) as nat
  }

  /** The next attempt follows a failed one, no sooner than its delay. */
  predicate Follows(delays: Pos -> nat, a: Attempt, b: Attempt) {
    b.number == a.number + 1 && a.outcome.Failure? && b.began >= a.ended + delays(a.number)
  }

  predicate Spaced(delays: Pos -> nat, log: seq<Attempt>) {
    && (|log| > 0 ==> log[0].number == 1)
    && (forall i :: 0 <= i < |log| ==> log[i].began <= log[i].ended)
    && (forall i :: 0 < i < |log| ==> Follows(delays, log[i - 1], log[i]))
  }

  lemma SpacedNext(delays: Pos -> nat, log: seq<Attempt>, a: Attempt)
    requires Spaced(delays, log) && a.began <= a.ended
    requires if |log| == 0 then a.number == 1 else Follows(delays, log[|log| - 1], a)
    ensures Spaced(delays, log + [a])
  {
    var longer := log + [a];
    forall i | 0 < i < |longer|
      ensures Follows(delays, longer[i - 1], longer[i])
    {
      assert longer[i - 1] == log[i - 1];
    }
  }

  class Delivery {
    const delays: Pos -> nat
    const attempts: nat -> (nat, Outcome)
    var looks: seq<Look>
    var now: nat
    var cancelled: bool
    var paused: bool
    var backoff: bool
    var completed: nat
    var log: seq<Attempt>

    constructor (schedule: Schedule, hash: Pos -> Jitter, attempts: nat -> (nat, Outcome), looks: seq<Look>, now: nat)
      requires ValidSchedule(schedule)
      ensures Valid() && log == [] && completed == 0
      ensures forall n :: delays(n) == DelayNs(schedule, hash, n)
    {
      this.delays, this.attempts := n => DelayNs(schedule, hash, n), attempts;
      this.looks, this.now := looks, now;
      cancelled, paused, backoff, completed, log := false, false, false, 0, [];
    }

    ghost predicate Valid()
      reads `log, `now
    {
      Spaced(delays, log) && (|log| > 0 ==> log[|log| - 1].ended <= now && log[|log| - 1].number == |log|)
    }

    /** Looks at the shared state; when the looks run out the context is cancelled. */
    method Observe()
      modifies `looks, `now, `cancelled, `paused
      ensures now >= old(now) && (old(cancelled) ==> cancelled)
      ensures |looks| <= |old(looks)| && (cancelled || |looks| < |old(looks)|)
    {
      if |looks| == 0 {
        cancelled := true;
        return;
      }
      now, cancelled, paused := now + looks[0].after, cancelled || looks[0].cancel, looks[0].paused;
      looks := looks[1..];
    }

    /** True: the pool was not paused and not cancelled at the last look. False: it is cancelled. */
    method WaitUntilRunnable() returns (runnable: bool)
      modifies `looks, `now, `cancelled, `paused
      ensures now >= old(now) && |looks| <= |old(looks)|
      ensures if runnable then !cancelled && !paused && |looks| < |old(looks)| else cancelled
    {
      while true
        invariant now >= old(now) && |looks| <= |old(looks)|
        decreases |looks|
      {
        Observe();
        if cancelled { return false; }
        if !paused { return true; }
        Observe();
        if cancelled { return false; }
      }
    }

    /** True: the delay has passed. False: cancelled. Wake-up tokens and early timers only make it look again. */
    method WaitBackoff(delay: nat) returns (waited: bool)
      modifies `looks, `now, `cancelled, `paused
      ensures now >= old(now) && |looks| <= |old(looks)|
      ensures if waited then now >= old(now) + delay && !cancelled && |looks| < |old(looks)| else cancelled
    {
      var deadline := now + delay;
      while true
        invariant now >= old(now) && |looks| <= |old(looks)|
        decreases |looks|
      {
        var runnable := WaitUntilRunnable();
        if !runnable { return false; }
        if deadline <= now { return true; }
        Observe();
        if cancelled { return false; }
      }
    }

    /** One attempt. It may begin after a pause that landed since the last look; it ends cancelled only when
        the context is. */
    method TryOnce(number: Pos) returns (outcome: Outcome)
      requires Valid() && number == |log| + 1
      requires |log| > 0 ==> log[|log| - 1].outcome.Failure? && now >= log[|log| - 1].ended + delays(|log|)
      modifies `looks, `now, `cancelled, `paused, `log
      ensures Valid() && |log| == |old(log)| + 1
      ensures log == old(log) + [Attempt(number, log[|log| - 1].began, now, outcome)]
      ensures outcome.Cancelled? ==> cancelled
      ensures |looks| <= |old(looks)| && now >= old(now)
    {
      Observe();
      var began := now;
      Observe();
      now := now + attempts(now).0;
      outcome := if attempts(now).1.Cancelled? && !cancelled then Failure else attempts(now).1;
      var attempt := Attempt(number, began, now, outcome);
      SpacedNext(delays, log, attempt);
      log := log + [attempt];
    }

    /** Tries until the batch is delivered (true) or the context is cancelled (false). */
    method ProcessBatch() returns (delivered: bool)
      requires Valid() && log == []
      modifies `looks, `now, `cancelled, `paused, `backoff, `log
      ensures Valid()
      ensures forall i :: 0 <= i < |log| - 1 ==> log[i].outcome.Failure?
      ensures delivered ==> |log| > 0 && log[|log| - 1].outcome.Success?
      ensures !delivered ==> cancelled && (|log| > 0 ==> !log[|log| - 1].outcome.Success?)
    {
      var attempt: Pos := 1;
      while true
        invariant Valid() && attempt == |log| + 1
        invariant forall i :: 0 <= i < |log| ==> log[i].outcome.Failure?
        invariant |log| > 0 ==> now >= log[|log| - 1].ended + delays(|log|)
        decreases |looks|
      {
        backoff := false;
        var runnable := WaitUntilRunnable();
        if !runnable { return false; }
        var outcome := TryOnce(attempt);
        match outcome
        case Success => return true;
        case Cancelled => return false;
        case Failure =>
          backoff := true;
          var waited := WaitBackoff(delays(attempt));
          if !waited { return false; }
          attempt := attempt + 1;
      }
    }

    /** The batch's transactions are counted once if it was delivered, and not at all if it was abandoned. */
    method FinishAcceptedBatch(transactions: nat) returns (delivered: bool)
      requires Valid() && log == []
      modifies `looks, `now, `cancelled, `paused, `backoff, `log, `completed
      ensures Valid() && !backoff && (!delivered ==> cancelled)
      ensures completed == old(completed) + if delivered then transactions else 0
      ensures delivered <==> |log| > 0 && log[|log| - 1].outcome.Success?
    {
      delivered := ProcessBatch();
      if delivered { completed := completed + transactions; }
      backoff := false;
    }
  }

  lemma DelayBound(s: Schedule, hash: Pos -> Jitter, attempt: Pos)
    requires ValidSchedule(s)
    ensures 5 * DelayNs(s, hash, attempt) >= 4 * EntryNs(s, attempt)
  {
    DelayWithinAFifth(s, attempt, hash(attempt));
  }

  function EntryNs(s: Schedule, attempt: Pos): nat
    requires ValidSchedule(s)
  {
    Entry(s, attempt) as nat * MILLISECOND as nat
  }

  /** The first n entries of the schedule, in ns. */
  function Entries(s: Schedule, n: nat): nat
    requires ValidSchedule(s)
  {
    if n == 0 then 0 else Entries(s, n - 1) + EntryNs(s, n)
  }

  /** However the looks fall, the delays add up: attempt n + 1 begins at least four fifths of the sum of the
      schedule's first n entries after the first attempt began. */
  lemma {:induction false} DelaysAddUp(s: Schedule, hash: Pos -> Jitter, delays: Pos -> nat, log: seq<Attempt>, n: nat)
    requires ValidSchedule(s) && Spaced(delays, log) && n < |log|
    requires forall k :: delays(k) == DelayNs(s, hash, k)
    ensures 5 * (log[n].began - log[0].began) >= 4 * Entries(s, n)
  {
    if n > 0 {
      DelaysAddUp(s, hash, delays, log, n - 1);
      DelayBound(s, hash, n);
      Numbered(delays, log, n - 1);
      assert Follows(delays, log[n - 1], log[n]);
      AddUp(log[0], log[n - 1], log[n], delays(n), Entries(s, n - 1), EntryNs(s, n));
    }
  }

  lemma {:induction false} Numbered(delays: Pos -> nat, log: seq<Attempt>, i: nat)
    requires Spaced(delays, log) && i < |log|
    ensures log[i].number == i + 1
  {
    if i > 0 {
      Numbered(delays, log, i - 1);
      assert Follows(delays, log[i - 1], log[i]);
    }
  }

  lemma AddUp(first: Attempt, before: Attempt, next: Attempt, delay: nat, sum: nat, entry: nat)
    requires 5 * (before.began - first.began) >= 4 * sum && before.ended >= before.began
    requires next.began >= before.ended + delay && 5 * delay >= 4 * entry
    ensures 5 * (next.began - first.began) >= 4 * (sum + entry)
  {
  }
}
