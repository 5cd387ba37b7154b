/** The round-robin choice of a sender worker: whom it passes over, and that it is fair. */
module WorkerRotation {
  import opened Prelude
  import opened SimTypes
  import opened SenderWorkers

  /** How far the search from the cursor has to go to worker j, going round. */
  function Distance(cursor: nat, j: nat, n: nat): nat
    requires cursor < n && j < n
  {
    if j >= cursor then j - cursor else j + n - cursor
  }

  lemma RingOnce(k: nat, n: nat)
    requires n > 0 && k < n + n
    ensures Ring(k, n) == if k < n then k else k - n
  {
    if k >= n { assert Ring(k - n, n) == k - n; }
  }

  lemma {:induction false} FoundFirst(ws: seq<Worker>, cursor: nat, offset: nat, j: nat)
    requires cursor < |ws| && j < |ws| && Available(ws[j]) && offset <= Distance(cursor, j, |ws|)
    ensures var found := FindIdle(ws, cursor, offset);
      found.Some? && Distance(cursor, found.value, |ws|) <= Distance(cursor, j, |ws|)
    decreases |ws| - offset
  {
    var index := Ring(cursor + offset, |ws|);
    RingOnce(cursor + offset, |ws|);
    if !Available(ws[index]) { FoundFirst(ws, cursor, offset + 1, j); }
  }

  /** The choice is the first available worker from the cursor on, going round: every worker that it passes over is
      busy or retiring. */
  lemma ChoosesFirst(p: Pool, j: nat)
    requires p.nextIndex < |p.workers| && j < |p.workers| && Available(p.workers[j])
    ensures var i := NextIdle(p);
      i.Some? && Distance(p.nextIndex, i.value, |p.workers|) <= Distance(p.nextIndex, j, |p.workers|)
  {
    FoundFirst(p.workers, p.nextIndex, 0, j);
  }

  /** The pool as it is at one choice after another, each with somebody to choose. In between the workers may change,
      but not their number; and the cursor is where the choice has left it. */
  predicate Choices(ps: seq<Pool>, n: nat) {
    && (forall k :: 0 <= k < |ps| ==> |ps[k].workers| == n && ps[k].nextIndex < n && NextIdle(ps[k]).Some?)
    && (forall k :: 0 < k < |ps| ==> ps[k].nextIndex == Advanced(ps[k - 1], NextIdle(ps[k - 1]).value).nextIndex)
  }

  predicate Chosen(ps: seq<Pool>, k: nat, i: nat)
    requires k < |ps|
  {
    NextIdle(ps[k]) == Some(i)
  }

  /** Behind the worker just chosen, every other one comes before it. */
  lemma CursorPasses(cursor: nat, c: nat, i: nat, j: nat, n: nat)
    requires cursor < n && c < n && i < n && j < n && j != i && j != c
    requires c == i || Distance(cursor, c, n) <= Distance(cursor, j, n) < Distance(cursor, i, n)
    ensures Distance(Ring(c + 1, n), j, n) < Distance(Ring(c + 1, n), i, n)
  {
  }

  /** As long as worker j is available and not chosen, it comes before the worker i chosen at first. */
  lemma {:induction false} StaysBefore(ps: seq<Pool>, n: nat, i: nat, j: nat, m: nat)
    requires Choices(ps, n) && 0 < m < |ps| && i < n && j < n && i != j && Chosen(ps, 0, i)
    requires forall k :: 0 < k < m ==> Available(ps[k].workers[j]) && !Chosen(ps, k, j)
    ensures Distance(ps[m].nextIndex, j, n) < Distance(ps[m].nextIndex, i, n)
  {
    if m > 1 {
      StaysBefore(ps, n, i, j, m - 1);
      ChoosesFirst(ps[m - 1], j);
    }
    CursorPasses(ps[m - 1].nextIndex, NextIdle(ps[m - 1]).value, i, j, n);
  }

  /** Fair: between two choices of one worker, every other one that was available all the time since the first has been
      chosen too. */
  lemma RotationIsFair(ps: seq<Pool>, n: nat, i: nat, j: nat)
    requires Choices(ps, n) && |ps| > 1 && i < n && j < n && i != j && Chosen(ps, 0, i) && Chosen(ps, |ps| - 1, i)
    requires forall k :: 0 < k < |ps| ==> Available(ps[k].workers[j])
    ensures exists k :: 0 < k < |ps| - 1 && Chosen(ps, k, j)
  {
    if forall k :: 0 < k < |ps| - 1 ==> !Chosen(ps, k, j) {
      StaysBefore(ps, n, i, j, |ps| - 1);
      ChoosesFirst(ps[|ps| - 1], j);
      assert false;
    }
  }
}
