/** Options and sums over sequences, shared by every component. */
module Prelude {
  datatype Option<+T> = None | Some(value: T)

  /** At least one: worker counts, batch sizes, the transactions of a batch. */
  type Pos = n: int | n >= 1 witness 1

  /** The sum of f over xs, taken from the back so that appending is one unfolding. */
  function Sum<T>(xs: seq<T>, f: T -> nat): nat {
    if |xs| == 0 then 0 else Sum(xs[..|xs| - 1], f) + f(xs[|xs| - 1])
  }

  lemma SumAppend<T>(xs: seq<T>, x: T, f: T -> nat)
    ensures Sum(xs + [x], f) == Sum(xs, f) + f(x)
  {
    assert (xs + [x])[..|xs|] == xs;
  }

  lemma {:induction false} SumConcat<T>(xs: seq<T>, ys: seq<T>, f: T -> nat)
    ensures Sum(xs + ys, f) == Sum(xs, f) + Sum(ys, f)
  {
    if |ys| == 0 {
      assert xs + ys == xs;
    } else {
      var init, last := ys[..|ys| - 1], ys[|ys| - 1];
      assert xs + ys == (xs + init) + [last];
      SumAppend(xs + init, last, f);
      SumConcat(xs, init, f);
    }
  }

  lemma SumHead<T>(xs: seq<T>, f: T -> nat)
    requires |xs| > 0
    ensures Sum(xs, f) == f(xs[0]) + Sum(xs[1..], f)
  {
    assert xs == [xs[0]] + xs[1..];
    SumConcat([xs[0]], xs[1..], f);
    SumAppend([], xs[0], f);
    assert [] + [xs[0]] == [xs[0]];
  }

  lemma SplitAt<T>(xs: seq<T>, i: nat)
    requires i < |xs|
    ensures xs == xs[..i] + [xs[i]] + xs[i + 1..]
  {
  }

  lemma SumParts<T>(xs: seq<T>, n: nat, f: T -> nat)
    requires n <= |xs|
    ensures Sum(xs, f) == Sum(xs[..n], f) + Sum(xs[n..], f)
  {
    assert xs == xs[..n] + xs[n..];
    SumConcat(xs[..n], xs[n..], f);
  }

  lemma SumMiddle<T>(before: seq<T>, x: T, after: seq<T>, f: T -> nat)
    ensures Sum(before + [x] + after, f) == Sum(before + after, f) + f(x)
  {
    SumConcat(before + [x], after, f);
    SumAppend(before, x, f);
    SumConcat(before, after, f);
  }

  lemma {:induction false} SumUpdate<T>(xs: seq<T>, i: nat, x: T, f: T -> nat)
    requires i < |xs|
    ensures Sum(xs[i := x], f) + f(xs[i]) == Sum(xs, f) + f(x)
  {
    var n := |xs| - 1;
    if i == n {
      assert xs[i := x][..n] == xs[..n];
    } else {
      assert xs[i := x][..n] == xs[..n][i := x];
      SumUpdate(xs[..n], i, x, f);
    }
  }

  lemma {:induction false} SumAt<T>(xs: seq<T>, i: nat, f: T -> nat)
    requires i < |xs|
    ensures f(xs[i]) <= Sum(xs, f)
  {
    if i < |xs| - 1 {
      SumAt(xs[..|xs| - 1], i, f);
    }
  }

  lemma {:induction false} SumAtTwo<T>(xs: seq<T>, i: nat, j: nat, f: T -> nat)
    requires i < j < |xs|
    ensures f(xs[i]) + f(xs[j]) <= Sum(xs, f)
  {
    if j == |xs| - 1 {
      SumAt(xs[..j], i, f);
    } else {
      SumAtTwo(xs[..|xs| - 1], i, j, f);
    }
  }

  lemma {:induction false} SumZero<T>(xs: seq<T>, f: T -> nat)
    requires forall i :: 0 <= i < |xs| ==> f(xs[i]) == 0
    ensures Sum(xs, f) == 0
  {
    if |xs| > 0 {
      SumZero(xs[..|xs| - 1], f);
    }
  }

  lemma {:induction false} SumSame<T>(xs: seq<T>, ys: seq<T>, f: T -> nat)
    requires |xs| == |ys| && forall i :: 0 <= i < |xs| ==> f(xs[i]) == f(ys[i])
    ensures Sum(xs, f) == Sum(ys, f)
  {
    if |xs| > 0 {
      SumSame(xs[..|xs| - 1], ys[..|xs| - 1], f);
    }
  }

  lemma {:induction false} SumEqual<T>(xs: seq<T>, f: T -> nat, g: T -> nat)
    requires forall i :: 0 <= i < |xs| ==> f(xs[i]) == g(xs[i])
    ensures Sum(xs, f) == Sum(xs, g)
  {
    if |xs| > 0 {
      SumEqual(xs[..|xs| - 1], f, g);
    }
  }

  lemma {:induction false} SumSplit<T>(xs: seq<T>, f: T -> nat, g: T -> nat, h: T -> nat)
    requires forall i :: 0 <= i < |xs| ==> f(xs[i]) == g(xs[i]) + h(xs[i])
    ensures Sum(xs, f) == Sum(xs, g) + Sum(xs, h)
  {
    if |xs| > 0 {
      SumSplit(xs[..|xs| - 1], f, g, h);
    }
  }

  /** The remainder of k by n, by repeated subtraction. */
  function Ring(k: nat, n: nat): (r: nat)
    requires n > 0
    ensures r < n
    decreases k
  {
    if k < n then k else Ring(k - n, n)
  }

  lemma Remainder(k: nat, n: nat, q: nat, r: nat)
    requires n > 0 && r < n && k == n * q + r
    ensures k % n == r
  {
    var d := k / n - q;
    assert k == n * (k / n) + k % n;
    assert n * d == r - k % n;
  }

  lemma {:induction false} RingIsRemainder(k: nat, n: nat)
    requires n > 0
    ensures Ring(k, n) == k % n
    decreases k
  {
    if k >= n {
      RingIsRemainder(k - n, n);
      var q, r := (k - n) / n, (k - n) % n;
      assert k - n == n * q + r;
      assert k == n * (q + 1) + r;
      Remainder(k, n, q + 1, r);
    }
  }
}
