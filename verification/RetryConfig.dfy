/** The sender's retry schedule: validation, and the delay arithmetic on 64-bit integers. */
module RetryConfig {
  import opened Prelude

  newtype int64 = x: int | -0x8000_0000_0000_0000 <= x < 0x8000_0000_0000_0000

  const MAX_INT64: int64 := 0x7FFF_FFFF_FFFF_FFFF
  const MILLISECOND: int64 := 1_000_000
  const SECOND: int64 := 1_000_000_000
  const JITTER_PERCENT: int64 := 20

  /** Division as the source does it: toward zero. */
  function Quotient(a: int64, b: int64): int64
    requires b > 0
  {
    if a as int >= 0 then (a as int / b as int) as int64 else (-((-(a as int)) / b as int)) as int64
  }

  function Remainder64(a: int64, b: int64): int64
    requires 0 < b <= 100
  {
    (a as int - Quotient(a, b) as int * b as int) as int64
  }

  /** The largest delay, in ms, whose largest jitter still fits. */
  function MaxDelayMs(jitterPercent: int64): int64
    requires jitterPercent <= 100
  {
    var factor := if jitterPercent > 0 then MILLISECOND + Quotient(MILLISECOND * jitterPercent, 100) else MILLISECOND;
    Quotient(MAX_INT64, factor)
  }

  predicate Representable(delayMs: int64) { 0 < delayMs <= Quotient(MAX_INT64, MILLISECOND) }

  /** A product with a percentage stays within a hundred times the other factor. */
  lemma Scaled(x: int, percent: int)
    requires 0 <= x && -100 <= percent <= 100
    ensures -100 * x <= x * percent <= 100 * x
  {
  }

  /** The delay in ns. Every operation is on 64-bit integers, so verifying this body is also the proof
      that none of them overflows. */
  function RetryDuration(delayMs: int64, jitterPercent: int64): int64
    requires -100 <= jitterPercent <= 100
  {
    if !Representable(delayMs) then MAX_INT64
    else
      var base := delayMs * MILLISECOND;
      var whole, rest := Quotient(base, 100), Remainder64(base, 100);
      Scaled(whole as int, jitterPercent as int);
      Scaled(rest as int, jitterPercent as int);
      var adjustment := whole * jitterPercent + Quotient(rest * jitterPercent, 100);
      if adjustment > 0 && adjustment > MAX_INT64 - base then MAX_INT64
      else
        var delay := base + adjustment;
        if delay <= 0 then MILLISECOND else delay
  }

  /** The same delay without any limit on integers. */
  function Exact(delayMs: int, jitterPercent: int): int { delayMs * 10_000 * (100 + jitterPercent) }

  /** Saturated above, and at least one millisecond. */
  function Clamped(exact: int): int {
    if exact > MAX_INT64 as int then MAX_INT64 as int else if exact <= 0 then MILLISECOND as int else exact
  }

  /** For a representable delay the 64-bit arithmetic is exact, saturating, and floored. */
  lemma DurationIsExact(delayMs: int64, jitterPercent: int64)
    requires -100 <= jitterPercent <= 100 && Representable(delayMs)
    ensures RetryDuration(delayMs, jitterPercent) as int == Clamped(Exact(delayMs as int, jitterPercent as int))
  {
    var (d, j) := (delayMs as int, jitterPercent as int);
    var base := delayMs * MILLISECOND;
    assert base as int == 100 * (d * 10_000);
    assert Quotient(base, 100) as int == d * 10_000;
    assert Remainder64(base, 100) == 0;
    assert d * 10_000 * (100 + j) == 100 * (d * 10_000) + d * 10_000 * j;
  }

  /** It is the clamped exact value precisely when the guard lets the delay through, or when the exact
      value would saturate anyway. */
  lemma ExactlyWhenRepresentable(delayMs: int64, jitterPercent: int64)
    requires -100 <= jitterPercent <= 100
    ensures RetryDuration(delayMs, jitterPercent) as int == Clamped(Exact(delayMs as int, jitterPercent as int))
            <==> Representable(delayMs) || Exact(delayMs as int, jitterPercent as int) > MAX_INT64 as int
  {
    if Representable(delayMs) {
      DurationIsExact(delayMs, jitterPercent);
    } else {
      NeverTheMaximum(delayMs as int * (100 + jitterPercent as int));
      assert Exact(delayMs as int, jitterPercent as int) == 10_000 * (delayMs as int * (100 + jitterPercent as int));
    }
  }

  lemma NeverTheMaximum(n: int)
    ensures 10_000 * n != MAX_INT64 as int
  {
    assert (10_000 * n) % 10 == 0;
  }

  /** Beyond the guard the two differ: full negative jitter on the first delay that is not representable. */
  lemma GuardMatters()
    ensures RetryDuration(9_223_372_036_855, -100) == MAX_INT64
    ensures Clamped(Exact(9_223_372_036_855, -100)) == MILLISECOND as int
  {
    assert !Representable(9_223_372_036_855);
  }

  // ----- The configured schedule -----

  datatype Schedule = Schedule(startupOnly: bool, jitterPercent: int64, delaysMs: seq<int64>)

  datatype ConfigError =
    | WrongMutability
    | WrongJitter
    | NoDelays
    | NotPositive(index: nat)
    | TooLong(index: nat)
    | Decreasing(index: nat)

  /** What validation promises. */
  predicate ValidSchedule(s: Schedule) {
    && s.startupOnly && s.jitterPercent == JITTER_PERCENT && |s.delaysMs| > 0
    && (forall i :: 0 <= i < |s.delaysMs| ==> 0 < s.delaysMs[i] <= MaxDelayMs(JITTER_PERCENT))
    && (forall i, j :: 0 <= i < j < |s.delaysMs| ==> s.delaysMs[i] <= s.delaysMs[j])
  }

  /** The first bad entry is the one at index: those before it form a valid schedule. */
  predicate FirstBad(s: Schedule, index: nat) {
    && s.startupOnly && s.jitterPercent == JITTER_PERCENT && index < |s.delaysMs|
    && (index > 0 ==> ValidSchedule(s.(delaysMs := s.delaysMs[..index])))
  }

  /** What each error says. */
  predicate Explains(error: ConfigError, s: Schedule) {
    match error
    case WrongMutability => !s.startupOnly
    case WrongJitter => s.startupOnly && s.jitterPercent != JITTER_PERCENT
    case NoDelays => s.startupOnly && s.jitterPercent == JITTER_PERCENT && |s.delaysMs| == 0
    case NotPositive(i) => FirstBad(s, i) && s.delaysMs[i] <= 0
    case TooLong(i) => FirstBad(s, i) && s.delaysMs[i] > MaxDelayMs(JITTER_PERCENT)
    case Decreasing(i) =>
      FirstBad(s, i) && i > 0 && 0 < s.delaysMs[i] <= MaxDelayMs(JITTER_PERCENT) && s.delaysMs[i] < s.delaysMs[i - 1]
  }

  function IndexOf(error: ConfigError): int {
    if error.NotPositive? || error.TooLong? || error.Decreasing? then error.index else -1
  }

  /** A bad entry is not among those before the first bad one. */
  lemma BadIsFirst(s: Schedule, error: ConfigError, index: nat)
    requires Explains(error, s) && 0 <= IndexOf(error) < index <= |s.delaysMs|
    ensures !ValidSchedule(s.(delaysMs := s.delaysMs[..index]))
  {
    var (i, prefix) := (error.index, s.delaysMs[..index]);
    assert prefix[i] == s.delaysMs[i];
    assert i > 0 ==> prefix[i - 1] == s.delaysMs[i - 1];
  }

  /** No schedule has two explanations, and a valid one has none. */
  lemma OneExplanation(s: Schedule, e1: ConfigError, e2: ConfigError)
    requires Explains(e1, s)
    ensures !ValidSchedule(s) && (Explains(e2, s) ==> e1 == e2)
  {
    if Explains(e2, s) && IndexOf(e1) >= 0 && IndexOf(e2) >= 0 {
      if IndexOf(e1) < IndexOf(e2) {
        BadIsFirst(s, e1, IndexOf(e2));
      } else if IndexOf(e2) < IndexOf(e1) {
        BadIsFirst(s, e2, IndexOf(e1));
      }
    }
  }

  /** No error exactly for a valid schedule; an error is the one that explains it. */
  method Validate(s: Schedule) returns (error: Option<ConfigError>)
    ensures error.None? <==> ValidSchedule(s)
    ensures error.Some? ==> Explains(error.value, s)
  {
    if !s.startupOnly { return Some(WrongMutability); }
    if s.jitterPercent != JITTER_PERCENT { return Some(WrongJitter); }
    if |s.delaysMs| == 0 { return Some(NoDelays); }
    for index := 0 to |s.delaysMs|
      invariant forall i :: 0 <= i < index ==> 0 < s.delaysMs[i] <= MaxDelayMs(JITTER_PERCENT)
      invariant forall i, j :: 0 <= i < j < index ==> s.delaysMs[i] <= s.delaysMs[j]
    {
      var delay := s.delaysMs[index];
      if delay <= 0 { return Some(NotPositive(index)); }
      if delay > MaxDelayMs(s.jitterPercent) { return Some(TooLong(index)); }
      if index > 0 && delay < s.delaysMs[index - 1] { return Some(Decreasing(index)); }
    }
    return None;
  }

  /** The entry for an attempt: the schedule's last one for all later attempts. */
  function Entry(s: Schedule, attempt: Pos): int64
    requires |s.delaysMs| > 0
  {
    s.delaysMs[if attempt - 1 < |s.delaysMs| - 1 then attempt - 1 else |s.delaysMs| - 1]
  }

  /** The delay after an attempt; hash is the deterministic value of the batch and the attempt, reduced
      modulo 2 * jitter + 1. */
  function DelayAfter(s: Schedule, attempt: Pos, hash: nat): int64
    requires |s.delaysMs| > 0 && 0 <= s.jitterPercent <= 100 && hash < 2 * s.jitterPercent as int + 1
  {
    RetryDuration(Entry(s, attempt), hash as int64 - s.jitterPercent)
  }

  /** For every validated schedule and every attempt: positive, not saturated, exact, and within a fifth
      of the entry, which never decreases from one attempt to the next. */
  lemma DelayWithinAFifth(s: Schedule, attempt: Pos, hash: nat)
    requires ValidSchedule(s) && hash <= 40
    ensures var (d, e) := (DelayAfter(s, attempt, hash) as int, Entry(s, attempt) as int);
      && 0 < d < MAX_INT64 as int
      && d == e * 10_000 * (80 + hash)
      && 8 * (e * MILLISECOND as int) <= 10 * d <= 12 * (e * MILLISECOND as int)
      && Entry(s, attempt) <= Entry(s, attempt + 1)
    ensures if attempt <= |s.delaysMs| then Entry(s, attempt) == s.delaysMs[attempt - 1]
            else Entry(s, attempt) in s.delaysMs && forall d :: d in s.delaysMs ==> d <= Entry(s, attempt)
  {
    var e := Entry(s, attempt);
    assert 0 < e <= MaxDelayMs(JITTER_PERCENT);
    assert MaxDelayMs(JITTER_PERCENT) == 7_686_143_364_045;
    assert Quotient(MAX_INT64, MILLISECOND) == 9_223_372_036_854;
    DurationIsExact(e, hash as int64 - JITTER_PERCENT);
    Between(e as int * 10_000, 80, 80 + hash, 120);
  }

  lemma Between(x: int, lo: int, k: int, hi: int)
    requires x > 0 && lo <= k <= hi
    ensures x * lo <= x * k <= x * hi
  {
  }

  // ----- Ranges -----

  datatype Range = Range(min: int64, max: int64, step: int64)

  predicate Contains(r: Range, value: int64)
    requires r.step > 0
  {
    value >= r.min && value <= r.max && (value as int - r.min as int) % r.step as int == 0
  }

  /** The values a range accepts are those reached from its minimum in whole steps without passing its
      maximum. */
  lemma ContainsTheGrid(r: Range, value: int64)
    requires r.step > 0
    ensures Contains(r, value) <==> value <= r.max && exists k: nat :: Reached(r, k) == value as int
  {
    var (offset, step) := (value as int - r.min as int, r.step as int);
    if Contains(r, value) {
      assert Reached(r, offset / step) == value as int;
    }
    if k: nat :| Reached(r, k) == value as int {
      Remainder(offset, step, k, 0);
    }
  }

  /** The value k steps above the minimum. */
  function Reached(r: Range, k: nat): int { r.min as int + k * r.step as int }

  // ----- The configured batch size -----

  datatype BatchSizeError = NotPositiveRange | InitialOutside | PastPacingLimit

  /** A positive range with its initial value on it. */
  predicate PositiveRange(r: Range, initial: int64) {
    0 < r.min <= r.max && r.step > 0 && Contains(r, initial)
  }

  /** No error exactly when the largest batch's length times a second fits into 64 bits. */
  method ValidateBatchSize(r: Range, initial: int64) returns (error: Option<BatchSizeError>)
    ensures error.None? <==> PositiveRange(r, initial) && r.max as int * SECOND as int <= MAX_INT64 as int
    ensures error == Some(PastPacingLimit) ==> PositiveRange(r, initial)
    ensures error == Some(InitialOutside) ==> 0 < r.min <= r.max && r.step > 0 && !Contains(r, initial)
  {
    if r.min <= 0 || r.max < r.min || r.step <= 0 { return Some(NotPositiveRange); }
    if !Contains(r, initial) { return Some(InitialOutside); }
    if r.max > Quotient(MAX_INT64, SECOND) { return Some(PastPacingLimit); }
    return None;
  }
}
