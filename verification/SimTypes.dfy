/** The values the fixed-step simulation works on, and its two pure timing functions. */
module SimTypes {
  import opened Prelude

  const FIXED_STEP_MS := 10
  const RETRY_MAX_ATTEMPTS := 3
  const RETRYABLE_STATUS_CODES: set<int> := {408, 425, 429, 500, 502, 503, 504}
  const RATE_WINDOW_STEPS := 100
  /** 50,000 transactions a second for one worker, over one step of 10 ms. */
  const READER_CREDIT_PER_WORKER_STEP := 500

  type Rate = r: real | r >= 0.0 witness 0.0

  datatype Config = Config(
    readerWorkers: Pos, senderWorkers: Pos, requestedTps: Rate, throttlerInstalled: bool,
    readBatchSize: Pos, httpTimeoutMs: real, targetDelayMs: real, targetErrorRatePercent: real)

  /** A partial configuration; a field that is None keeps its value. */
  datatype Patch = Patch(
    readerWorkers: Option<Pos>, senderWorkers: Option<Pos>, requestedTps: Option<Rate>,
    throttlerInstalled: Option<bool>, readBatchSize: Option<Pos>, httpTimeoutMs: Option<real>,
    targetDelayMs: Option<real>, targetErrorRatePercent: Option<real>)

  function Or<T>(patched: Option<T>, current: T): T {
    if patched.Some? then patched.value else current
  }

  function Merge(c: Config, p: Patch): Config {
    Config(Or(p.readerWorkers, c.readerWorkers), Or(p.senderWorkers, c.senderWorkers),
           Or(p.requestedTps, c.requestedTps), Or(p.throttlerInstalled, c.throttlerInstalled),
           Or(p.readBatchSize, c.readBatchSize), Or(p.httpTimeoutMs, c.httpTimeoutMs),
           Or(p.targetDelayMs, c.targetDelayMs), Or(p.targetErrorRatePercent, c.targetErrorRatePercent))
  }

  datatype Batch = Batch(sequence: nat, transactions: Pos)

  /** A duration as a caller may supply it: NonFinite stands for an infinity or NaN. */
  datatype Duration = Finite(ms: real) | NonFinite

  datatype OutcomeKind = Response(statusCode: int) | TimedOut | NetworkFailed

  datatype Outcome = Outcome(kind: OutcomeKind, latency: Duration)

  datatype AttemptContext = AttemptContext(
    batch: Batch, attempt: nat, startedAtMs: nat, targetDelayMs: real,
    targetErrorRatePercent: real, httpTimeoutMs: real)

  /** The caller's outcome source. The second argument counts the calls made so far, so that a source
      with state of its own is covered; None lets the simulation choose. */
  type OutcomeSource = (AttemptContext, nat) -> Option<Outcome>

  predicate Succeeded(kind: OutcomeKind) {
    kind.Response? && 200 <= kind.statusCode < 300
  }

  /** An attempt that ended without a response: the target may have taken the batch or not. */
  predicate Ambiguous(kind: OutcomeKind) {
    !kind.Response?
  }

  predicate Retryable(kind: OutcomeKind) {
    kind.Response? ==> kind.statusCode in RETRYABLE_STATUS_CODES
  }

  /** No further attempt follows a completion of this kind. */
  predicate Final(kind: OutcomeKind, attempt: nat) {
    Succeeded(kind) || !Retryable(kind) || attempt >= RETRY_MAX_ATTEMPTS
  }

  function Ceil(x: real): int {
    if x.Floor as real == x then x.Floor else x.Floor + 1
  }

  /** The least whole number of steps, in ms, that covers the duration. */
  function RoundedStepDuration(d: Duration): (ms: nat)
    ensures ms % FIXED_STEP_MS == 0
    ensures d.Finite? && d.ms <= 0.0 ==> ms == 0
    ensures d.Finite? && d.ms > 0.0 ==> ms as real >= d.ms && (ms - FIXED_STEP_MS) as real < d.ms
    ensures d.NonFinite? ==> ms == FIXED_STEP_MS
  {
    var finite := if d.Finite? then d.ms else 10.0;
    Ceil((if finite > 0.0 then finite else 0.0) / 10.0) * FIXED_STEP_MS
  }

  /** The jitter factors in tenths: 0.8 to 1.2. */
  const RETRY_JITTER_TENTHS: seq<nat> := [8, 9, 10, 11, 12]

  function NominalBackoffMs(retryNumber: nat): nat
    requires 1 <= retryNumber <= 2
  {
    if retryNumber == 1 then 250 else 500
  }

  /** The delay for a jitter index, rounded up to whole steps. */
  function JitteredDelayMs(retryNumber: nat, index: nat): nat
    requires 1 <= retryNumber <= 2 && index < 5
  {
    var first :=
      if index == 0 then 20 else if index == 1 then 23 else if index == 2 then 25 else if index == 3 then 28 else 30;
    var second := 40 + 5 * index;
    FIXED_STEP_MS * if retryNumber == 1 then first else second
  }

  /** The table is what multiplying by the factor and rounding up gives. */
  lemma DelayTable(retryNumber: nat, index: nat)
    requires 1 <= retryNumber <= 2 && index < 5
    ensures JitteredDelayMs(retryNumber, index)
         == RoundedStepDuration(Finite((NominalBackoffMs(retryNumber) * RETRY_JITTER_TENTHS[index]) as real / 10.0))
  {
  }

  function RetryDelayMs(batchSequence: nat, retryNumber: nat): (ms: nat)
    requires 1 <= retryNumber <= 2
    ensures ms % FIXED_STEP_MS == 0
    ensures 8 * NominalBackoffMs(retryNumber) <= 10 * ms <= 12 * NominalBackoffMs(retryNumber)
  {
    JitteredDelayMs(retryNumber, (batchSequence + retryNumber) % 5)
  }

  /** The jitter is spread evenly: of five batches in a row, no two get the same delay. */
  lemma DelaysSpread(batchSequence: nat, i: nat, j: nat, retryNumber: nat)
    requires i < j < 5 && 1 <= retryNumber <= 2
    ensures RetryDelayMs(batchSequence + i, retryNumber) != RetryDelayMs(batchSequence + j, retryNumber)
  {
    var k := batchSequence + retryNumber;
    assert (k + i) % 5 != (k + j) % 5;
  }

  /** Both delays together: the two jitter indexes of one batch are neighbours, so 300 + 600 never meet. */
  lemma BothDelays(batchSequence: nat)
    ensures RetryDelayMs(batchSequence, 1) + RetryDelayMs(batchSequence, 2) <= 880
  {
    var k := (batchSequence + 1) % 5;
    assert (batchSequence + 2) % 5 == (k + 1) % 5;
  }
}
