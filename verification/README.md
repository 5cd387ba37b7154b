# Verification of the load generator's pipeline and of its simulator

The repository implements one pipeline twice: Reader, queue, Throttler, queue, Sender. The browser runs a
deterministic simulator of it (`frontend/src/model/simulation.ts`), the server runs it with goroutines
(`loadgen/`). This project models both in Dafny and proves what each of them promises.

## The simulator

`SimTypes`, `Channels`, `SenderWorkers` and `Simulation` define the simulator as functions on values: one
function for each method of the two classes, with the same branches, constants and order of effects.
`Channels.StatefulChannel` and `FixedStep.FixedStepSimulation` are the classes themselves, with the fields and
the loops of the source; each method is proved to do exactly what its function does, and every state they
pass through between public calls is proved to satisfy the invariant. No `throw` of the source is reachable:
each is a precondition or a guard that the proofs discharge (`FixedStep.AlwaysBegins` for the passes over the
workers).

The outcome of an attempt is an arbitrary function of the attempt's context and of the number of calls so
far, so a source with state of its own is covered; where it answers `None`, the simulation's own default
outcome is used. A duration may be infinite or NaN (`NonFinite`). Tokens are reals; the reader's credit is an
integer, which it always is in the source.

`PoolHistory` records every attempt's start and end. The history is auxiliary: no step reads it. All totals,
the ownership of batches and the ambiguity flags are proved equal to what the history says, and the history
is reset by `reset()`. `SimulationProofs` proves the invariant step by step. What follows for every sequence of
public calls and every outcome source is stated without the functions that do the work, in transactions, seconds,
status codes and milliseconds:

| module | what it states |
|---|---|
| `SimulationTheorems` | order, place, conservation, the ledgers of attempts, work conservation, the rate window |
| `TokenBucket` | the throttler admits at the requested rate, never faster, and never starves the next batch |
| `ReaderFlow` | the readers produce at their capacity, what is queued is admitted, and what a step reports is so |
| `RetryPolicy` | which attempts are followed by another one, and when |
| `AttemptOutcomes` | each attempt ends as the outcome source answered |
| `WorkerRotation` | the choice of a worker is fair |
| `ScaleDown`, `LatencyBound` | a scale-down is bounded |
| `Bookkeeping` | settings and capacities are the ones given last, times add up, a reset starts anew |

## The goroutine pipeline

| module | what it models |
|---|---|
| `RetryConfig` | retry schedule validation and the delay arithmetic, on 64-bit integers |
| `BatchSlicing` | how one file is read and cut into batches |
| `Throttler` | the throttler's loop, as a trace of receipts, updates, waits and sends |
| `ReaderPool`, `ReaderPoolActive`, `ReaderPoolProgress` | claiming files, scaling and leaving of reader workers |
| `SenderPool`, `SenderPoolSafety`, `SenderPoolTheorems`, `SenderPoolProgress`, `SenderPoolMethods` | the sender pool |
| `BatchDelivery` | the attempts of one batch, with pauses and waits |
| `PipelineRuntime` | starting, joining and closing |
| `ControlLoop`, `ControlEffects`, `ControlMethods` | the control event loop, and what each command brings about |

A pool, the runtime and the event loop are transition systems: a step is one critical section, one channel
operation, or one move of a goroutine between two of them, and any enabled step may come next. A theorem about
`Reached(...)` holds for every interleaving. The loops of the source are methods, proved against the functions
that the steps use. What comes from outside is a parameter: how much each read returns, whether a read fails,
when the context is cancelled, which branch a `select` takes, how long anything takes, how an attempt ends.

Safety is not all that is claimed. From every reached state there is a way on: the sender pool can still deliver
everything it has received and can be stopped, every file can still be claimed and the reader pool can end, a stop of
the runtime can be finished (`AllCanBeDelivered`, `StopCanEnd`, `EveryFileCanBeClaimed`, `PoolCanEnd`,
`StopNeverStuck`), and every handler of the event loop ends after at most four moves (`HandlersEnd`). That the
scheduler takes these ways is not claimed.

Two things that one would expect do not hold without a condition. For each there is a theorem that says exactly
when it fails, and a condition that a caller can keep to.

The sender pool can strand an accepted batch. `reconcile` takes draining marks back from every worker in the list,
also from one that has passed its last check and is about to remove itself (`loadgen/sender_pool.go:121-128`,
`291-303`, `325-343`); the intake may then hand it a batch that nobody will send.
`SenderPoolTheorems.RaiseStrandsExactly` states when a raise of the target is unsafe, in every state of the
context and the intake: while batches keep coming, if and only if some worker is between its last check and its
removal at that moment; once the context is cancelled, if and only if the intake is still at its receive or holds a
batch and the first worker that is not busy is such a worker; never, once the intake has returned.
`SenderPoolTheorems.UnsafeRaiseIsReachable` gives a run that gets there. `SenderPoolTheorems.NothingStranded` proves
that nothing is stranded in any run in which no raise meets such a worker, and
`SenderPoolTheorems.QuietRaisesAreCareful` that raising only while no worker drains is enough.

The number of reader workers that are not draining equals the target after every reconcile, but it can fall below
it later (the number of live workers never does): a worker told to leave and then kept may have left its loop
already, and it is not replaced while another one drains (`loadgen/reader_pool.go:139-144`, `163-166`).
`ReaderPoolActive.FallsShortExactly` states that this can happen, without a further reconcile or a cancellation, if
and only if the reconcile kept a worker that had left its loop while it marked others;
`ReaderPoolActive.KeptWorkersCanBeShort` gives a run, and `ReaderPoolActive.PatientStaysExact` proves that
reconciling only while no worker drains keeps the number exact until cancellation.

## Model

| member | source | states |
|---|---|---|
| SimTypes.RoundedStepDuration | frontend/src/model/simulation.ts:237-240 | the least whole number of 10 ms steps covering the duration; 0 for a negative one; one step for an infinity or NaN |
| SimTypes.DelayTable | frontend/src/model/simulation.ts:242-252 | each delay is 250 or 500 ms times its jitter factor, rounded up to whole steps |
| SimTypes.RetryDelayMs | frontend/src/model/simulation.ts:242-252 | whole steps, and within a fifth of the nominal delay, for every batch and both retries |
| SimTypes.DelaysSpread | frontend/src/model/simulation.ts:248-250 | of five batches in a row no two get the same delay |
| SimTypes.BothDelays | frontend/src/model/simulation.ts:242-252 | the two delays of one batch add up to at most 880 ms |
| Channels.SendKeeps | frontend/src/model/simulation.ts:326-333 | a send keeps the channel's books: sent minus received is what is buffered, in batches and in transactions |
| Channels.ReceiveKeeps | frontend/src/model/simulation.ts:335-341 | a receive keeps them, and applies a pending capacity that now fits |
| Channels.PendingCapacityTakesEffect | frontend/src/model/simulation.ts:436-445 | a smaller capacity takes effect with the first receive after which the queue fits it, and no batch is dropped for it |
| Channels.RequestKeeps | frontend/src/model/simulation.ts:301-320 | a request changes capacities only, never what is queued, and keeps the books |
| Channels.StatefulChannel.constructor | frontend/src/model/simulation.ts:270-276 | a new channel is empty, with the given capacity |
| Channels.StatefulChannel.BufferedTransactions | frontend/src/model/simulation.ts:282-287 | the sum over the queue, which the invariant equates with sent minus received |
| Channels.StatefulChannel.RequestCapacity | frontend/src/model/simulation.ts:301-320 | applied at once if the queue fits, else kept as preview and pending; false when nothing changes |
| Channels.StatefulChannel.Send | frontend/src/model/simulation.ts:326-333 | the batch joins the back and is counted, or nothing changes when there is no room |
| Channels.StatefulChannel.Receive | frontend/src/model/simulation.ts:335-341 | the front batch is returned and counted, or none when empty |
| Channels.StatefulChannel.Handoff | frontend/src/model/simulation.ts:343-348 | counted in and out, and as a hand-off, without passing through the queue |
| Channels.StatefulChannel.ObserveBlocked | frontend/src/model/simulation.ts:350-360 | the blocked time restarts when the sender progressed and is cleared when it is not blocked |
| Channels.StatefulChannel.ResetRuntime | frontend/src/model/simulation.ts:403-418 | empties queue and counters and applies a pending capacity |
| SenderWorkers.FailuresAreTheirShare | frontend/src/model/simulation.ts:1066-1071 | of n requests answered by default, exactly the configured percentage fails, rounded down with the credit carried over |
| SenderWorkers.DefaultsAreTheirShare | frontend/src/model/simulation.ts:1049-1071 | over any series of default answers, a target too slow for the timeout times out after exactly the timeout, any other answers after its delay and 5 ms, and the 503s are the configured percentage of the answers |
| SenderWorkers.ActivePrefix | frontend/src/model/simulation.ts:1108-1118 | removing the retiring workers leaves exactly the first target workers |
| SenderWorkers.NoneIdleAnywhere | frontend/src/model/simulation.ts:1073-1082 | the round-robin search finds no worker only if no worker is idle and staying |
| WorkerRotation.ChoosesFirst | frontend/src/model/simulation.ts:1073-1082 | the worker chosen is the first available one from the cursor on, going round |
| WorkerRotation.RotationIsFair | frontend/src/model/simulation.ts:1073-1082 | between two choices of one worker every other worker that was available all the time since has been chosen too |
| PoolHistory.MoveKeeps | frontend/src/model/simulation.ts:737-839 | starting, retrying or completing one attempt keeps ownership, the attempt limit and all four ledgers of the history |
| PoolHistory.OneOwner | frontend/src/model/simulation.ts:869-898 | no two workers own the same batch |
| PoolProofs.AcceptKeeps | frontend/src/model/simulation.ts:869-898 | giving the next batch to an idle worker keeps the pool's invariant and adds its first attempt |
| PoolProofs.RetryKeeps | frontend/src/model/simulation.ts:841-851 | starting a retry keeps the invariant and changes no batch's place |
| PoolProofs.CompletionKeeps | frontend/src/model/simulation.ts:737-798 | completing an attempt, whatever its outcome, keeps the invariant |
| PoolProofs.CompleteDueKeeps | frontend/src/model/simulation.ts:725-735 | so does the pass over all workers |
| PoolProofs.StartDueRetriesKeeps | frontend/src/model/simulation.ts:841-851 | so does the pass that starts due retries |
| PoolProofs.FinalizeKeeps | frontend/src/model/simulation.ts:1108-1118 | removing idle retiring workers loses no batch and no count |
| PoolProofs.RequestCountKeeps | frontend/src/model/simulation.ts:1084-1106 | changing the number of workers keeps the invariant, with exactly the workers from the target on retiring |
| SimulationProofs.DrainKeeps | frontend/src/model/simulation.ts:869-879 | moving queued batches to workers keeps order, counts and the bucket |
| SimulationProofs.FlushKeeps | frontend/src/model/simulation.ts:881-898 | so does flushing the held batch, through the queue or by hand-over |
| SimulationProofs.AdmitKeeps | frontend/src/model/simulation.ts:910-933 | so does admission, and each admitted transaction is paid for with a token |
| SimulationProofs.ProduceKeeps | frontend/src/model/simulation.ts:935-1008 | so does production, with a queue or by hand-off |
| SimulationProofs.StepKeeps | frontend/src/model/simulation.ts:510-539 | a step keeps the whole invariant, for every outcome source |
| SimulationProofs.UpdateKeeps | frontend/src/model/simulation.ts:541-557 | so does a configuration update |
| SimulationProofs.RequestCapacityKeeps | frontend/src/model/simulation.ts:559-561 | so does a capacity request |
| SimulationProofs.ResetKeeps | frontend/src/model/simulation.ts:567-603 | so does a reset, which starts a new history |
| SimulationProofs.InitialKeeps | frontend/src/model/simulation.ts:487-508 | a new simulation satisfies the invariant |
| SimulationProofs.RunKeeps | frontend/src/model/simulation.ts:510-603 | so does every state after any sequence of public calls |
| SimulationTheorems.GlobalFifo | frontend/src/model/simulation.ts:869-1008 | batches in the order of first attempts, then the sender queue, the held batch and the reader queue are exactly numbers 0, 1, ... in order |
| SimulationTheorems.ExactlyOnce | frontend/src/model/simulation.ts:737-976 | every batch created is in exactly one place or has exactly one final outcome; one never created is nowhere; no two workers own one batch |
| SimulationTheorems.Conservation | frontend/src/model/simulation.ts:869-976 | transactions sent by the reader are buffered, held, owned, successful or terminally failed |
| SimulationTheorems.ThreeEach | frontend/src/model/simulation.ts:793-802 | no batch is attempted more than three times, so n batches make at most 3n attempts |
| SimulationTheorems.AttemptLedgerHolds | frontend/src/model/simulation.ts:737-851 | started, completed, in flight, retried, in backoff, rejected, timed out, failed terminally: all the equations between these counters |
| SimulationTheorems.CountersMatchHistory | frontend/src/model/simulation.ts:780-839 | each counter is the sum over the history that it stands for; the latest status and outcome are those of the attempt that ended last; a worker's ambiguity flag is true exactly when an earlier attempt of its batch ended without a response |
| SimulationTheorems.WorkConserving | frontend/src/model/simulation.ts:510-539 | after a step, a queued batch means no worker is free, and a held one that the sender queue is exactly full |
| ReaderFlow.QueueIsServed | frontend/src/model/simulation.ts:910-933 | a batch queued both when a step begins and when it ends is behind a held batch or behind a head that the tokens do not cover, and then the step counts as limited |
| ReaderFlow.StepProduces | frontend/src/model/simulation.ts:935-1008 | a step earns each reader worker 500 transactions (50,000 a second) up to the cap, turns them into sent transactions one for one, and leaves a batch's worth unspent only when it reports the reader as blocked, by a full queue, a held batch or missing tokens |
| ReaderFlow.ReaderRateBound | frontend/src/model/simulation.ts:693-948 | over any run without a reset, sent transactions and credit grow by at most 500 for each step and reader worker in force |
| ReaderFlow.ReaderRateIsExact | frontend/src/model/simulation.ts:935-1008 | over any run in which no step reports the reader as blocked, and the cap leaves room, they grow by exactly that |
| ReaderFlow.StepReports | frontend/src/model/simulation.ts:510-539 | a step reports the sender queue as blocked exactly when it ends with a batch held, and counts as limited only if the tokens do not cover the next batch |
| RetryPolicy.RetriedExactlyWhenTransient | frontend/src/model/simulation.ts:12-20 | an ended attempt is followed by the batch's next one, or awaits it in backoff, if and only if it was one of the first two and ended without a response or with 408, 425, 429, 500, 502, 503 or 504 |
| RetryPolicy.RetriesAreCalledFor | frontend/src/model/simulation.ts:767-812 | no attempt after the first starts without such an end of the one before |
| RetryPolicy.GivenUpAreCounted | frontend/src/model/simulation.ts:814-828 | terminal batches are exactly the other ends without a status from 200 to 299 |
| RetryPolicy.StepMovesWorker | frontend/src/model/simulation.ts:725-851 | in a step each worker keeps its batch until its time has come; a due attempt ends, with a pause of 200 to 300 or 400 to 600 ms if it calls for another one; a due retry starts |
| AttemptOutcomes.OutcomesAreAnswers | frontend/src/model/simulation.ts:1010-1047 | every attempt in flight has the outcome that the source answered for its batch, number, start and settings, or else the target's own, and lasts its latency in whole steps |
| TokenBucket.StepPays | frontend/src/model/simulation.ts:853-976 | a step's admitted transactions are exactly the tokens it used |
| TokenBucket.RateBound | frontend/src/model/simulation.ts:541-976 | over any run with the throttler in, admitted transactions and tokens left are at most the tokens at the start and, for each step, a hundredth of the rate per second then requested; tokens are never negative |
| TokenBucket.BurstBound | frontend/src/model/simulation.ts:853-976 | over any run at one configuration, with other calls in between, n steps admit at most one batch and n hundredths of the transactions requested per second |
| TokenBucket.HeadIsAdmitted | frontend/src/model/simulation.ts:853-933 | no batch is too large for the bucket: once the tokens saved and a hundredth of the rate per second for each step cover the head of the queue it has been admitted, unless a batch was held back on the way; other settings may be updated meanwhile |
| TokenBucket.ZeroRateAdmitsNothing | frontend/src/model/simulation.ts:541-976 | a throttler at rate zero admits nothing, from any state and over any calls that leave it in and at zero |
| SimulationTheorems.WindowAgrees | frontend/src/model/simulation.ts:537-538 | the newest k entries of the window add up to the growth of every running total over the last k steps |
| SimulationTheorems.RatesAreGrowth | frontend/src/model/simulation.ts:420-434 | after a clear, or after a hundred steps, the aggregate is exactly the totals' growth over the window |
| SimulationTheorems.ReachedRatesAreGrowth | frontend/src/model/simulation.ts:537-565 | the window never holds more than a hundred steps, and none after a clear or a reset; and so the same from every reachable state on |
| Bookkeeping.ConfigIsLastGiven | frontend/src/model/simulation.ts:541-557 | each of the eight settings has the value that an update gave for it last, or the first one |
| Bookkeeping.CapacityIsLastAsked | frontend/src/model/simulation.ts:301-320 | each queue has the capacity asked for it last as soon as what it holds fits; until then that capacity is pending |
| Bookkeeping.TimesAddUp | frontend/src/model/simulation.ts:350-360 | the elapsed time is 10 ms for each step since the reset; each blocked time 10 ms for each of them that reported the queue as blocked |
| Bookkeeping.BlockedForIsRecent | frontend/src/model/simulation.ts:350-360 | the blocked-for time counts the steps blocked in a row, from the last one in which something was sent |
| Bookkeeping.ResetStartsAnew | frontend/src/model/simulation.ts:567-603 | a reset leaves what a new simulation has, with the settings and capacities in force, but for the call count and the last step's activity |
| ScaleDown.StepLowers | frontend/src/model/simulation.ts:725-851 | a step brings every retiring worker no later than its deadline, or all of them are gone |
| ScaleDown.BoundedScaleDown | frontend/src/model/simulation.ts:1073-1118 | once the target is left alone, with latencies of at most L, steps worth 3 max(L, 10) + 880 ms later no worker retires and the pool has the target size, whatever the outcomes |
| ScaleDown.ReachedTimely | frontend/src/model/simulation.ts:725-851 | every reachable state satisfies what BoundedScaleDown asks of its start |
| LatencyBound.QuickFromSource | frontend/src/model/simulation.ts:1010-1064 | what BoundedScaleDown asks of a run's states follows from the outcome source and the configurations: every supplied or default latency rounds to at most L |
| LatencyBound.ScaleDownFromStart | frontend/src/model/simulation.ts:487-603 | the bound on a scale-down, from any calls on a new simulation, under conditions that can be checked before any call |
| ScaleDown.RetiringAreTheTail | frontend/src/model/simulation.ts:1084-1118 | at all times the retiring workers are exactly those at positions from the target on |
| FixedStep.DrainIgnoresHeld | frontend/src/model/simulation.ts:881-898 | draining does not depend on the held batch, so clearing it after the drain, as the source does, is the same as before |
| FixedStep.AlwaysBegins | frontend/src/model/simulation.ts:741-745 | in every state of the invariant no guard of the passes throws, and the scale-down leaves a worker |
| FixedStep.FixedStepSimulation.constructor | frontend/src/model/simulation.ts:487-508 | the object starts in the initial state |
| FixedStep.FixedStepSimulation.StartAttempt | frontend/src/model/simulation.ts:1010-1047 | fields and totals after starting an attempt, first or retry |
| FixedStep.FixedStepSimulation.ChooseOutcome | frontend/src/model/simulation.ts:1025-1026 | the source's answer, or the default outcome |
| FixedStep.FixedStepSimulation.DefaultAttemptOutcome | frontend/src/model/simulation.ts:1049-1064 | a timeout when the target is too slow, else a response |
| FixedStep.FixedStepSimulation.NextRequestFails | frontend/src/model/simulation.ts:1066-1071 | failures accumulate by percentage, one for each full hundred |
| FixedStep.FixedStepSimulation.CompleteAttempt | frontend/src/model/simulation.ts:737-798 | the branches on the outcome: delivered, retried or given up; which is which, by status code, is RetriedExactlyWhenTransient |
| FixedStep.FixedStepSimulation.ScheduleRetry | frontend/src/model/simulation.ts:800-812 | backoff until the delay of the batch and the retry |
| FixedStep.FixedStepSimulation.FailTerminally | frontend/src/model/simulation.ts:814-828 | the terminal totals, and the worker free again |
| FixedStep.FixedStepSimulation.ReleaseWorker | frontend/src/model/simulation.ts:830-839 | an idle worker with nothing left of its batch |
| FixedStep.FixedStepSimulation.CompleteDueAttempts | frontend/src/model/simulation.ts:725-735 | the loop is the pass over all workers in order |
| FixedStep.FixedStepSimulation.StartDueRetries | frontend/src/model/simulation.ts:841-851 | the loop is the pass that starts due retries |
| FixedStep.FixedStepSimulation.NextIdleWorker | frontend/src/model/simulation.ts:1073-1082 | the first idle, staying worker from the cursor on, going round; the cursor moves behind it |
| FixedStep.FixedStepSimulation.RequestSenderWorkerCount | frontend/src/model/simulation.ts:1084-1106 | marks, adds or removes workers as the target says |
| FixedStep.FixedStepSimulation.FinalizeSenderScaleDown | frontend/src/model/simulation.ts:1108-1118 | removes all retiring workers once all of them are idle, and none before |
| FixedStep.FixedStepSimulation.RefillThrottlerTokens | frontend/src/model/simulation.ts:853-867 | the refill, capped by the bucket; what that is per second is RateBound and HeadIsAdmitted |
| FixedStep.FixedStepSimulation.DrainSenderChannel | frontend/src/model/simulation.ts:869-879 | the loop is the drain |
| FixedStep.FixedStepSimulation.FlushThrottledBatch | frontend/src/model/simulation.ts:881-898 | true exactly when the held batch stays |
| FixedStep.FixedStepSimulation.CreatePipelineBatch | frontend/src/model/simulation.ts:900-908 | the next number, and the counter moved on |
| FixedStep.FixedStepSimulation.ReceiveReaderChannel | frontend/src/model/simulation.ts:910-933 | the loop is the admission, with its two results; that nothing admissible is left is QueueIsServed |
| FixedStep.FixedStepSimulation.ProduceReaderBatches | frontend/src/model/simulation.ts:935-1008 | the loop is the production, with its three results; how much that is per step is StepProduces |
| FixedStep.FixedStepSimulation.AdvanceStep | frontend/src/model/simulation.ts:510-539 | the object after a step is the model's state after a step, and the invariant holds |
| FixedStep.FixedStepSimulation.UpdateConfig | frontend/src/model/simulation.ts:541-557 | the same for a configuration update |
| FixedStep.FixedStepSimulation.RequestChannelCapacity | frontend/src/model/simulation.ts:559-561 | the same for a capacity request, and whether it changed anything |
| FixedStep.FixedStepSimulation.ClearInstantaneousTelemetry | frontend/src/model/simulation.ts:563-565 | empties the window and nothing else |
| FixedStep.FixedStepSimulation.Reset | frontend/src/model/simulation.ts:567-603 | the same for a reset |
| FixedStep.FixedStepSimulation.AggregateActivity | frontend/src/model/simulation.ts:1120-1143 | the loop is the sum of the window that RatesAreGrowth speaks about |
| RetryConfig.DurationIsExact | loadgen/config.go:288-302 | for a representable delay the 64-bit arithmetic equals delay * 10^4 * (100 + jitter) on unbounded integers, saturated at the maximum and floored to 1 ms; no operation overflows |
| RetryConfig.ExactlyWhenRepresentable | loadgen/config.go:288-291 | it equals that value if and only if the guard lets the delay through or the value saturates anyway |
| RetryConfig.GuardMatters | loadgen/config.go:288-291 | a delay beyond the guard for which the two differ |
| RetryConfig.Validate | loadgen/config.go:250-272 | no error exactly for a valid schedule; an error is the one that explains it: which setting is wrong, or what is wrong with the entry at the index, with the entries before it valid |
| RetryConfig.OneExplanation | loadgen/config.go:250-272 | a valid schedule has no explanation and an invalid one only one, so the error returned is the first bad entry's |
| RetryConfig.ValidateBatchSize | loadgen/config.go:182-196 | the batch size is accepted exactly when its range is positive with the initial value on it and the largest batch times a second fits into 64 bits |
| Throttler.ValidatedBatchesFit | loadgen/config.go:194-196 | every batch of an accepted size has a length whose pacing product does not overflow |
| RetryConfig.DelayWithinAFifth | loadgen/config.go:274-286 | for every valid schedule, attempt and hash: positive, unsaturated, exact, within a fifth of the entry; attempt k uses entry k, later attempts the last and largest; entries never decrease |
| RetryConfig.ContainsTheGrid | loadgen/config.go:406-408 | a range accepts exactly the values reached from its minimum in whole steps without passing its maximum |
| BatchSlicing.SlicesCover | loadgen/reader_pool.go:343-363 | the slices of a file concatenate to its rows in order, all full except a last one that may be short but is not empty |
| BatchSlicing.FirstSlices | loadgen/reader_pool.go:343-363 | any full batches that concatenate to a prefix of the rows are the file's first slices: the lengths of the reads do not matter |
| BatchSlicing.FileReader.SendBatch | loadgen/reader_pool.go:365-383 | sent once, or not at all and then only because of cancellation; never left marked as blocked |
| BatchSlicing.FileReader.AppendRows | loadgen/reader_pool.go:343-363 | batches sent, and the batch in hand, are the rows so far; after cancellation a prefix of them |
| BatchSlicing.FileReader.ReadFile | loadgen/reader_pool.go:241-314 | batches sent are a prefix of the file's slices; all of them without error and cancellation; after a read error all that the rows read could fill; every read asks for at least one row |
| Throttler.IntervalBounds | loadgen/throttler.go:67 | the interval is the batch's time at the rate, rounded down to whole ns |
| Throttler.ForwardedInOrder | loadgen/throttler.go:22-45 | every batch received is forwarded once and in order, except the one in hand |
| Throttler.PacedSend | loadgen/throttler.go:66-82 | a send under an installed rate comes at least its interval after the receipt or update that set its clock |
| Throttler.SpacedSends | loadgen/throttler.go:66-82 | and so after every earlier send |
| Throttler.WindowBound | loadgen/throttler.go:47-112 | over any stretch at one installed rate, the transactions sent fit the time passed plus one ns for each batch |
| Throttler.SendWindow | loadgen/throttler.go:47-112 | between two sends n batches apart, at most (T + n) * tps / 10^9 transactions |
| Throttler.Loop.constructor | loadgen/throttler.go:22-27 | starts with the initial settings and nothing in hand |
| Throttler.Loop.ForwardBatch | loadgen/throttler.go:47-112 | sends the batch, or keeps it only when cancelled; never early, never at rate zero, never waiting for time or a rate without need |
| Throttler.Loop.Run | loadgen/throttler.go:22-45 | every batch taken from the reader channel is in the trace in order; it ends only when cancelled or when the channel is closed and empty |
| ReaderPool.ReconcileIsExact | loadgen/reader_pool.go:124-146 | exactly the desired number does not drain; no busy worker drains while an idle one stays; within a kind the earliest drain first |
| ReaderPool.OneOwnerEach | loadgen/reader_pool.go:157-239 | in every interleaving each active file has exactly one owner, and until cancellation there are at least the desired number of workers |
| ReaderPool.VisitsAreHonest | loadgen/reader_pool.go:219-239 | a claim passes a file over only because it is active, and takes one that is not |
| ReaderPool.FairRotation | loadgen/reader_pool.go:219-239 | between two claims of one file every other file was claimed or seen active |
| ReaderPoolActive.FallsShortExactly | loadgen/reader_pool.go:124-184 | after a reconcile the workers not draining can fall below the target, without another reconcile or a cancellation, if and only if it kept a worker that had left its loop while it marked others |
| ReaderPoolActive.PatientStaysExact | loadgen/reader_pool.go:124-184 | reconciling only while nobody drains keeps the workers not draining at exactly the target until cancellation |
| ReaderPoolActive.KeptWorkersCanBeShort | loadgen/reader_pool.go:157-184 | a run after which the only worker left is draining, with one desired |
| ReaderPool.StepKeeps | loadgen/reader_pool.go:124-239 | every critical section keeps ownership, rotation and the number of workers |
| ReaderPool.AtIsRemainder | loadgen/reader_pool.go:226-228 | the cursor plus the offset, modulo the number of files |
| ReaderPool.IdleFirst | loadgen/reader_pool.go:131-138 | the stable order: idle workers first, otherwise start order |
| ReaderPool.SourcePool.ReconcileTo | loadgen/reader_pool.go:124-146 | the sort, marking and starting loops give the model's reconcile |
| ReaderPool.SourcePool.ClaimNextFile | loadgen/reader_pool.go:219-239 | takes a free file for the worker, or none: it must leave, or every file is active |
| ReaderPool.SourcePool.ReleaseFileLocked | loadgen/reader_pool.go:197-201 | the file and the worker are free again |
| ReaderPool.SourcePool.WorkerExits | loadgen/reader_pool.go:160-168 | the worker is removed and, when too few are left and the pool runs, replaced |
| ReaderPoolProgress.EveryFileCanBeClaimed | loadgen/reader_pool.go:157-239 | from every reached state of a pool that runs on, every file can still be claimed without the control goroutine |
| ReaderPoolProgress.PoolCanEnd | loadgen/reader_pool.go:157-217 | from every reached state, once cancelled, the pool can end with no worker and no active file |
| SenderPoolSafety.StepKeeps | loadgen/sender_pool.go:98-343 | every step keeps: each received batch in one place, free mailboxes, the ledger, and enough active workers |
| SenderPoolSafety.DrainFromBackIs | loadgen/sender_pool.go:112-120 | only marks are set, and later workers are marked before earlier ones |
| SenderPoolSafety.ReconciledWorkers | loadgen/sender_pool.go:98-146 | what a reconcile leaves: every old worker but for marks and a token, then new ones; how many are active; no mark taken back by a scale-down, all by a scale-up |
| SenderPoolTheorems.EveryBatchOnce | loadgen/sender_pool.go:230-343 | in every interleaving each received batch is at the intake, with one live worker, ended once, or lost with a removed worker; delivered transactions are counted once each |
| SenderPoolTheorems.AbandonedOnlyWhenCancelled | loadgen/sender_pool.go:314-317 | a batch ends undelivered only after cancellation |
| SenderPoolTheorems.HandOverNeverBlocks | loadgen/sender_pool.go:257-265 | the send into the mailbox, under the mutex, finds it empty; the worker is the first free one |
| SenderPoolTheorems.EnoughAndAwake | loadgen/sender_pool.go:98-173 | until stop at least the desired number is active; a waiting worker that has to leave has a wake-up token |
| SenderPoolTheorems.ActiveAfterReconcile | loadgen/sender_pool.go:98-146 | a scale-down leaves exactly the desired number active; a scale-up may leave more |
| SenderPoolTheorems.GateMoves | loadgen/sender_pool.go:175-197 | a pause closes the gate and wakes every worker, unless closed or stopping already; a resume opens it |
| SenderPoolTheorems.NothingStranded | loadgen/sender_pool.go:230-343 | when no raise meets a worker past its last check, every received batch is in the intake's hand, owned by exactly one live worker, or ended |
| SenderPoolTheorems.JoinedStop | loadgen/sender_pool.go:152-173 | after a joined stop every received batch was delivered or abandoned, exactly once |
| SenderPoolTheorems.QuietRaisesAreCareful | loadgen/sender_pool.go:98-150 | raising only while no worker drains is enough |
| SenderPoolTheorems.RaiseStrandsExactly | loadgen/sender_pool.go:121-128 | a raise can strand a batch if and only if Endangers holds: some worker past its last check while batches keep coming; with the context cancelled, such a worker first in line for the one batch still to be handed over; never with the intake gone |
| SenderPoolTheorems.UnsafeRaiseIsReachable | loadgen/sender_pool.go:284-343 | such a raise can happen |
| SenderPoolProgress.AllCanBeDelivered | loadgen/sender_pool.go:230-343 | from every state of a careful run that is not cancelled, all batches received can still be delivered without the control goroutine |
| SenderPoolProgress.StopCanEnd | loadgen/sender_pool.go:152-173 | from every state of a careful run outside a reconcile, the pool can be stopped, with the intake returned and every worker gone |
| SenderPoolMethods.OrderKept | loadgen/sender_pool.go:219-228 | workers stay in the order in which they were started |
| SenderPoolMethods.StatefulSenderPool.constructor | loadgen/sender_pool.go:66-96 | a started pool is the model's initial one |
| SenderPoolMethods.StatefulSenderPool.AvailableWorkerLocked | loadgen/sender_pool.go:271-282 | the first worker neither draining nor busy |
| SenderPoolMethods.StatefulSenderPool.ActiveWorkerCountLocked | loadgen/sender_pool.go:345-353 | the number of workers not draining |
| SenderPoolMethods.StatefulSenderPool.ReconcileTo | loadgen/sender_pool.go:98-146 | the marking, waking and starting loops give the model's reconcile, with the idle draining workers to wait for |
| SenderPoolMethods.StatefulSenderPool.WorkerExited | loadgen/sender_pool.go:325-343 | removes that worker and starts another exactly when it was not marked and too few are active |
| SenderPoolMethods.StatefulSenderPool.HandBatch | loadgen/sender_pool.go:257-266 | hands the batch to the first free worker, or waits |
| BatchDelivery.Delivery.constructor | loadgen/sender_pool.go:355-380 | delays are those of the schedule |
| BatchDelivery.Delivery.WaitUntilRunnable | loadgen/sender_pool.go:199-217 | true only when the last look found the pool neither paused nor cancelled; false only when cancelled |
| BatchDelivery.Delivery.WaitBackoff | loadgen/sender_pool.go:408-428 | true only after the whole delay, however often it is woken; false only when cancelled |
| BatchDelivery.Delivery.ProcessBatch | loadgen/sender_pool.go:355-380 | attempts are numbered from one, each after a failure and no sooner than its delay; true exactly with a last success, false only when cancelled |
| BatchDelivery.Delivery.FinishAcceptedBatch | loadgen/sender_pool.go:314-323 | the transactions are counted once if delivered, else not at all |
| BatchDelivery.DelaysAddUp | loadgen/sender_pool.go:355-380 | attempt n + 1 begins at least four fifths of the first n schedule entries after the first attempt |
| PipelineRuntime.StepKeeps | loadgen/pipeline_runtime.go:28-122 | every step of the control goroutine or of a run's goroutines keeps the join-before-close discipline |
| PipelineRuntime.NeverPanics | loadgen/pipeline_runtime.go:97-115 | in no interleaving is a closed channel sent on or closed again |
| PipelineRuntime.ClosedHasNoSender | loadgen/pipeline_runtime.go:97-115 | a closed reader channel has no reader worker left, now or later; a closed sender channel no throttler |
| PipelineRuntime.StartBuilds | loadgen/pipeline_runtime.go:28-74 | a start that does not fail ends with both channels open, a context, a reader pool and a throttler, whatever the goroutines do meanwhile |
| PipelineRuntime.StartsGoroutines | loadgen/pipeline_runtime.go:28-134 | the readers and senders asked for are the ones that start, on the run under way |
| PipelineRuntime.QuietWhenIdle | loadgen/pipeline_runtime.go:48-60 | with nothing set, also after a failed start, every run is joined, its context cancelled and each channel closed exactly once |
| PipelineRuntime.StopClears | loadgen/pipeline_runtime.go:97-122 | the end of stop leaves nothing set and every run joined |
| PipelineRuntime.SecondStopClosesNothing | loadgen/pipeline_runtime.go:97-122 | a stop with nothing set goes through all its steps and changes nothing |
| PipelineRuntime.StopNeverStuck | loadgen/pipeline_runtime.go:89-122 | from every reached state inside a stop, the goroutines have steps that let it end with nothing set |
| PipelineRuntime.Channel.CloseAndDrain | loadgen/pipeline_runtime.go:155-177 | the channel is closed and empty |
| ControlLoop.StepKeeps | loadgen/control_state.go:81-241 | every phase of every handler, every delivery and every passing of time keeps the invariant |
| ControlLoop.CountsNeverLost | loadgen/control_state.go:385-393 | at every moment Prometheus total plus counter is all ever delivered, and run total plus counter what was delivered since the reset |
| ControlLoop.NothingDiscarded | loadgen/control_state.go:358-383 | storing zero finds zero; after the loop's exit everything delivered is accounted for |
| ControlLoop.LifecycleMatchesResources | loadgen/control_state.go:81-241 | at the select: running or paused exactly when the pipeline exists and follows the controls (its reader workers while the reader pool has not stopped itself, its rate while the throttler has not stopped); idle or faulted exactly when nothing exists; an error exactly when faulted; resetting never; controls always allowed by the configuration |
| ControlLoop.ElapsedIsRunningTime | loadgen/control_state.go:408-425 | the elapsed time is the time the run's clock was on since the reset, also in the status kept while paused |
| ControlLoop.ResetIsClean | loadgen/control_state.go:140-156 | a finished reset leaves no pipeline, no error, no progress, and loses no count |
| ControlEffects.RunTakesEffect | loadgen/control_state.go:92-128 | from idle a run ends running, with a pipeline told exactly the controls, its gate open and the clock on, or faulted with an error and no pipeline if the source does not open; from paused it ends running with the gate open, the clock on and everything counted; otherwise nothing happens; whatever comes between the phases |
| ControlEffects.PauseTakesEffect | loadgen/control_state.go:129-139 | a pause of a running loop ends paused, with the gate closed, the clock off, the interval saved and the status kept |
| ControlEffects.ResetTakesEffect | loadgen/control_state.go:140-156 | a reset is rejected while running, and ends idle otherwise, with no pipeline, no progress and no error |
| ControlEffects.ErrorTakesEffect | loadgen/control_state.go:233-241 | a source error ends faulted, with the error, no pipeline, the clock off and everything counted |
| ControlEffects.QuitTakesEffect | loadgen/control_state.go:76-79 | the end of the loop leaves no pipeline, and every delivery in both totals |
| ControlEffects.SettingTakesEffect | loadgen/control_state.go:157-231 | a setting is stored in its own control if and only if the configuration and the state allow it, and the pipeline is told |
| ControlEffects.TickTakesEffect | loadgen/control_state.go:243-244 | a tick moves the counter into both totals and changes nothing else |
| ControlEffects.HandlersEnd | loadgen/control_state.go:81-241 | every handler is back at the select, or at the exit, after at most four moves of the control goroutine |
| ControlMethods.RunStateCell.Run | loadgen/run_state.go:11-17 | from idle or paused only |
| ControlMethods.RunStateCell.Pause | loadgen/run_state.go:19-25 | from running only |
| ControlMethods.RunStateCell.Reset | loadgen/run_state.go:27-33 | from paused or faulted only |
| ControlMethods.RunStateCell.Fault | loadgen/run_state.go:35-41 | from running or paused only |
| ControlMethods.RunStateCell.FaultStart | loadgen/run_state.go:43-49 | from idle only |
| ControlMethods.RunStateCell.CompleteReset | loadgen/run_state.go:51-57 | from resetting only |
| ControlMethods.SettleKeeps | loadgen/control_state.go:89-241 | each handler ends back at the select, or at the exit, with the invariant |
| ControlMethods.EventLoop.constructor | loadgen/control_state.go:45-62 | starts idle, with the configured controls and nothing running |
| ControlMethods.EventLoop.CollectCompleted | loadgen/control_state.go:385-393 | moves the counter into both totals |
| ControlMethods.EventLoop.PauseElapsed | loadgen/control_state.go:419-425 | adds the running interval once and stops the clock |
| ControlMethods.EventLoop.ElapsedMs | loadgen/control_state.go:408-417 | whole ms of what was saved and of the running interval; zero when a reading from before the start makes that negative |
| ControlMethods.EventLoop.HandleRun | loadgen/control_state.go:92-128 | starting, failing to start and resuming are the handler's phases in order; from idle it ends running with the whole pipeline up, or faulted with nothing built; from paused running with the gate open; else nothing changes |
| ControlMethods.EventLoop.HandlePause | loadgen/control_state.go:129-139 | the same for a pause: it ends paused, gate closed, clock off, status kept |
| ControlMethods.EventLoop.HandleReset | loadgen/control_state.go:140-156 | the same for a reset; rejected exactly while running; else idle with no pipeline, counts at zero and nothing lost |
| ControlMethods.EventLoop.HandleSourceError | loadgen/control_state.go:233-241 | the same for a source error: faulted, with the error and no pipeline |
| ControlMethods.EventLoop.HandleSet | loadgen/control_state.go:157-231 | the commands that set a control: rejected exactly when not allowed, else stored and told |
| ControlMethods.EventLoop.HandleTick | loadgen/control_state.go:243-244 | the counter moves into both totals |
| ControlMethods.EventLoop.Finish | loadgen/control_state.go:76-79 | at exit the counter is empty and every delivery is in both totals |

## Left out

- The simulator's `telemetry()` and `workerStateCounts()`: snapshots and divisions by one second; only the window's sums are modelled.
- A batch's identity string: it repeats the sequence number.
- The simulator's workers, step activities and totals are values in fields, not objects of their own: there is no aliasing between them in the source. The step's activity is a field instead of a parameter handed through.
- Floating point: tokens, percentages and latencies are reals, so rounding of the source's doubles is not modelled.
- A request for a smaller simulator capacity: nothing guarantees that the queue ever falls to it, and nothing of the kind is claimed.
- Sender pool: condition variables and fair scheduling. A goroutine waiting on a condition is one whose step is not enabled; that it is woken is proved only for the workers' tokens. What is proved of progress is that a way on exists, not that it is taken.
- WorkerRotation.RotationIsFair: about the pool's states at one choice after another with one number of workers; a change of that number moves the cursor.
- The latest latencies that the simulator shows: the latest status and outcome are modelled and proved, their latencies only modelled.
- Sender and reader workers are values in the pool's list with an identity of their own, not heap objects.
- ReaderPool.SourcePool.ReconcileTo: the library's stable sort is modelled by the two passes of `IdleFirst`.
- Files are positions in the sorted list of paths; that a glob returns no path twice is taken from the file system.
- BatchDelivery: that an attempt begins while the pool is not paused. A pause may land after the last look, and the source does not prevent it.
- Parquet decoding, globbing, HTTP delivery and the FNV hash: arbitrary answers, errors, outcomes and values below the modulus.
- Channel and reader rates, blocked times, status assembly, logging, HTTP handlers, command-line clients, TOML decoding, and validation of controls other than the retry schedule, ranges and the pacing limit.
- Command receipts other than the rejection of a reset.
- When the reader pool or the throttler stops by itself: it may at any moment while the pipeline exists. What is told to a stopped one is not followed, and agreement with the controls is claimed only for one that has not stopped.
