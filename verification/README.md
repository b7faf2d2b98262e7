# A verified model of `scoped`

`scoped` is a structured-concurrency library for Go: scopes that own every task started
in them, a worker pool, pull streams with a concurrent `ParallelMap`, and channel helpers
in `chanx`. This project states what its concurrent protocols and stream combinators do,
step for step, and proves what they promise.

How Go is represented:

- A channel is a bounded sequence with a `closed` flag; receives drain it after the close.
- A context is a flag (or an error) that is only ever raised.
- `select` is a choice between the steps that are enabled; a run is any sequence of
  enabled steps, so a statement about `Reachable` states or about a `run` holds for every
  schedule. User callbacks are functions of the item or the index.
- One mutex-protected block, atomic operation, semaphore or wait-group operation is one step.
- Every protocol that is a set of goroutines is a state machine (`Enabled`, `Step`,
  `CanRun`, `After`). The structs behind them are classes whose methods update the fields in
  place (`ScopeObject`, `PoolObject`, `ParallelNext.Puller`, `StreamObject.PullStream`,
  `ChanxBuffer.Loop`). An atomic method takes exactly the machine's step and keeps the object
  in a reachable state; the whole operations (`Submit`, `Close`, a worker's turn, a task's
  tail, `Wait`) are put together from those. Between two steps an operation gives way: its
  state parameters stand for wherever the other goroutines lead meanwhile.
- Single-goroutine loops (`Throttle`, `Tee`/`Broadcast`, `FanOut`, the strided worker) are
  loops, fed the choices of their selects.

| file | what it holds |
|---|---|
| `ParallelMap.dfy` | dispatcher, workers, bridge and consumer as interleaved steps (stream.go:436-684) |
| `ParallelMapInvariant.dfy`, `ParallelMapSafety.dfy`, `ParallelMapProgress.dfy` | its invariant; order, completeness, backpressure, conservation; deadlock freedom and termination |
| `ParallelMapScenarios.dfy`, `ParallelMapLimits.dfy` | schedules for all options, and where those promises end, exactly: panicking sources, mappers that answer `io.EOF`, gaps and hidden gaps |
| `ParallelNext.dfy` | the reorder closure of `makeParallelNext`, in place |
| `Scope.dfy`, `ScopeInvariant.dfy`, `ScopeGuarantees.dfy`, `ScopeObject.dfy` | scope, spawners, error policies, finalization (scope.go, spawner.go) |
| `SliceMachine.dfy`, `SliceHelpers.dfy` | `ForEachSlice` and `MapSlice` on top of a scope (helpers.go) |
| `TaskErrors.dfy` | error trees and attribution (task_error.go) |
| `Pool.dfy`, `PoolInvariant.dfy`, `PoolGuarantees.dfy`, `PoolObject.dfy` | the worker pool (pool.go) |
| `StreamSpec.dfy`, `StreamLaws.dfy`, `StreamErrors.dfy`, `StreamObject.dfy` | pull streams: meaning, laws, what follows an error, objects (stream.go, stream_ops.go) |
| `ChanxBuffer.dfy`, `ChanxThrottle.dfy`, `ChanxDistribute.dfy`, `ChanxMerge.dfy` | the `chanx` loops |
| `Counting.dfy`, `Division.dfy`, `Options.dfy` | sums over goroutines, rearrangements, quotients, optional values |

What the proofs found:

- A source that panics inside `Next` unwinds the `ParallelMap` dispatcher past `wg.Wait`
  (stream.go:494-513, 588). A worker left behind can then send on the closed results channel,
  in a goroutine without a recover, or drop its result, after which the stream just ends, or
  go on running the mapper after the dispatcher task has returned. Each of these happens in some
  run exactly when the source panics after it has yielded an item. An ordered stream can then
  report a gap without any cancellation exactly when two results can be under way at once.
- Even then every uncancelled schedule ends: it has at most 12 steps an item plus 15, and gets
  stuck only wound down with its consumer told the end, starved of a slot, or crashed.
- A consumer that stops at its first `io.EOF` has every result of a `ParallelMap` exactly when
  no item's outcome is `io.EOF` and the source does not panic after it has yielded an item.
- Behind a gap a buffered `io.EOF` hides the hole. This can happen to an uncancelled stream
  exactly when its source panics, two workers can run, and an item other than the first, among
  the last `MaxPending - 1`, has the outcome `io.EOF`.
- `Err()` holds every failure of a `ParallelMap` twice, once from the closure and once from
  `Next`, and the error of a caller's own context once.
- A `ParallelMap` dispatcher waits for a slot of the scope's limit like any task. Without one a
  `Next` waits for ever, and neither `Stop` nor the caller's context frees the dispatcher.
  Starvation of this kind is the only deadlock. It lasts while the tasks that hold the slots
  do not move, for instance because they read that very stream.
- If the scope is cancelled before the dispatcher task runs, its results channel is never
  closed: a `Next` on that stream can only end with its own context.
- The second look at the reorder map in `makeParallelNext` (stream.go:640-648) is never taken.
- End of stream is not final after `TakeWhile` (as its code shows), but also not after a
  `Map` whose mapper answers `io.EOF`, nor after a `Zip` whose first stream fails once the
  second has ended. For each the exact condition is proved.
- `AllTaskErrors` is documented to collect every `TaskError` of the chain. It does so exactly
  when no `TaskError` of the chain sits inside the cause of another.
- `BufferWithReason` calls a `FlushClose` batch partial. It is a full batch exactly when a size
  flush lost to `ctx.Done` and the deferred send did not.
- A `FlatMap` that is read on after it has been stopped opens a sub-stream that nothing stops:
  `Stop` reaches a whole chain exactly when no `FlatMap` in it is in the middle of such a one.
- `activeTasks` trails `Wait`, and a panic that will be re-raised is counted as completed.

## Model

| member | source | states |
|---|---|---|
| ParallelMap.Configure | stream.go:458-478 | `MaxWorkers` is the caller's if positive and the number of CPUs otherwise; `MaxPending` is the caller's unless it is 0 in ordered mode, when it is twice the workers; everything else is kept, so there is at least one worker and, ordered, one pending slot |
| ParallelMapInvariant.StepKeepsInv | stream.go:491-678 | every atomic step of dispatcher (a panic of the source included), workers, bridge, consumer and environment keeps numbering, semaphore, wait-group, panic, bridge, ledger, flow, order, return and error-record invariants |
| ParallelMapInvariant.RunKeepsInv | stream.go:491-678 | so does every run |
| ParallelMapInvariant.NoWorkersPastWait | stream.go:510-513 | past `wg.Wait` every worker goroutine is gone and owes no result, unless a panic took the dispatcher there with workers left behind |
| ParallelMapSafety.OrderedPrefix | stream.go:615-677 | in every reachable ordered state, cancelled or not, the results emitted by index are those of the mapper on items 0, 1, 2, ... once each |
| ParallelMapSafety.NothingAfterTheHole | stream.go:634-664 | once the channel is closed and drained with the next index missing, no later `Next` of any run returns a success |
| ParallelMapSafety.SealedForever | stream.go:634-664 | the same from any invariant state; an error found behind the hole is a real failure |
| ParallelMapSafety.NoHole | stream.go:494-590 | without cancellation, and with no worker left behind by a panic, a drained closed channel leaves nothing buffered and every item emitted |
| ParallelMapSafety.OrderedComplete | stream.go:494-594 | without cancellation, and if the source does not panic after yielding an item, the end of the results channel means that every item's result was received in source order, that but for the callers' own contexts exactly the items' failures are on the stream's record, twice each, and that a source error was recorded iff the source failed |
| ParallelMapSafety.ErrIsTheLog | stream.go:42-57 | in every run, cancelled or not, what the consumer side puts into `Err()` is, in order, each returned failure twice, a caller's own context error once, and `io.EOF` never |
| ParallelMapSafety.RecordIsExact | stream.go:615-677 | in either mode, at an uncancelled end of the results channel an error is on the stream's record exactly twice for each item whose mapper failed with it, and but for callers' own contexts nothing else is |
| ParallelMapSafety.StopIsSilent | stream.go:522-530 | unless the caller's context or the scope is cancelled, the dispatcher records nothing but the source's own error after the last item, and its task returns no error |
| ParallelMapSafety.CancellationIsReported | stream.go:522-562 | a dispatcher that gives up before the last item, with the stream not stopped and the scope not cancelled, does so for the caller's context and has recorded an error or returns one |
| ParallelMapSafety.Conservation | stream.go:566-587 | in every reachable state, cancelled or panicking, a dispatched index is handed out, queued, inside a worker or buffered, in one place at most and once; exactly the dropped results are in none |
| ParallelMapSafety.NeverGap | stream.go:649-661 | under the same two conditions no `Next` reports `ErrStreamGap` or an error behind a gap |
| ParallelMapSafety.DrainBranchIsDead | stream.go:639-648 | when the closed channel is seen, the next index is never in the reorder map |
| ParallelMapSafety.Backpressure | stream.go:536-562 | slots held are slots acquired minus results emitted; running, queued and buffered items together never exceed `MaxPending`; a release never blocks |
| ParallelMapSafety.WorkerBound | stream.go:551-567 | the worker semaphore counts its holders and is never over `MaxWorkers`; the results channel holds at most the caller's buffer plus one result for each worker, and a worker can send exactly while there is room |
| ParallelMapSafety.NoMisuse | stream.go:494-594 | no second close, no release of an empty semaphore, no negative wait group; with a source that does not panic after yielding an item, no worker meets the closed channel |
| ParallelMapSafety.NothingOutlives | stream.go:498-513 | when the results channel is about to be closed the bridge goroutine has left, and so have all workers if the source does not panic after yielding an item |
| ParallelMapSafety.UnorderedConservation | stream.go:566-594 | unordered, uncancelled and with no worker left behind by a panic: delivered, queued and in-worker indices are the dispatched indices, each once |
| ParallelMapSafety.UnorderedComplete | stream.go:634-671 | unordered, uncancelled, with a source that does not panic after yielding an item: at the end of the results channel the outcomes received are those of all items, as a multiset |
| ParallelMapLimits.CrashIff | stream.go:494-513 | some run sends on the closed results channel iff the source panics after it has yielded an item |
| ParallelMapLimits.CrashRun | stream.go:578-585 | such a run, for every such source and all option values, also one with a live or a stopping consumer |
| ParallelMapLimits.OutlivesIff | stream.go:494-513 | a mapper can still be running after the dispatcher task has returned iff the source panics after it has yielded an item |
| ParallelMapLimits.CompleteIff | stream.go:494-590 | every uncancelled end of the results channel stands for all results iff the source does not panic after it has yielded an item |
| ParallelMapLimits.LossRun | stream.go:578-585 | an uncancelled run that loses a result and then just ends, for every other source |
| ParallelMapLimits.GapIff | stream.go:649-661 | some uncancelled run of an ordered stream reports a gap iff the source panics after at least two items, with at least two workers and two pending slots |
| ParallelMapLimits.StopperIff | stream.go:615-677 | uncancelled, in either mode, for every source: a consumer that stops at its first `io.EOF` has every result, none of them `io.EOF`, iff no item's outcome is `io.EOF` and the source does not panic after it has yielded an item |
| ParallelMapLimits.OrderedStopper | stream.go:619-627 | an ordered consumer that stops at its first `io.EOF` has a prefix of the results that ends at the latest with the first item whose outcome is `io.EOF`; it ends there, or after the last item, if the `io.EOF` was a mapper's, and in uncancelled runs of a source that does not panic after yielding an item |
| ParallelMapLimits.OnlyTheEndIsEof | stream.go:663 | if the mapper never answers `io.EOF`, the `io.EOF` a caller sees is the end of the results channel, in cancelled and panicking runs too |
| ParallelMapLimits.HoleHiddenIff | stream.go:649-657 | at a hole the caller can be told `io.EOF` iff a buffered result behind it carries one |
| ParallelMapLimits.HiddenHoleIff | stream.go:649-657 | an uncancelled ordered stream can report a hole as `io.EOF` iff its source panics, two workers can run, and some item but the first, among the last `MaxPending - 1`, has the outcome `io.EOF` |
| ParallelMapLimits.HiddenHole | stream.go:649-657 | a run, for every such item, that loses the result before it and tells its caller `io.EOF` |
| ParallelMapLimits.DeliversIff | stream.go:491-677 | every uncancelled schedule that cannot go on has wound down with all results delivered iff the dispatcher task finds a slot free and the source does not panic after it has yielded an item |
| ParallelMapProgress.Progress | stream.go:491-677 | deadlock freedom: an uncancelled reachable state that is neither final, nor crashed, nor starved (a `Next` waiting for a dispatcher that waits for its slot) has a step of a producer, or of a consumer that stops once told the end, for every source and all option values |
| ParallelMapProgress.StuckIff | spawner.go:50-59 | an uncancelled reachable state has no such step iff it is final, starved or crashed |
| ParallelMapProgress.NoSlotNoStart | spawner.go:50-59 | a dispatcher without a slot stays so in every run in which no slot is offered and the scope is not cancelled, whatever `Stop` and the caller's context do; a `Next` then ends only with its own context |
| ParallelMapProgress.LiveStepDrops | stream.go:491-677 | every such step lowers a natural-number measure, for every source |
| ParallelMapProgress.EveryScheduleEnds | stream.go:491-677 | for every source, panics included, and whatever other tasks do with the dispatcher's slot: an uncancelled schedule has at most 12 steps an item plus 15, and one that cannot go on has wound down with its consumer told the end and every item handed out, buffered behind a hole or dropped, or is starved, or has crashed |
| ParallelMapProgress.EveryScheduleDelivers | stream.go:491-677 | with a slot for the dispatcher and a source that does not panic after yielding an item: it then ends with the channel's end seen, all results delivered (in source order if ordered, as a multiset otherwise), each error recorded exactly twice for each item that failed with it and nothing else, and the source's own error recorded iff it ended with one |
| ParallelMapProgress.WindsDownIffSlotFree | spawner.go:50-59 | for every source, every uncancelled schedule that cannot go on has wound down or crashed iff the dispatcher task finds a slot free |
| ParallelMapProgress.StarvedSchedule | spawner.go:50-59 | a schedule of two steps that starves, for every source |
| ParallelMapProgress.ProducerDrops | stream.go:491-594 | every dispatcher, worker or bridge step uses up producer work in every run, cancelled or not |
| ParallelMapProgress.ShutdownProgress | stream.go:498-513 | after any cancellation the producers can always step until they are done, without the consumer, unless the dispatcher task still waits for its slot |
| ParallelMapProgress.ShutdownIff | spawner.go:50-59 | that exception is exact |
| ParallelMapProgress.ShutdownTerminates | stream.go:491-594 | no run has more than 12 producer steps an item plus 10 |
| ParallelMapProgress.CanGiveUp | stream.go:520-562 | once its context is done the dispatcher can give up wherever it waits: for the source, a backpressure slot or a worker slot, and starts nothing more |
| ParallelMapProgress.QuietProducerProgress | stream.go:536-562 | with nothing to receive a producer can step unless the dispatcher task waits for its slot: a full backpressure semaphore implies the missing index is inside a worker |
| ParallelMapProgress.SkippedNeverCloses | stream.go:491-494 | a dispatcher skipped by a cancelled scope never closes the channel; a `Next` then only ever ends with its context |
| ParallelMapProgress.SkippedIsReachable | spawner.go:56-72 | a run that skips the dispatcher, for all option values |
| ParallelNext.Puller.constructor | stream.go:602-605 | a fresh closure expects index 0 and has nothing buffered |
| ParallelNext.Puller.Next | stream.go:615-677 | one call, on whatever its selects observe, is the specified pull: it hands out the expected index only, or buffers and waits, or ends; the failure it returns, unless `io.EOF`, is recorded twice, the caller's context error once |
| ParallelNext.Puller.Pull | stream.go:615-677 | the same of the closure alone, which records a failure once and the context error not at all |
| ParallelNext.Puller.AtClose | stream.go:635-663 | on the closed channel: EOF, an error buffered behind the gap, or `ErrStreamGap`, in that preference, with what is recorded on the stream |
| ParallelNext.CallIsAPull | stream.go:615-677 | every call, however its steps are interleaved with those of all other goroutines and the environment, is the specified pull of exactly what its selects observed, up to its end or to a wait at its select |
| ParallelNext.NextIsARun | stream.go:615-677 | conversely, a pull of what is in the channel is a run of the machine's consumer while nobody else moves |
| ScopeInvariant.StepKeepsInv | scope.go:139-279 | every step of every task, spawner and finalizer keeps wait group, limit, counters, tracking, error and context invariants |
| ScopeInvariant.RunKeepsInv | scope.go:139-279 | so does every run |
| ScopeGuarantees.OpenSpawner | spawner.go:74-107 | an open spawner is the not-yet-closed root or belongs to a task that still holds its wait-group count |
| ScopeGuarantees.OpenIff | spawner.go:74-107 | the root accepts tasks exactly until finalize begins, the spawner of a nested task exactly while its function runs or has just returned, and a plain task has none |
| ScopeGuarantees.CancelledForever | scope.go:157-161 | a cancelled context stays so, with its first error, in every run |
| ScopeGuarantees.NoStartAfterCancel | spawner.go:52-72 | once the scope is cancelled, a task whose function has not begun, or that is spawned later, never runs it in any continuation, and is counted as skipped when the wait group is zero |
| ScopeGuarantees.CancelStopsStarts | spawner.go:52-72 | the same of every reachable cancelled state and each task that waits for a slot or at the check in front of its function |
| ScopeGuarantees.CancelledWaiterLeaves | spawner.go:55-58 | in a cancelled scope a task that waits for a slot can leave at once, with no slot taken |
| ScopeGuarantees.NamesKept | spawner.go:128-146 | in every run task i keeps the name and kind of the i-th spawn |
| ScopeGuarantees.NoneRunning | scope.go:140-142 | once `finalize` is past its wait no task function runs and every spawner is closed |
| ScopeGuarantees.NoTaskEscapes | scope.go:110-142 | and in every continuation no task is added or run, and the count stays zero |
| ScopeGuarantees.FinalizedOnce | scope.go:400-406 | the outcome of finalization never changes again |
| ScopeGuarantees.NilIsFullSuccess | scope.go:413-420 | `Wait` returns nil without panicking iff every spawned task, nested ones included, ran to a nil return and finalization saw no cancellation |
| ScopeGuarantees.ErrorPolicy | scope.go:256-279 | FailFast keeps the first recorded error; Collect keeps all, or the first `MaxErrors` in record order and counts the rest as dropped; the records are exactly the tasks' failures |
| ScopeGuarantees.RecordsGrow | scope.go:256-279 | records are only appended |
| ScopeGuarantees.FirstErrorSticks | scope.go:263-269 | no later error replaces the fail-fast error |
| ScopeGuarantees.PanicPolicy | scope.go:199-214 | the panics kept are exactly those of the tasks, none where panics are errors, and in every run the first one kept stays the first |
| ScopeGuarantees.FinalPolicy | scope.go:163-192 | the panic re-raised is the first one kept; the error is the first record, or the kept records joined, or without any the context's error if finalization saw it cancelled, else nil |
| ScopeGuarantees.CancelCause | scope.go:139-279 | a step cancels the scope only if it is a cancellation from outside, a panic to be re-raised, the first failure under FailFast or the end of finalization; the error is DeadlineExceeded exactly for a deadline |
| ScopeGuarantees.CancelEffect | scope.go:139-279 | and each of these does |
| ScopeGuarantees.SeenIff | scope.go:155 | for every run: finalization saw a cancellation iff there was one from outside before it looked, a panic to be re-raised, or a failure under FailFast |
| ScopeGuarantees.NilIffQuietSuccess | scope.go:413-420 | for every run: `Wait` returns nil without panicking iff all spawned tasks returned nil and nobody cancelled from outside before finalization looked |
| ScopeGuarantees.WaitErrorRoundTrip | scope.go:171-192 | `AllTaskErrors` of what `Wait` returns is exactly the list of kept errors, under both policies |
| ScopeGuarantees.CtxErrorIsPlain | scope.go:188-192 | the context error `Wait` can fall back on is Canceled or DeadlineExceeded |
| ScopeGuarantees.TotalAccounting | scope.go:225-241 | spawned = completed + errored + panicked + cancelled + skipped + undecided, and each counter counts its own tasks; a panic to be re-raised counts as completed |
| ScopeGuarantees.TallyMeans | scope.go:225-241 | what each count says of the task's function: completed is a nil return or a panic to be re-raised, panicked an error with a panic in its chain, errored and cancelled an error without one, skipped a function that never ran in a cancelled scope |
| ScopeGuarantees.ErroredOrCancelled | scope.go:232-240 | an error without a panic in its chain raises the cancelled counter if the context has ended and the errored counter otherwise, and no other |
| ScopeGuarantees.FirstFailureCounts | spawner.go:115-122 | for every run that nobody cancels from outside, with no panic to be re-raised: if a task failed, one counts as errored or panicked; the failure that cancels a scope is not itself counted as a cancellation |
| ScopeGuarantees.LimitsHold | spawner.go:49-66 | the limit semaphore counts its holders within the limit; the tracking table has one entry, with its name, for each tracked task, under different ids, and no more than the limit; all are empty when the wait group is zero |
| ScopeGuarantees.ActiveTrailsWait | spawner.go:46-47 | after `Wait`, `activeTasks` counts the goroutines between `wg.Done` and their last deferred call |
| ScopeGuarantees.TaskStepDrops | spawner.go:43-124 | every task step uses up some of its finite life |
| ScopeGuarantees.TaskStepsBounded | spawner.go:43-124 | in every run a task takes at most eleven steps: task steps are at most eleven for each spawn plus what earlier tasks have left |
| ScopeGuarantees.WaitProgress | scope.go:142 | while the wait group is positive some task can step, for every limit and any nesting |
| ScopeGuarantees.FullLimitStarves | spawner.go:50-59 | a task waiting for a slot stays there in every run in which the tasks that hold the slots do not move and nothing is cancelled, whatever other tasks and new spawns do |
| ScopeGuarantees.FullLimitIsReachable | spawner.go:50-59 | such a state can be reached under every limit |
| ScopeObject.ScopeCell.constructor | scope.go:298-320 | a new scope is the machine's initial state |
| ScopeObject.ScopeCell.Cancel | scope.go:157-161 | only the first cancellation takes effect |
| ScopeObject.ScopeCell.CancelScope | scope.go:447-451 | `Scope.Cancel`: only the first cancellation takes effect, and the scope stays in a reachable state |
| ScopeObject.ScopeCell.BeginTask | spawner.go:128-146 | a closed spawner changes nothing and refuses, and every spawner does once finalize is past its wait; an open one adds exactly one waiting task to every count |
| ScopeObject.ScopeCell.RegisterTask | scope.go:69-76 | the task is entered under an id not in use |
| ScopeObject.ScopeCell.UnregisterTask | scope.go:79-83 | the machine's unregister step |
| ScopeObject.ScopeCell.Recover | scope.go:199-214 | the machine's finish step: a panic becomes the error, or is kept and cancels the scope with a nil error |
| ScopeObject.ScopeCell.EmitCompletionEvent | scope.go:225-241 | the machine's event step |
| ScopeObject.ScopeCell.CountOutcome | scope.go:228-241 | exactly one outcome counter goes up, by error, panic and context |
| ScopeObject.ScopeCell.CloseChildSpawner | spawner.go:107 | the machine's close step of a child spawner |
| ScopeObject.ScopeCell.RecordTaskError | scope.go:256-279 | the machine's record step |
| ScopeObject.ScopeCell.StoreError | scope.go:262-278 | first error and cancellation under FailFast, store or drop under Collect |
| ScopeObject.ScopeCell.Complete | spawner.go:97-123 | from the end of its function to its deferred calls, with others running in between: the task keeps its result, is counted by what it was, and a failure is the next record; under FailFast the first record is the scope's error and the context has ended |
| ScopeObject.ScopeCell.CloseRootSpawner | spawner.go:224-228 | the machine's close step |
| ScopeObject.ScopeCell.WaitForTasks | scope.go:142 | the machine's wait step |
| ScopeObject.ScopeCell.SampleContext | scope.go:155 | finalization notes the cancellation before the scope ends its own context |
| ScopeObject.ScopeCell.EndContext | scope.go:157-161 | an already cancelled context keeps its error |
| ScopeObject.ScopeCell.Conclude | scope.go:163-192 | the machine's last step: panic to re-raise, policy error, context error as a fallback |
| ScopeObject.ScopeCell.Wait | scope.go:400-420 | with others running in between: the first call finalizes, later and blocked ones change nothing and return the same; nil without a panic iff every task returned nil and no cancellation was seen; the returned error carries exactly the kept task errors; no task is left and the root is closed |
| ScopeObject.ScopeCell.PolicyErr | scope.go:171-186 | the error the policy reports |
| ScopeObject.ScopeCell.JoinErrors | scope.go:179-183 | the joined copy holds the stored errors in order |
| SliceMachine.WorkerCount | helpers.go:160-165 | the limit if that is positive and below the number of items, otherwise the number of items |
| SliceHelpers.PathTaken | helpers.go:97-158 | the worker path is taken for fail-fast with a limit and no hooks or tracking, with the smaller of limit and item count as tasks; every other call has a task for each item, which processes it whenever its function runs and ends as the item does, but for a failure a collecting `MapSlice` captures |
| SliceHelpers.AtMostOnce | helpers.go:25-49 | in every run, on either path, an item is processed at most once; its entry is untouched before, and afterwards its value, its own error, or untouched if it panicked |
| SliceHelpers.NilIff | helpers.go:131-138 | the returned error is nil, with no panic, iff no item panicked, none failed unless a collecting `MapSlice` captures it, and no cancellation was seen |
| SliceHelpers.NilMeansEachOnce | helpers.go:93-138 | a nil error means every item was processed exactly once, none panicked, and `results[i]` is its value, or its own error in a collecting `MapSlice`, on either path |
| SliceHelpers.PathsAgree | helpers.go:93-129 | successful runs of the strided path and of the per-item path give the same results |
| SliceHelpers.FailFastNamesAFailure | helpers.go:131-135 | a failing fail-fast call returns the TaskError of an item that was processed and failed, or the error of the cancelled context |
| SliceHelpers.BodyCanStep | helpers.go:97-112 | a task body never waits: at its end it returns, and a worker that finds its context done in front of an item returns nil |
| SliceHelpers.StopsQuickly | helpers.go:98-101 | from the moment the scope is cancelled no run of the worker path processes more items than there are workers past the check in front of theirs, so no more than the limit |
| SliceHelpers.CollectReportsEachItem | helpers.go:115-138 | a collecting `MapSlice` without panics or cancellation returns a nil error and each item's value or own error |
| SliceHelpers.PartialResults | helpers.go:131-138 | however the call ends: `MapSlice` returns the error of `Wait`, drops the results exactly when a fail-fast call failed, and in results it returns every processed item shows its value or own error and every other entry is untouched |
| SliceHelpers.OneItem | helpers.go:104-109 | a value or an error goes to its own index, a panic leaves it untouched, nothing else changes, and the result is the item's |
| SliceHelpers.StridedWorker | helpers.go:97-112 | the worker loop fills exactly its stride below where it stopped, with each item's value or error, and no index at which the context was done; nil means only values and stride used up or context done, anything else is the verdict on its last item, the first that is no value |
| TaskErrors.Collector.Collect | task_error.go:75-88 | appends the outermost task errors of the tree, left to right |
| TaskErrors.AllTaskErrors | task_error.go:65-73 | returns exactly that list |
| TaskErrors.FirstIsHead | task_error.go:30-59 | the depth-first search finds the head of that list |
| TaskErrors.FirstOfTheChain | task_error.go:25-61 | `IsTaskError`, `TaskOf` and `CauseOf` are about the first task error of the chain in the order `errors.As` walks it, wrapped, joined and panicked errors included |
| TaskErrors.PanicInTheChain | scope.go:232-240 | a panic is found iff the chain holds one, inside task errors too |
| TaskErrors.AttributionAgrees | task_error.go:25-61 | for any tree `IsTaskError`, `TaskOf` and `CauseOf` describe the head of `AllTaskErrors` |
| TaskErrors.JoinRoundTrip | task_error.go:80-83 | joining task errors and collecting them gives the same list |
| TaskErrors.CollectsEveryIff | task_error.go:63-88 | it is every task error of the tree iff none of them sits inside the cause of another |
| TaskErrors.NestedIsNotCollected | task_error.go:77-78 | a tree on which it is not |
| PoolInvariant.StepKeepsInv | pool.go:132-239 | every step of submitters, workers and closers keeps the queue, work, counter, close and verdict invariants |
| PoolGuarantees.AcceptedIffQueued | pool.go:179-224 | a returned `Submit` or `TrySubmit` reports acceptance iff its task entered the queue |
| PoolGuarantees.RefusalsHaveReasons | pool.go:179-224 | a refusal says what is the case: `ErrPoolClosed` of a closed pool, the context's error of a done context and to `Submit` only, the default to `TrySubmit` only |
| PoolGuarantees.RefusedWhen | pool.go:179-224 | at the step that refuses the reason holds, for the default a full queue that is open; a call that finds the flag set is refused at once |
| PoolGuarantees.WaitsIff | pool.go:194-223 | `TrySubmit` never waits; `Submit` waits exactly while the pool is open, its context not done, the queue full and no idle worker at an empty queue |
| PoolGuarantees.FifoAndBounds | pool.go:132-137 | tasks leave in the order they entered, no task twice, at most `workers` in flight and `queueSize` waiting |
| PoolGuarantees.NothingLostOrDoubled | pool.go:132-161 | at every moment an accepted task is in exactly one place: queue, one worker, or finished |
| PoolGuarantees.CloseIsComplete | pool.go:229-239 | when `Close` returns the pool is closed and its context done, all accepted tasks have run exactly once, each error is joined as often as accepted tasks fail with it, and `completed` and `errored` are the numbers of accepted and of failed tasks |
| PoolGuarantees.ClosesAgree | pool.go:226-239 | any two returned `Close` calls agree |
| PoolGuarantees.QuiescentCounters | pool.go:194-196 | after a `Close`, with no call in progress, submitted = completed |
| PoolGuarantees.SubmittedTrails | pool.go:139-197 | at every moment `submitted` trails the accepted tasks by the calls between send and bump, `completed` counts finished tasks, `errored` recorded errors, `inFlight` workers inside `runTask` |
| PoolGuarantees.ClosedOnce | pool.go:230-232 | the task channel is never closed twice |
| PoolGuarantees.NothingAcceptedAfterClose | pool.go:184-192 | nothing is accepted once the channel is closed, in any continuation |
| PoolGuarantees.CloseProgress | pool.go:132-137 | after the close workers can step until all have left |
| PoolGuarantees.CloseTerminates | pool.go:132-161 | and each such step uses up work |
| PoolGuarantees.WorkStepsBounded | pool.go:132-161 | after the close, no run has more worker steps than the tasks in hand and in the queue account for |
| PoolObject.PoolCell.constructor | pool.go:83-108 | a new pool is the machine's initial state |
| PoolObject.PoolCell.CheckClosed | pool.go:180-182 | the machine's closed check |
| PoolObject.PoolCell.Select | pool.go:194-223 | the select of `Submit` and `TrySubmit` with the case it picks: last into the buffer, into a waiting worker's hands, or, leaving the queue alone, `ErrPoolClosed` on the closed channel, the error of the done context, or the default on a full queue |
| PoolObject.PoolCell.BumpSubmitted | pool.go:196 | the machine's bump step |
| PoolObject.PoolCell.Submit | pool.go:179-224 | a whole `Submit` or `TrySubmit` with others running in between: acceptance is reported iff the task entered the queue, and then it is in exactly one place; a refusal has its reason |
| PoolObject.PoolCell.Next | pool.go:134-136 | a worker takes the oldest task, or leaves a closed empty channel |
| PoolObject.PoolCell.EnterRun | pool.go:140 | the machine's begin step |
| PoolObject.PoolCell.RunFunction | pool.go:146-154 | the machine's end step: a failure or a recovered panic is an error |
| PoolObject.PoolCell.RecordFailure | pool.go:155-160 | the machine's record step: counted and appended |
| PoolObject.PoolCell.LeaveRun | pool.go:141-144 | the machine's counter step |
| PoolObject.PoolCell.RunTask | pool.go:139-161 | the whole of `runTask` with others running in between: the task has finished and an error of it is kept |
| PoolObject.PoolCell.ServeOne | pool.go:132-137 | a worker's turn: the oldest task has run exactly once and is nowhere else, and its error is kept |
| PoolObject.PoolCell.SwapClosed | pool.go:230 | only the first closer wins |
| PoolObject.PoolCell.CloseChannel | pool.go:231 | the machine's close step, on a channel that is still open |
| PoolObject.PoolCell.WaitForWorkers | pool.go:233 | the machine's wait step |
| PoolObject.PoolCell.CancelContext | pool.go:234 | the machine's cancel step |
| PoolObject.PoolCell.JoinErrors | pool.go:236-238 | returns the recorded errors |
| PoolObject.PoolCell.Close | pool.go:229-239 | a whole `Close` with others running in between: the pool is closed and its context done, every accepted task has run exactly once, each error is joined as often as accepted tasks fail with it, and every other `Close` that has returned agrees |
| StreamSpec.FoldAppend | stream.go:970-990 | the fold takes an item more at the end last |
| StreamSpec.FilterAppend | stream.go:180-199 | the list filter keeps an item more at the end iff the predicate holds of it, and nothing before changes |
| StreamSpec.DedupeAppend | stream.go:1044-1066 | the list of first occurrences keeps an item more at the end iff it is new |
| StreamSpec.MapUntil | stream.go:383-401 | the list map: each item's image up to the first that is refused, and that refusal or the list's own end |
| StreamSpec.FlatUntilAppend | stream.go:997-1040 | the concatenation of sub-lists: one more is appended, its failure takes the place of the end, and after a failure nothing counts |
| StreamLaws.FilterMeans | stream.go:180-199 | collected, `Filter` is the list filter, and ends as its source |
| StreamLaws.TakeMeans | stream.go:202-225 | `Take(n)` is the first n items then EOF, or the whole source and its end |
| StreamLaws.SkipMeans | stream.go:772-794 | `Skip(n)` is the rest after n items |
| StreamLaws.MapMeans | stream.go:383-401 | `Map` is the list map up to the first item the mapper refuses |
| StreamLaws.MapAt | stream.go:391-398 | `Map` answers response by response, an item with its image and anything else as it is, also after errors |
| StreamLaws.TakeWhileMeans | stream.go:835-858 | `TakeWhile` is the longest accepted prefix |
| StreamLaws.TakeWhileAt | stream.go:840-851 | `TakeWhile` answers a rejected item with EOF and everything else as it is, response by response |
| StreamLaws.DropWhileMeans | stream.go:860-881 | `DropWhile` is what follows that prefix |
| StreamLaws.ScanMeans | stream_ops.go:20-40 | `Scan` is the list of running folds |
| StreamLaws.DistinctMeans | stream.go:1044-1066 | `Distinct` keeps first occurrences |
| StreamLaws.FlatMeans | stream.go:997-1040 | `FlatMap` concatenates the sub-streams up to the first that fails |
| StreamLaws.ZipMeans | stream_ops.go:51-79 | `Zip` pairs positions and ends as the shorter stream does |
| StreamLaws.ChainMeans | stream.go:689-701 | any chain of these, collected, is the composed list functions: the items before the first error, and that error |
| StreamLaws.ScanEndsInReduce | stream_ops.go:16-17 | the last value of `Scan` is what `Reduce` computes |
| StreamErrors.FilterGoesOn | stream.go:185-196 | an error does not end `Filter`: it distributes over any cut of its source and passes every error |
| StreamErrors.TakeGoesOn | stream.go:210-222 | `Take` over any cut of its source: errors pass and are not counted, items are |
| StreamErrors.SkipGoesOn | stream.go:781-791 | `Skip` over any cut of its source: errors pass while skipping and are not counted, afterwards everything passes |
| StreamErrors.DropWhileGoesOn | stream.go:865-879 | `DropWhile` over any cut of its source: it stops dropping at the first rejected item and at no error |
| StreamErrors.ScanGoesOn | stream_ops.go:29-37 | `Scan` over any cut of its source: the accumulator outlives errors |
| StreamErrors.DistinctGoesOn | stream.go:1051-1063 | `Distinct` over any cut of its source: what was seen outlives errors |
| StreamErrors.FlatGoesOn | stream.go:1008-1032 | `FlatMap` over any cut of its source: it stays in a sub-stream that fails, leaves one at its first EOF, and loses none to an error of its source |
| StreamErrors.ZipGoesOn | stream_ops.go:59-73 | `Zip` over any cut of its first stream: the second is read once for each item of the first and for nothing else, and its error costs that item |
| StreamLaws.FilterAbsorbs | stream.go:180-199 | `Filter` keeps EOF final |
| StreamLaws.TakeAbsorbs | stream.go:202-225 | `Take` keeps EOF final |
| StreamLaws.SkipAbsorbs | stream.go:772-794 | `Skip` keeps EOF final |
| StreamLaws.DropWhileAbsorbs | stream.go:860-881 | `DropWhile` keeps EOF final |
| StreamLaws.ScanAbsorbs | stream_ops.go:29-37 | `Scan` keeps EOF final |
| StreamLaws.DistinctAbsorbs | stream.go:1051-1063 | `Distinct` keeps EOF final |
| StreamLaws.FlatAbsorbs | stream.go:1008-1032 | `FlatMap` keeps EOF final, whatever its sub-streams do after theirs |
| StreamLaws.MapAbsorbsIff | stream.go:391-398 | `Map` keeps EOF final iff only EOFs follow an item its mapper answers with `io.EOF` |
| StreamLaws.MapResumes | stream.go:391-398 | a stream on which it does not |
| StreamLaws.TakeWhileAbsorbsIff | stream.go:840-851 | `TakeWhile` keeps EOF final iff only EOFs and rejected items follow a rejected item |
| StreamLaws.TakeWhileResumes | stream.go:840-851 | a stream on which it does not |
| StreamLaws.ZipAbsorbsIff | stream_ops.go:59-73 | `Zip` keeps EOF final iff its first stream does not fail after the second ended under it |
| StreamLaws.ZipResumes | stream_ops.go:59-73 | two streams on which it does not |
| StreamLaws.BatchNextItems | stream.go:412-431 | one `Next` of `Batch` on an error-free source: n items, or the shorter rest, or EOF |
| StreamLaws.BatchNextMeans | stream.go:412-431 | one `Next` of `Batch` on any source: n items and nil; or the fewer items before an error, with that error; or the fewer items before EOF with nil, and EOF if there are none; and what is left of the source |
| StreamLaws.BatchConserves | stream.go:412-431 | over a whole source read on past its errors, every item is in exactly one batch, in order, and every error is handed out, in order |
| StreamLaws.BatchingLaw | stream.go:404-434 | the batches concatenate to the source, all of length n but a non-empty last one of at most n |
| StreamLaws.BatchAbsorbs | stream.go:412-431 | `Batch` keeps EOF final, also after a short last batch |
| StreamObject.PullStream.FromScript | stream.go:250-298 | a leaf stream gives its responses in order, then EOF |
| StreamObject.PullStream.Over | stream.go:180-225 | a combinator over a source stands for the transformed response list |
| StreamObject.PullStream.Zip | stream_ops.go:51-79 | so does `Zip` over two disjoint streams |
| StreamObject.PullStream.Next | stream.go:42-63 | takes the head off the response list, counts items, records errors |
| StreamObject.PullStream.StopNow | stream.go:82-91 | the first call stops the streams this one reads from, down to the last iff no `FlatMap` of the chain was read on after an earlier stop; what `Next` will answer does not change |
| StreamObject.PullStream.StopReachesAll | stream.go:1033-1038 | a stopped stream's whole chain, current sub-streams included, is stopped iff no `FlatMap` in it is in the middle of a sub-stream it opened after its stop |
| StreamObject.LateSubStream | stream.go:1028-1038 | a stopped `FlatMap` that is read once more and is left with a sub-stream that is not stopped |
| StreamObject.PullStream.PullFilter | stream.go:185-196 | the loop returns the first accepted item or the error |
| StreamObject.PullStream.PullTake | stream.go:210-222 | at most n successful reads from upstream in its life; then EOF, and the upstream is stopped |
| StreamObject.PullStream.PullSkip | stream.go:781-791 | the skipping loop, also when an error interrupts it |
| StreamObject.PullStream.PullMap | stream.go:391-398 | one read, mapped |
| StreamObject.PullStream.PullTakeWhile | stream.go:840-851 | one read; a rejected item is answered with EOF, and the upstream is stopped |
| StreamObject.PullStream.PullDropWhile | stream.go:865-879 | drops until the first rejected item, then passes on |
| StreamObject.PullStream.PullScan | stream_ops.go:29-37 | one read folded into the captured accumulator |
| StreamObject.PullStream.PullDistinct | stream.go:1051-1063 | the first unseen item, remembered |
| StreamObject.PullStream.PullFlatMap | stream.go:1008-1032 | reads the current sub-stream, stops it and moves on at its EOF, skips nil ones |
| StreamObject.PullStream.PullZip | stream_ops.go:59-73 | reads `a`, then `b`; an error of `b` costs `a`'s item; whichever ends, the other is stopped |
| StreamObject.PullStream.ToSlice | stream.go:689-701 | the items before the first EOF or error, with the recorded errors or that error; the stream is stopped |
| StreamObject.PullStream.Reduce | stream.go:970-990 | the fold of those items, with the same error; the stream is stopped |
| StreamObject.PullStream.NextBatch | stream.go:412-431 | the batching loop, case by case: n items with nil, fewer with the error that cut them short, fewer with nil at EOF, none with EOF |
| ChanxBuffer.Loop.Flush | chanx/buffer.go:151-169 | sends and clears batch and timer, or leaves all in place when the context wins; no item is lost |
| ChanxBuffer.Loop.Accept | chanx/buffer.go:185-198 | one item more; exactly at `size` the batch goes out, unless the context wins |
| ChanxBuffer.Loop.Turn | chanx/buffer.go:183-206 | one turn of the select, case by case: an item joins the batch or fills and sends it, the timer sends the open batch and is disarmed, the close, the context or a lost send ends the loop; at every loop head the timer is armed iff the batch is non-empty, and the batch is shorter than `size` |
| ChanxBuffer.Loop.FlushOnExit | chanx/buffer.go:171-181 | the deferred flush sends what is left as one `FlushClose` batch, a full one iff what is left is full |
| ChanxBuffer.Loop.RunLoop | chanx/buffer.go:183-206 | a whole run of the loop: the batches sent are the items read between cuts of the schedule, each cut the item that filled a batch or the timer of an open one; after a timer nothing is open; the loop ends at the close, the context or a lost send, and at nothing else |
| ChanxBuffer.Loop.Run | chanx/buffer.go:144-207 | whole runs of the goroutine: those batches, then at most one `FlushClose` of what is left, full iff a size flush lost to the context and the deferred send did not; together they are what was read, but for a last batch whose send is cut short; as many timeouts as timers that found a batch open |
| ChanxBuffer.TimeoutsAreTimers | chanx/buffer.go:199-202 | in every run the number of `FlushTimeout` batches is the number of taken timers that found a batch open |
| ChanxBuffer.FullClosingBatch | chanx/buffer.go:109-110 | a run whose `FlushClose` batch is full |
| ChanxThrottle.BucketIsRateBound | chanx/throttle.go:41-71 | a sequence of accepts and ticks never finds the bucket empty iff every stretch accepts at most n more than it has ticks |
| ChanxThrottle.Turn | chanx/throttle.go:42-70 | one turn of the select, case by case: a tick refills up to n, an item read costs a token and is sent or lost to the context, without a token the input is not read, the close and the context end the loop; never in debt |
| ChanxThrottle.Throttle | chanx/throttle.go:37-72 | 0 <= tokens <= n; the rate bound on every stretch; each pick is noted as what it does and the loop stops at the first that ends it; output a prefix of the input missing exactly the item whose send the context cut off; a schedule within the rate is never held back |
| ChanxDistribute.Broadcast | chanx/broadcast.go:39-62 | the loop ends at the first pick that is the context, the closed input or a lost send; every output has all items before that, and an item cut short has reached exactly the outputs served by then, in index order |
| ChanxDistribute.FanOut | chanx/merge.go:84-107 | the loop ends at the first pick that is the context, the closed input or a lost send; output k holds exactly the items before that at positions k modulo n |
| ChanxDistribute.ShareAt | chanx/merge.go:98-99 | item i is entry i / n of output i mod n |
| ChanxDistribute.InTurnRestores | chanx/merge.go:50-51 | reading the outputs in turn gives the sent items back in order and stops after the last |
| ChanxMerge.StepKeepsInv | chanx/merge.go:15-48 | every step keeps per-input books and the wait group |
| ChanxMerge.SourceOrder | chanx/merge.go:23-38 | the output restricted to one input is a prefix of it, at every moment |
| ChanxMerge.NoSendAfterClose | chanx/merge.go:42-45 | after the close only a cancellation can still happen: no send, no second close |
| ChanxMerge.ClosedIsComplete | chanx/merge.go:8-10 | closed without cancellation, the output holds all of every input and nothing else |
| ChanxMerge.CanProceed | chanx/merge.go:13-14 | until the close some step is enabled, and after a cancellation one that needs no consumer |
| ChanxMerge.RunIsBounded | chanx/merge.go:15-48 | no run is longer than the measure it starts with |

## Left out

- Goroutines whose control state has no struct of its own (dispatcher, workers, bridge, task goroutines, pool workers) are values in the state machines; the structs and closures they work on are classes.
- Steps local to one goroutine are folded into the synchronising step they lead up to, and counter updates that sit next to each other with no other goroutine able to tell them apart are one step.
- ParallelMapSafety.ErrIsTheLog: is about the consumer's own record; where among it the dispatcher's source error falls, and which cancellation cause a stopped source reports, is not modelled.
- The dispatcher of ParallelMap runs as a scope task; its machine keeps only what that means for it: it waits for a slot, starts or is skipped, and the scope's context can be cancelled at any time, as the scope does after a panic.
- ParallelMapLimits.CrashIff: a source panics, if at all, after its last item; a crash ends the run, since it ends the process.
- StreamObject.PullStream.Next: does not model the concurrent-call panic or timestamps; a value returned beside an error is kept only for `Batch`.
- StreamObject.PullStream.PullFlatMap: sub-streams are leaves with scripted responses, not further combinators; stream chains use one item type.
- StreamLaws.BatchAbsorbs: a batch handed out beside an error counts as that error.
- Sources are finite; a source's blocking and context are represented by its scripted errors.
- ScopeGuarantees.NilIsFullSuccess: hooks are taken to return normally, and a panic of `Run`'s own function, which takes precedence over the result, is not part of this model.
- ScopeObject.ScopeCell.Wait: a call that blocks while another one finalizes appears as one that finds the scope finalized.
- Metrics, stall detection, durations, `WaitTimeout`, `Snapshot` and the task-event callbacks.
- ChanxThrottle.Throttle: the rate is stated in ticks, not in seconds.
- ChanxDistribute.Broadcast: stands for `Tee` too; buffer occupancy, which only decides when a send can go through, is not tracked.
- `Buffer` without reasons, which is the loop of `BufferWithReason` without the tag; the early return on a nil input channel everywhere in `chanx`.
- `Peek`, `ForEach`, `Count`, `Any`, `All` and the other easy stream terminals; `Race`, `Result`, `Semaphore`, `SpawnTimeout`, `SpawnScope`, `SpawnRetry`, `Closable`, `Debounce`, `Window` and the other wrappers.
- Stack capture, error strings, option validation panics and nil-argument checks.
- The memory model below the level of one atomic, mutex or channel operation.
