# Verified model of the variopt runtime

variopt runs optimisation methods as an ask/evaluate/tell loop under a hard
evaluation budget. This project models the parts of that runtime in which state,
concurrency or accounting can go wrong, and proves what they keep. `dafny verify
dfyconfig.toml` checks everything.

The components, with the file each model starts from:

- **Asynchronous batches** (`src/variopt/evaluators/joblib/`). `AsyncLifecycle` has
  every lock-guarded block as a function of the shared maps and batch objects;
  `AsyncEvaluator` and `BatchSession` are the same operations on objects that are
  updated in place. `AsyncProtocol` adds drain workers with bounded queues and any
  number of waiters, each between two blocks, and interleaves all of them freely.
  The outcome stream and the attempt stream run the same code over their own maps;
  the model is either of them. `AsyncSafety`, `AsyncDelivery`, `AsyncExactlyOnce`,
  `AsyncSingleWaiter`, `AsyncDuplicates` and `AsyncExhaustion` prove the invariants
  and what callers may rely on; `AsyncBatchLife` has the life of one batch as an
  automaton that the evaluator's maps implement, and `AsyncProgress` what workers and
  waiters get done.
- **Budget** (`src/variopt/execution.py`, `src/variopt/study/execution.py`).
  `Allocator` defines one-unit-at-a-time round robin and proves its optimality;
  `AllocatorMethod` is the water-filling algorithm; `Ledger` has the budget and the
  reservations with their conservation law.
- **Run loops** (`src/variopt/study/`). A run method is any functions of an
  immutable state; kernel and evaluator are any function of the step, the post-ask
  state, the requests and the remaining budget, so that every behaviour, different
  at every step, is covered. `RunHistory`, `StudyRun`, `StudyRunLoop`,
  `StudyRunSafety`, `StudyRunSteps` and `StudyRunMethod` are the generic run;
  `DirectScalar`, `DirectScores` and `DirectScalarMethod` the fused scalar loop, its
  refinement and what its scores mean; the `StaleAsync` modules the rolling
  asynchronous run, one action at a time, against any completion order.
- **Candidates** (`src/variopt/spaces/`). `CandidateCodec`, `CandidateCodecLaws`
  and `CandidateCodecFormat` are the JSON codec; `StructuredSpaces`,
  `StructuredEdits`, `StructuredEditsExactly` and `StructuredEditMethods` the nested
  leaf edits.
- **Order-sensitive algorithms**. `Frontier`, `Assembly`, `Episodes`,
  `DistanceView` and `SeedDerivation`.

Exceptions are values: `Result` and `Option` say which operation fails and when.
Runs that need not end carry a bound on the number of iterations or actions; every
claim holds for all bounds.

## Findings

Where a property does not hold of the code as it is, the model keeps the code and
proves exactly when it holds.

- The check for a stale event and the commit of a result are two lock blocks. With
  two waiters on one batch a result can be committed after its batch was retried;
  the new attempt repeats it and the batch fails as a duplicate. Over all runs of
  any number of waiters this can happen exactly when the retry limit is positive
  (`AsyncDuplicates.DuplicatesExactly`). Without such a stale commit, and so with
  one waiter, it cannot happen.
- In slot mode (`count_evaluation_cost=False`) reports count slots while the report
  check adds up costs. The generic run loses a failure's report exactly when a step
  raises behind attempts that have cost more than one evaluation each on average,
  and no final report. A stale run has its final report refused exactly when the
  attempts it shows, up to the checkpoint it returns or all of them, have cost more
  than one each on average; a failure loses its reports exactly when those of the
  partial report or of the checkpoint have.
- In cost mode steps may report no cost. A run ends exactly when, at some point, it
  has made as many iterations that are not free as its budget has units
  (`StudyRunSafety.EndsExactly`); one whose iterations stay free goes on for ever.
- Encoding and decoding share the limit of 256 levels, but a mapping escaped for
  its reserved key takes three levels of the encoding. Candidates deeper than that
  in weighted depth encode and cannot be decoded.
- The fused scalar loop never asks for kernel hints. A step of it differs from the
  generic one exactly when the run method does not declare its hints dispensable and
  the hook raises, or returns a wrong number of hints, with an effect that no other
  fault hides (`DirectScalar.HintsHarmlessExactly`); runs agree when no step that is
  reached differs.
- Scalar leaves ignore edits of paths below them, where arrays and permutations
  refuse undeclared paths: an undeclared path is refused exactly when it does not go
  on below a scalar leaf, and otherwise has no effect.
- `run_stale_async` documents that slot mode counts completed records; the code
  counts attempt slots, failed ones included. The model follows the code.


## Model

| member | source | states |
|---|---|---|
| `AsyncLifecycle.Remaining` | src/variopt/evaluators/joblib/asynchronous.py:169-178 | the unfinished request inputs are exactly the indices not completed, in order |
| `AsyncSafety.StepSafe` | src/variopt/evaluators/joblib/asynchronous.py:607-669 | every lock-guarded block, of submission, collection, retry, suspension, resumption, cancellation and discarding, keeps the invariant: a batch is in at most one map, what a map records of a batch is what was observed of it, and resume handles tell the truth |
| `AsyncSafety.ReachableSafe` | src/variopt/evaluators/joblib/asynchronous.py:1391-1490 | the invariant holds after every interleaving of the blocks |
| `AsyncSafety.DeliveredAtMostOnce` | src/variopt/evaluators/joblib/asynchronous.py:1604-1657 | over every interleaving no request index is committed twice, and the completed indices of an active or suspended batch are the delivered ones |
| `AsyncSafety.RetriesLimited` | src/variopt/evaluators/joblib/asynchronous.py:1122-1151 | retries of a batch never exceed the limit, counted across suspensions and resumptions |
| `AsyncSafety.GoneForever` | src/variopt/evaluators/joblib/asynchronous.py:1717-1731 | an id that has left all maps never returns, and nothing more is delivered for it |
| `AsyncBatchLife.StepFollows` | src/variopt/evaluators/joblib/asynchronous.py:607-669 | every lock-guarded block does to the batch it names exactly what the automaton of one batch says, and nothing to any other |
| `AsyncBatchLife.OverForGood` | src/variopt/evaluators/joblib/asynchronous.py:1717-1731 | a batch that is over stays over, and nothing more is delivered for it |
| `AsyncBatchLife.CancelEnds` | src/variopt/evaluators/joblib/asynchronous.py:1717-1731 | cancelling an active or suspended batch ends it: no run of blocks afterwards delivers anything for it |
| `AsyncBatchLife.FailEnds` | src/variopt/evaluators/joblib/asynchronous.py:1482-1490 | so does a waiter that gives up the batch it owns |
| `AsyncBatchLife.DuplicateEnds` | src/variopt/evaluators/joblib/asynchronous.py:1632-1637 | a repeated index ends its batch and is not delivered |
| `AsyncBatchLife.DiscardEnds` | src/variopt/evaluators/joblib/asynchronous.py:1827-1838 | discarding a suspended batch ends it at once |
| `AsyncBatchLife.DiscardedNeverReturns` | src/variopt/evaluators/joblib/asynchronous.py:1835-1838 | a batch discarded while it is being resumed is over or still resuming after any run of blocks, with nothing delivered for it |
| `AsyncBatchLife.DiscardedResumptionEnds` | src/variopt/evaluators/joblib/asynchronous.py:628-655 | its resumption ends it, whether its attempt starts or not |
| `AsyncBatchLife.DeclinedMeansSpent` | src/variopt/evaluators/joblib/asynchronous.py:1122-1130 | a retry is declined only after as many retries as the limit allows |
| `AsyncBatchLife.ConfirmsExactly` | src/variopt/evaluators/joblib/asynchronous.py:1773-1787 | a suspension returns a handle exactly when its own record is still there, with the counts of that record |
| `AsyncBatchLife.SuspendedResumes` | src/variopt/evaluators/joblib/asynchronous.py:1743-1787 | suspended and resumed with the handle it returned, a batch runs on with its completed indices and retries |
| `AsyncBatchLife.SubmittedRuns` | src/variopt/evaluators/joblib/asynchronous.py:1231-1251 | a submitted batch runs with nothing completed |
| `AsyncSafety.CurrentHandleAccepted` | src/variopt/evaluators/joblib/asynchronous.py:607-622 | resuming accepts every handle that belongs to the suspended record, although its count was read from the batch object after the abort |
| `AsyncSafety.HandleStaysGood` | src/variopt/evaluators/joblib/asynchronous.py:1743-1787 | over any run of blocks a handle is accepted by resume until its batch is resumed, cancelled or discarded |
| `AsyncSafety.FailedResumeRestores` | src/variopt/evaluators/joblib/asynchronous.py:628-644 | a resumption whose attempt cannot start leaves the handle good, unless the batch was discarded meanwhile, and then the batch is gone |
| `AsyncEvaluator.AsyncJoblibEvaluator.constructor` | src/variopt/evaluators/joblib/asynchronous.py:421-446 | a new evaluator has no batches |
| `AsyncEvaluator.AsyncJoblibEvaluator.DrawBatchId` | src/variopt/evaluators/joblib/asynchronous.py:1240-1243 | the counter is advanced once per submission |
| `AsyncEvaluator.AsyncJoblibEvaluator.StartActiveBatch` | src/variopt/evaluators/joblib/asynchronous.py:846-898 | a new batch object over the requests that are not completed, with generation zero |
| `AsyncEvaluator.AsyncJoblibEvaluator.Register` | src/variopt/evaluators/joblib/asynchronous.py:1249-1251 | the batch becomes active |
| `AsyncEvaluator.AsyncJoblibEvaluator.CommitCompleted` | src/variopt/evaluators/joblib/asynchronous.py:1632-1642 | checks ownership by identity, removes the batch on a duplicate, records the index otherwise, and retires a complete batch; all in place, as the block on values says |
| `AsyncEvaluator.AsyncJoblibEvaluator.RetryInfrastructureFailure` | src/variopt/evaluators/joblib/asynchronous.py:1122-1151 | ownership, limit and remaining work are checked in this order; the retry is counted even when the new attempt cannot start, and then the batch is removed |
| `AsyncEvaluator.AsyncJoblibEvaluator.FailActive` | src/variopt/evaluators/joblib/asynchronous.py:1482-1485 | only the waiter that still owns the batch removes it |
| `AsyncEvaluator.AsyncJoblibEvaluator.CancelBatch` | src/variopt/evaluators/joblib/asynchronous.py:1725-1727 | the batch leaves the active and the suspended map, but not a resumption |
| `AsyncEvaluator.AsyncJoblibEvaluator.SuspendActive` | src/variopt/evaluators/joblib/asynchronous.py:1759-1771 | the record copies completed indices and retries |
| `AsyncEvaluator.AsyncJoblibEvaluator.ClaimSuspended` | src/variopt/evaluators/joblib/asynchronous.py:607-622 | a handle is refused when unknown or when its counts disagree; otherwise the record moves to resuming |
| `AsyncEvaluator.AsyncJoblibEvaluator.RestoreSuspended` | src/variopt/evaluators/joblib/asynchronous.py:636-644 | a failed start restores the record, or drops it when it was discarded meanwhile |
| `AsyncEvaluator.AsyncJoblibEvaluator.ActivateResumed` | src/variopt/evaluators/joblib/asynchronous.py:649-655 | the started batch becomes active, or is dropped when it was discarded meanwhile |
| `AsyncEvaluator.AsyncJoblibEvaluator.DiscardSuspendedBatch` | src/variopt/evaluators/joblib/asynchronous.py:1835-1838 | a suspended record is dropped; a resumption in progress is marked |
| `AsyncProtocol.MoveRunsBlock` | src/variopt/evaluators/joblib/asynchronous.py:1402-1490 | every move of a waiter or a drain worker changes the shared lifecycle state by at most one block |
| `AsyncDelivery.MoveShape` | src/variopt/evaluators/joblib/asynchronous.py:258-313 | every interleaving keeps the queues within capacity, events with the generation of their attempt, and every request that is not completed in the running attempt |
| `AsyncDelivery.RetiredDeliversAll` | src/variopt/evaluators/joblib/asynchronous.py:1639-1642 | a batch retired by completion has delivered exactly the indices below its size, each once |
| `AsyncDelivery.UndeliveredIsRunning` | src/variopt/evaluators/joblib/asynchronous.py:1132-1144 | every undelivered request of an active batch is among the inputs of its current attempt, also after retries and resumptions |
| `AsyncDelivery.QueuesBounded` | src/variopt/evaluators/joblib/asynchronous.py:196-228 | the handoff queue never exceeds its capacity |
| `AsyncExactlyOnce.NoDuplicateUnlessStale` | src/variopt/evaluators/joblib/asynchronous.py:1632-1655 | with any number of waiters, the duplicate failure needs a result committed after its batch was retried |
| `AsyncSingleWaiter.NoDuplicateWithOneWaiter` | src/variopt/evaluators/joblib/asynchronous.py:1632-1655 | with one waiter per batch and a backend that yields each index at most once, the duplicate failure is unreachable |
| `AsyncDuplicates.DuplicatesExactly` | src/variopt/evaluators/joblib/asynchronous.py:1430-1441 | the check for a stale event and the commit are two lock blocks: with any number of waiters some run fails a batch as a duplicate exactly when the retry limit is positive |
| `AsyncDuplicates.NoDuplicateWithoutRetries` | src/variopt/evaluators/joblib/asynchronous.py:1126-1130 | without retries no run of any number of waiters fails a batch as a duplicate |
| `AsyncDuplicates.TwoWaitersCanDuplicate` | src/variopt/evaluators/joblib/asynchronous.py:1430-1441 | for every worker count and positive retry limit, a run of two waiters that loses its batch to a duplicate |
| `AsyncExhaustion.NoExhaustionFailure` | src/variopt/evaluators/joblib/asynchronous.py:1443-1469 | with one waiter per batch and a backend whose attempts end only after yielding every input, unless aborted, no active batch is retried or failed for exhaustion |
| `AsyncProgress.AdmitsExactly` | src/variopt/evaluators/joblib/asynchronous.py:1430-1441 | a waiter goes on with its event exactly when it still owns the batch and the event is of the running attempt |
| `AsyncProgress.TakesOldest` | src/variopt/evaluators/joblib/asynchronous.py:1404-1415 | a waiter takes the oldest event of the attempt it looks at, and no other |
| `AsyncProgress.LooksAgainExactly` | src/variopt/evaluators/joblib/asynchronous.py:1416-1428 | where there is nothing to take, only a blocking call that still owns its batch looks again |
| `AsyncProgress.CollectsExactly` | src/variopt/evaluators/joblib/asynchronous.py:1402-1407 | a call collects from the batch object that is active when it starts |
| `AsyncProgress.GivingUpEnds` | src/variopt/evaluators/joblib/asynchronous.py:1482-1490 | a waiter that gives up the batch it owns ends it |
| `AsyncProgress.PutsExactly` | src/variopt/evaluators/joblib/asynchronous.py:258-313 | a worker hands its event on exactly when there is room, behind all others, and otherwise looks again whether it is aborted |
| `AsyncProgress.CapacityExactly` | src/variopt/evaluators/joblib/asynchronous.py:196-228 | in every run a queue has room for all results of its attempt and its end, or for two results per worker and the end, and never holds more |
| `AsyncProgress.OtherFailuresEnd` | src/variopt/evaluators/joblib/asynchronous.py:1443-1490 | a failure other than a broken pool ends the batch without a retry |
| `AsyncProgress.SpentRetriesEnd` | src/variopt/evaluators/joblib/asynchronous.py:1443-1490 | a broken pool or an exhausted stream ends the batch when the retries are spent |
| `AsyncProgress.AbortedPutsNothing` | src/variopt/evaluators/joblib/asynchronous.py:258-313 | whatever happens after an abort, the queue of the attempt is the rest of what it was |
| `AsyncProgress.AbortEndsWorker` | src/variopt/evaluators/joblib/asynchronous.py:258-313 | an event whose worker has not been cleared before the abort is dropped with the worker |
| `AsyncProgress.AbortsUnused` | src/variopt/evaluators/joblib/asynchronous.py:1728-1731 | whoever takes a batch out of use can abort its running attempt |
| `AsyncProgress.RetryAborts` | src/variopt/evaluators/joblib/asynchronous.py:1122-1151 | a retry within the limit aborts the attempt it replaces and starts one over the remaining requests |
| `AsyncProgress.CompletesInAnyOrder` | src/variopt/evaluators/joblib/asynchronous.py:1391-1490 | for every order of the requests there is a run that delivers them in that order and completes the batch |
| `BatchSession.SessionsStayConsistent` | src/variopt/evaluators/joblib/batches.py:390-416 | after any calls the reported counts partition the batch, and terminal sessions stay as they are |
| `BatchSession.SessionFollowsDelivery` | src/variopt/evaluators/joblib/batches.py:390-400 | the session counts what the evaluator delivered, however many groups a call brings, and completes exactly when the batch is retired |
| `BatchSession.SessionRunsExactly` | src/variopt/evaluators/joblib/batches.py:301-443 | an active session counts what calls bring until the first one that completes, fails, cancels or suspends it, and that one decides its lifecycle and count for good, apart from cancelling a suspended one |
| `BatchSession.CancelStands` | src/variopt/evaluators/joblib/batches.py:373-388 | cancelling an active or suspended session ends its batch in the evaluator, by the call that fits; any other is left alone |
| `BatchSession.SuspendStands` | src/variopt/evaluators/joblib/batches.py:419-443 | a suspended session stands for the suspended record, with its count |
| `BatchSession.FailureStands` | src/variopt/evaluators/joblib/batches.py:320-328 | a batch that fails ends its session as failed, or as cancelled when the failure says so |
| `BatchSession.ResumablePendingAwareAsyncJoblibBatchSession.constructor` | src/variopt/evaluators/joblib/batches.py:258-287 | a session starts active |
| `BatchSession.ResumablePendingAwareAsyncJoblibBatchSession.PollOrWait` | src/variopt/evaluators/joblib/batches.py:301-371 | counts and lifecycle after groups, after a failure, and when not active |
| `BatchSession.ResumablePendingAwareAsyncJoblibBatchSession.CancelSession` | src/variopt/evaluators/joblib/batches.py:373-388 | only active and suspended sessions become cancelled |
| `BatchSession.ResumablePendingAwareAsyncJoblibBatchSession.SuspendSession` | src/variopt/evaluators/joblib/batches.py:419-443 | the count is taken from the resume handle |
| `BatchSession.ResumablePendingAwareAsyncJoblibBatchSession.State` | src/variopt/evaluators/joblib/batches.py:403-416 | the summary meets its own check |
| `MaxMinAllocator.RoundRobinIsLevel` | src/variopt/study/execution.py:294-335 | granting one unit at a time in index order always leaves a water level behind |
| `MaxMinAllocator.AllocationIsFeasible` | src/variopt/study/execution.py:289-335 | the limits sum to the available units, or to all preferences, and each is between 1 and its preference |
| `MaxMinAllocator.AllocationIsBalanced` | src/variopt/study/execution.py:307-320 | limits below their preferences differ by at most one, the extra units on the lowest indices |
| `MaxMinAllocator.AllocationIsMonotone` | src/variopt/study/execution.py:280-335 | raising the available units never lowers a limit |
| `MaxMinAllocator.AllocationIsMaxMin` | src/variopt/study/execution.py:280-335 | no feasible allocation has a lexicographically larger ascending limit vector |
| `MaxMinAllocation.MaxMinEvaluationLimits` | src/variopt/study/execution.py:280-335 | the sort-and-water-fill algorithm terminates, stays in bounds, and gives exactly the one-unit-at-a-time round robin |
| `EvaluationLedger.EvaluationBudget.Create` | src/variopt/execution.py:32-37 | a negative budget is refused |
| `EvaluationLedger.EvaluationBudget.Consume` | src/variopt/execution.py:66-87 | a negative or too large count is refused without change |
| `EvaluationLedger.EvaluationReservationBatch.Reserve` | src/variopt/execution.py:113-153 | all limits are reserved at once, or the ledger is untouched |
| `EvaluationLedger.EvaluationReservationBatch.Settle` | src/variopt/execution.py:177-230 | well-formed counts are retained and the rest refunded; malformed ones finalize without refund |
| `EvaluationLedger.EvaluationReservationBatch.Forfeit` | src/variopt/execution.py:232-246 | finalizes once, refunds nothing |
| `EvaluationLedger.SettledCost` | src/variopt/execution.py:202-226 | counts are trusted exactly when they align with the limits and none is negative or beyond its limit |
| `EvaluationLedger.FreshRunConserves` | src/variopt/execution.py:61-246 | over any interleaving, remaining, reserved, retained and forfeited units add up to the initial budget, and remaining stays within it |
| `EvaluationLedger.FinalizedStaysFinal` | src/variopt/execution.py:243-246 | a reservation is finalized once |
| `EvaluationLedger.SettleRefundsExactly` | src/variopt/execution.py:177-230 | exactly the well-formed settlements refund |
| `EvaluationLedger.ReservesExactly` | src/variopt/execution.py:113-153 | a reservation is taken exactly when there are limits, all positive, that fit together; otherwise nothing changes and the first thing wrong is reported |
| `EvaluationLedger.ConsumesExactly` | src/variopt/execution.py:66-87 | a count is taken exactly when it is one and the budget has it |
| `EvaluationLedger.ForfeitsExactly` | src/variopt/execution.py:232-246 | forfeiting finalizes an open reservation and touches nothing else |
| `EvaluationLedger.FirstBadCount` | src/variopt/execution.py:202-226 | the first untrusted count decides why a settlement is malformed |
| `RunHistory.BestIndex` | src/variopt/artifacts/terminal.py:864-868 | the best success is the first one with the least score |
| `RunHistory.TraceValueForRecords` | src/variopt/study/common.py:470-501 | one pass gives the value of the first record with the least score, and none when a record is no scalar observation |
| `RunHistory.SnapshotsAreStable` | src/variopt/study/common.py:90-122 | a snapshot projects exactly the history it was taken of, whatever is appended later |
| `RunHistory.AppendCovered` | src/variopt/study/assimilation.py:150-164 | the history counts at least what its attempts cost |
| `RunHistory.AppendTells` | src/variopt/study/assimilation.py:150-164 | a step adds one trace event with the numbers of its attempts, successes and failures and the value of its first success with the least score |
| `RunHistory.RecordsInOrder` | src/variopt/study/assimilation.py:150-164 | each attempt enters the history behind all earlier ones of its kind |
| `RunHistory.StudyRunHistory.constructor` | src/variopt/study/assimilation.py:143-148 | a new history is empty |
| `RunHistory.StudyRunHistory.AppendStep` | src/variopt/study/assimilation.py:150-164 | successes, failures, trace and count grow by one step |
| `RunHistory.StudyRunHistory.CheckpointSnapshot` | src/variopt/study/assimilation.py:166-188 | the cut is at the current lengths |
| `RunHistory.StudyRunHistory.ToReport` | src/variopt/study/assimilation.py:190-220 | the report, refused when it counts less than its attempts cost |
| `RunHistory.StudyRunHistory.CheckpointReport` | src/variopt/study/assimilation.py:222-247 | the projection to a cut |
| `StudyRunSafety.StepIsCharged` | src/variopt/study/execution.py:878-1043 | a step counts what the ledger lost, at least its attempts' cost, through runner charges, unmetered kernel cost and episodes |
| `StudyRunSteps.KernelChargesExactly` | src/variopt/study/execution.py:263-277 | kernel path in cost mode: a step counts the larger of its reported cost and what the runner charged, the ledger loses just that, and it is exhausted exactly when the reported cost exceeds what there was before |
| `StudyRunSteps.ChargedExactly` | src/variopt/study/execution.py:1012-1030 | sub-batches are charged in turn; the first that does not fit stops a kernel that does not catch the refusal |
| `StudyRunSteps.EpisodesExactly` | src/variopt/study/execution.py:372-441 | episodes are run exactly in cost mode with a positive preference for every request and a unit each, within the round-robin limits |
| `StudyRunSteps.EpisodesChargeExactly` | src/variopt/study/execution.py:442-477 | a reservation is settled exactly when every episode stays within its limit; otherwise all of it is lost |
| `StudyRunSteps.AskedExactly` | src/variopt/study/execution.py:900-951 | when there is a batch to ask for, and which requests it gives |
| `StudyRunSteps.StepCountsExactly` | src/variopt/study/execution.py:878-1043 | what a completed step counts and charges, on all paths: the larger of reported cost and runner charge in cost mode, the reported cost in slot mode |
| `StudyRunSteps.StepCompletesExactly` | src/variopt/study/execution.py:878-1043 | a step completes exactly when there is a batch to ask for, it is evaluated and its feedback materializes; otherwise that failure is raised and the charges stay |
| `StudyRunSteps.AskFailsWith` | src/variopt/study/execution.py:900-951 | why asking fails, in the order of the checks |
| `StudyRunSteps.EvaluationFailsWith` | src/variopt/study/execution.py:372-477 | why an evaluation fails: an invalid preference, a failure of episodes or kernel, attempts that do not align, costs beyond their limits, or nothing left to pay them |
| `StudyRunSteps.RunFollowsMethod` | src/variopt/study/execution.py:1265-1336 | every head of a run comes from the one before by one ask for the right size, one attempt per request, and one tell of them |
| `StudyRunSteps.RunEndsRightly` | src/variopt/study/execution.py:1265-1359 | a run that ends has used up its budget, is exhausted, stands at a checkpoint boundary, or shows the step or the tell that raised |
| `StudyRunSafety.BudgetIsConserved` | src/variopt/study/execution.py:1265-1336 | cost mode: at every loop head the history counts exactly what the ledger has lost |
| `StudyRunSafety.CostModeReportsAccepted` | src/variopt/artifacts/terminal.py:643-669 | cost mode: no terminal, partial or checkpoint report trips the accounting check |
| `StudyRunSafety.SlotModeFailure` | src/variopt/study/execution.py:1293-1304 | slot mode: the partial report of a failed step is refused, and the bare cause raised, exactly when the attempts cost more than their number |
| `StudyRunSafety.SlotModeLosesReport` | src/variopt/study/assimilation.py:291-311 | a run that shows this |
| `StudyRunSafety.ReportsRefusedExactly` | src/variopt/study/execution.py:1293-1359 | in either mode no final report is refused, and a failure loses its reports exactly when, in slot mode, a step raises behind attempts that cost more than their number |
| `StudyRunSafety.CheckpointsAreAligned` | src/variopt/study/execution.py:1250-1359 | under checkpointing every returned or attached pair is the latest safe state with exactly the history that existed then |
| `StudyRunSafety.RunStopsAtBoundary` | src/variopt/study/execution.py:1329-1336 | a checkpointed run stops at the first safe state behind an unsafe one |
| `StudyRunSafety.EndsExactly` | src/variopt/study/execution.py:1265-1336 | a run ends exactly when at some point it has made as many iterations that are not free as its budget has units |
| `StudyRunSafety.RunsEnd` | src/variopt/study/execution.py:1265-1336 | a run ends within as many iterations as its budget has units, in slot mode always, in cost mode when none of its own is free |
| `StudyRunSafety.FreeRunNeverEnds` | src/variopt/study/execution.py:1265-1336 | any run at a place from which every iteration is free and leads to another such place never ends |
| `StudyRunSafety.FreeRunExists` | src/variopt/study/execution.py:1265-1336 | such runs exist |
| `StudyRunMethod.ConsumeReportedEvaluationCost` | src/variopt/study/execution.py:263-277 | only what the runner has not consumed yet is charged |
| `StudyRunMethod.ReserveEpisodes` | src/variopt/study/execution.py:406-441 | preferences in request order, then allocation, then one reservation, which cannot fail |
| `StudyRunMethod.RunReserved` | src/variopt/study/execution.py:442-477 | hard failures and misaligned results forfeit the reservation, accepted costs settle it |
| `StudyRunMethod.EvaluateRequestLocalEpisodes` | src/variopt/study/execution.py:372-477 | the episode path, or nothing when it does not apply |
| `StudyRunMethod.RunKernelBatch` | src/variopt/study/execution.py:1012-1030 | the kernel path with runner charges and reconciliation |
| `StudyRunMethod.EvaluateStepFeedback` | src/variopt/study/execution.py:878-1043 | one step up to its feedback, and what it leaves of the ledger |
| `StudyRunMethod.RaiseRunExecutionFailed` | src/variopt/study/assimilation.py:249-311 | a refused projection raises the original cause |
| `StudyRunMethod.Run` | src/variopt/study/execution.py:1172-1359 | the run loop over budget, reservation and history objects ends as the loop on values does |
| `DirectScalar.EvaluatedBatch` | src/variopt/evaluation_pipeline.py:254-303 | an invalid candidate is a hard failure of the batch, an objective exception a failed slot |
| `DirectScores.BatchExactly` | src/variopt/evaluation_pipeline.py:254-303 | a batch is evaluated exactly when all its candidates are valid, slot by slot as the objective says; otherwise the first invalid one decides |
| `DirectScores.BestIsOptimal` | src/variopt/direction.py:20-37 | no record has a better value than the first one with the least score: none smaller when minimizing, none larger when maximizing |
| `DirectScores.RunBestIsOptimal` | src/variopt/artifacts/records.py:130-141 | at every head of a run with the sequential evaluator the best success and every trace event have the best value found, as the objective gave it |
| `DirectScores.ReportBestIsOptimal` | src/variopt/artifacts/records.py:130-141 | so does every report that a run returns |
| `DirectScalar.HintsHarmlessExactly` | src/variopt/study/execution.py:915-937 | when skipping the kernel-hint hook makes no difference to a step, exactly |
| `DirectScalar.StepsAgree` | src/variopt/study/execution.py:668-746 | one fused step asks, charges and evaluates as the generic step with the direct kernel does |
| `DirectScalar.DirectRefinesRun` | src/variopt/study/execution.py:615-832 | the fused loop ends as the generic run projected to a scalar result: successes, failures, trace, count, state or failure, when the hint hook does not interfere at the heads that are reached |
| `DirectScalar.FusedHidesHintFailure` | src/variopt/study/execution.py:915-921 | a raising hint hook fails the generic run only |
| `DirectScalar.MaterializedUnchanged` | src/variopt/study/execution.py:1362-1421 | a returned report passes the scalar projection's check unchanged |
| `DirectScalar.MaterializedExactly` | src/variopt/study/execution.py:1362-1421 | the projection refuses exactly the reports that count less than their attempts cost |
| `DirectScalarMethod.EvaluateSlots` | src/variopt/study/execution.py:690-746 | the inner loop over proposals |
| `DirectScalarMethod.OptimizeDirectScalarSequential` | src/variopt/study/execution.py:615-832 | the fused loop over budget and history objects ends as the one on values does |
| `StaleAsyncMethod.StaleAsyncActiveBatchSession.PollCompletedGroups` | src/variopt/study/stale_async.py:134-165 | groups are checked for bounds, alignment and overlap, and their indices added |
| `StaleAsyncMethod.StaleAsyncActiveBatchSession.AddIndices` | src/variopt/study/stale_async.py:156-161 | the indices of one group, one at a time, unless one is completed already |
| `StaleAsyncMethod.FilterUnfinished` | src/variopt/study/stale_async.py:516-520 | finished sessions are dropped, the order kept |
| `StaleAsyncMethod.RunStaleAsync` | src/variopt/study/stale_async.py:338-573 | the nested loops over sessions, budget and history do, action by action, what the machine does |
| `StaleAsyncSafety.StepAccounts` | src/variopt/study/stale_async.py:399-521 | every action keeps the accounting of slots, costs and history |
| `StaleAsyncReports.CostModeAccounting` | src/variopt/study/stale_async.py:399-521 | cost mode: the ledger has lost the larger of cost and slots of every assimilated group and the slots in flight; these stay within one batch and all submitted slots within the budget |
| `StaleAsyncReports.SlotModeOvershoot` | src/variopt/study/stale_async.py:415-431 | slot mode: assimilated slots are at most the budget and one batch less one, however the run ends |
| `StaleAsyncOvershoot.OvershootAttained` | src/variopt/study/stale_async.py:491-514 | for every budget and batch size a run attains this bound |
| `StaleAsyncReports.AllToldOnExit` | src/variopt/study/stale_async.py:429-521 | on normal exit every submitted request has been told exactly once |
| `StaleAsyncReports.StaleCostModeReportsAccepted` | src/variopt/study/stale_async.py:523-573 | cost mode: no report of a stale run is refused |
| `StaleAsyncReports.StaleSlotModeReports` | src/variopt/study/stale_async.py:455-462 | slot mode, with checkpoints or without: a final report is refused exactly when the attempts it shows cost more than their number, and a failure loses its reports exactly when those of the partial or the checkpoint report do |
| `StaleAsyncReports.StaleCheckpointsAligned` | src/variopt/study/stale_async.py:471-487 | under checkpointing every returned or attached pair is the latest safe told state with its own history |
| `StaleAsyncBoundary.StaleRunsRightly` | src/variopt/study/stale_async.py:399-573 | every state of a run comes from the one before by an ask, or by a tell of the group assimilated then; a run that ends stands at its boundary, is drained, or shows what raised |
| `StaleAsyncBoundary.StaleStopsAtBoundary` | src/variopt/study/stale_async.py:471-487 | a checkpointed run goes on over every safe told state without an unsafe one before it, and stops at the first one that has one |
| `StaleAsyncBoundary.AcceptedExactly` | src/variopt/study/stale_async.py:134-165 | a poll is accepted exactly when every group fits the open requests and no two overlap; then just their indices are completed |
| `StaleAsyncBoundary.PolledExactly` | src/variopt/study/stale_async.py:433-437 | a poll raises, is refused, or gives the groups that are assimilated next |
| `StaleAsyncBoundary.GroupTakenExactly` | src/variopt/study/stale_async.py:438-487 | a group is taken exactly when it materializes, can be paid and can be told; a refused one leaves no trace |
| `StaleAsyncBoundary.OpenedExactly` | src/variopt/study/stale_async.py:399-428 | a batch is opened exactly when there is something to ask for, its slots can be paid and the evaluator takes it; the slots of one it does not take stay charged |
| `StaleAsyncBoundary.OpenSessionsInOrder` | src/variopt/study/stale_async.py:516-520 | sessions that stay open keep their order |
| `StaleAsyncBoundary.RoundPollsEach` | src/variopt/study/stale_async.py:432-433 | a round polls each session that was open at its start once, in order |
| `StaleAsyncRefill.NeverIdle` | src/variopt/study/stale_async.py:491-514 | with a method that always has something to propose, a whole window of slots is in flight wherever a run gets to, or as many as the budget still has |
| `CandidateCodec.HexReadsWhatItWrites` | src/variopt/spaces/serialization.py:358-370 | a hexadecimal text that is accepted is, white space and case apart, the text of the bytes read |
| `CandidateCodec.HexRoundTrip` | src/variopt/spaces/serialization.py:225-229 | bytes survive their hexadecimal text |
| `CandidateCodecLaws.EncodesExactly` | src/variopt/spaces/serialization.py:215-280 | encoding succeeds exactly for supported finite candidates within the depth limit |
| `CandidateCodecLaws.RoundTrip` | src/variopt/spaces/serialization.py:62-184 | an encoding decodes to its candidate exactly when the weighted depth, with three levels for an escaped mapping, is at most 256; it is refused as too deep otherwise |
| `CandidateCodecLaws.EncodingIsInjective` | src/variopt/spaces/serialization.py:62-90 | different candidates have different encodings, apart from the kind of mapping |
| `CandidateCodecLaws.ChainIsLost` | src/variopt/spaces/serialization.py:154-184 | for every depth from 86 to 256 a candidate that encodes and whose encoding is refused |
| `CandidateCodecLaws.DecodedEncodes` | src/variopt/spaces/serialization.py:321-411 | whatever a payload decodes to can be encoded again |
| `CandidateCodecFormat.HexReadsExactly` | src/variopt/spaces/serialization.py:358-370 | hexadecimal texts are read exactly when they spell bytes with digits of either case and white space anywhere but inside a byte |
| `CandidateCodecFormat.HexAt` | src/variopt/spaces/serialization.py:225-229 | two lower-case digits per byte are written |
| `CandidateCodecFormat.DecodesExactly` | src/variopt/spaces/serialization.py:283-411 | a payload decodes to a candidate exactly when it means it, by a definition of the wire format without depths or errors, and has no more levels than the limit |
| `CandidateCodecFormat.EncodingMeans` | src/variopt/spaces/serialization.py:187-280 | an encoding means its candidate and has the candidate's weighted depth as its levels |
| `CandidateCodecFormat.WrittenPlainly` | src/variopt/spaces/serialization.py:187-280 | a mapping is written under its own keys unless its only key is reserved, byte strings under their markers |
| `CandidateCodecFormat.EncodingFailsWith` | src/variopt/spaces/serialization.py:187-280 | an encoding that fails tells why: too many levels, a float that is not finite, or an unsupported part |
| `CandidateCodecFormat.DecodingFailsWith` | src/variopt/spaces/serialization.py:283-411 | a payload that is refused tells why: too many levels, or a part that means nothing |
| `StructuredEdits.LeafPathsReadable` | src/variopt/spaces/composites/array_space.py:279-317 | the declared leaf paths are exactly those that can be read |
| `StructuredEdits.LeafPathsDistinct` | src/variopt/spaces/composites/array_space.py:185-202 | no leaf is declared twice |
| `StructuredEdits.LeavesDetermine` | src/variopt/spaces/composites/array_space.py:185-202 | candidates that agree on all declared leaves are equal |
| `StructuredEdits.ReplacedIsValid` | src/variopt/spaces/composites/array_space.py:346-390 | a replacement that succeeds gives a valid candidate |
| `StructuredEdits.ReadAfterReplace` | src/variopt/spaces/composites/array_space.py:346-390 | edited leaves read back their canonical new values, all other declared leaves their old ones |
| `StructuredEditsExactly.SucceedsExactly` | src/variopt/spaces/composites/array_space.py:346-390 | a replacement succeeds exactly when every declared path gets a value within the bounds, equal to a declared choice or below the permutation's size, every other path goes on below a scalar leaf, and no permutation gets a number twice |
| `StructuredEditsExactly.ReadsBackEdit` | src/variopt/spaces/scalar.py:766-792 | an edited leaf reads back a value equal to the edit: the declared choice, or the value itself, never another one |
| `StructuredEditsExactly.ValidLeafExactly` | src/variopt/spaces/scalar.py:533-556 | valid leaves are those within the bounds, the declared choices, and the arrangements of all numbers below the size |
| `StructuredEditsExactly.NumbersCompareByValue` | src/variopt/spaces/scalar.py:840-845 | numbers of different types are equal when their values are |
| `StructuredEditsExactly.MatchesFirst` | src/variopt/spaces/scalar.py:840-845 | the match is the first equal choice, and in a declared space the only one |
| `StructuredEdits.ReplaceTwice` | src/variopt/spaces/composites/array_space.py:346-390 | two replacements in a row are one with the merged edits |
| `StructuredEdits.DisjointEditsCommute` | src/variopt/spaces/composites/array_space.py:346-390 | disjoint edits commute when each order succeeds |
| `StructuredEdits.WriteBack` | src/variopt/spaces/composites/array_space.py:346-390 | writing back what is there changes nothing |
| `StructuredEdits.UndeclaredEditsIgnored` | src/variopt/spaces/scalar.py:766-792 | edits of undeclared paths fail or have no effect |
| `StructuredEdits.EditsExtendLeaves` | src/variopt/spaces/permutation.py:303-313 | a replacement succeeds only if each of its paths is declared or goes on below a scalar leaf |
| `StructuredEdits.UndeclaredRefusedExactly` | src/variopt/spaces/permutation.py:303-313 | an undeclared path is refused exactly when it does not go on below a scalar leaf |
| `StructuredEdits.BelowScalarExtendsLeaf` | src/variopt/spaces/scalar.py:766-792 | a path below a scalar leaf is undeclared and has a declared one strictly before it |
| `StructuredEdits.EditBelowScalarIsLost` | src/variopt/spaces/scalar.py:785-787 | for every space, an edit below a scalar leaf changes nothing about a replacement, not even whether it succeeds |
| `StructuredEdits.CheckedAgrees` | src/variopt/spaces/composites/adapters.py:1313-1386 | for a valid candidate the validating and the validated path agree |
| `StructuredEditMethods.GroupChildReplacements` | src/variopt/spaces/composites/adapters.py:871-902 | grouping loses nothing, makes no empty group, and fails exactly on an empty path |
| `StructuredEditMethods.NormalizePermutationValues` | src/variopt/spaces/permutation.py:15-63 | accepts exactly the permutations, with its table of seen values |
| `StructuredEditMethods.ListLeafPaths` | src/variopt/spaces/composites/array_space.py:185-202 | paths appended index by index |
| `StructuredEditMethods.ReplaceLeafValues` | src/variopt/spaces/composites/array_space.py:346-390 | edited children are replaced in a copy of the list |
| `StructuredEditMethods.ReplacePositions` | src/variopt/spaces/permutation.py:282-313 | positions are replaced in a copy, then normalized |
| `StructuredSpaces.MatchingChoice` | src/variopt/spaces/scalar.py:840-845 | the first declared choice that equals a scalar |
| `Frontier.DominatesObjectiveScores` | src/variopt/artifacts/terminal.py:1085-1121 | one pass decides dominance; mixed dimensions are an error |
| `Frontier.DominanceIsStrictOrder` | src/variopt/artifacts/terminal.py:1085-1121 | dominance is irreflexive, asymmetric and transitive |
| `Frontier.CollectNondominated` | src/variopt/artifacts/terminal.py:1155-1174 | the undominated entries in input order; fails exactly on mixed dimensions |
| `Frontier.KeptExactly` | src/variopt/artifacts/terminal.py:1155-1174 | the kept positions are all the undominated ones, ascending |
| `Frontier.DroppedIsCovered` | src/variopt/artifacts/terminal.py:1155-1174 | every dropped entry is dominated by a kept one |
| `Frontier.FrontierIsIdempotent` | src/variopt/artifacts/terminal.py:1155-1174 | the frontier of a frontier is itself |
| `Assembly.StoreCompletionGroup` | src/variopt/evaluators/async_evaluator/artifacts.py:200-241 | writes a group in place, or rejects it for bounds or overlap |
| `Assembly.StoringCounts` | src/variopt/evaluators/async_evaluator/artifacts.py:200-241 | a stored group fills exactly its own slots |
| `Assembly.StoredAllExactly` | src/variopt/study/common.py:279-320 | groups are accepted exactly when in bounds and without overlap, and fill the slots they cover |
| `Assembly.ArrivalOrderIrrelevant` | src/variopt/evaluators/async_evaluator/contracts.py:143-161 | groups in another order are accepted or rejected alike and fill the batch alike |
| `Assembly.Evaluate` | src/variopt/evaluators/async_evaluator/contracts.py:143-161 | the collection loop: its counter is the number of filled slots, it ends with the whole batch as soon as it is complete, and cancels exactly when a wait raises or a group is rejected while slots are open |
| `Episodes.BoundedRequestLocalEvaluationRunner.constructor` | src/variopt/evaluators/episodes.py:49-73 | nothing consumed yet |
| `Episodes.BoundedRequestLocalEvaluationRunner.Evaluate` | src/variopt/evaluators/episodes.py:97-133 | never more calls than the limit; a violating call is consumed all the same |
| `Episodes.ExecuteEpisode` | src/variopt/evaluators/episodes.py:255-313 | accepted exactly when one aligned attempt reports the positive cost that was consumed, whichever refused calls the kernel catches |
| `Episodes.CallsExactly` | src/variopt/evaluators/episodes.py:97-133 | an episode goes on until the first refusal its kernel does not catch, and consumes one evaluation per call within the limit |
| `Episodes.AcceptedEpisodesSettle` | src/variopt/study/execution.py:456-471 | costs of accepted episodes always settle their reservation |
| `Episodes.OrderedEpisodeAttempts` | src/variopt/evaluators/episodes.py:185-252 | indexed results are accepted exactly when the indices permute, each then at its own index |
| `DistanceView.ChainAgreesWithFresh` | src/variopt/diversity/space_metric.py:291-337 | after any chain of rebases that are told of all changes the view equals a fresh one and is aligned |
| `DistanceView.ChainDistancesAreTrue` | src/variopt/diversity/space_metric.py:357-393 | after any chain of rebases a distance is that of what the two candidates mean then, zero for the same position, and refused exactly outside the snapshot |
| `DistanceView.UncoveredChangeIsMissed` | src/variopt/diversity/space_metric.py:314-327 | a change that is not announced is missed |
| `DistanceView.DistancesFrom` | src/variopt/diversity/space_metric.py:395-456 | distances to any index list, with duplicates and the source, agree with single distances; one bad index fails all |
| `DistanceView.DistancesTo` | src/variopt/diversity/space_metric.py:458-487 | distances of any candidate to the whole snapshot agree with the scalar kernel |
| `SeedDerivation.StreamIsInjective` | src/variopt/randomness.py:528-557 | the hashed bytes determine namespace, snapshot fields and key list |
| `SeedDerivation.DerivationsDiffer` | src/variopt/randomness.py:484-557 | two derivations that differ in namespace, snapshot or keys are told apart by some digest: nothing is ignored |
| `SeedDerivation.SeedsInRange` | src/variopt/randomness.py:553-557 | seeds are the numbers below the largest 32-bit signed integer |
| `SeedDerivation.FrameLayout` | src/variopt/randomness.py:528-531 | a text comes after eight bytes with its length, the largest first |
| `SeedDerivation.DerivationPrefix` | src/variopt/randomness.py:528-550 | the prefix, field by field; an empty namespace is refused |
| `SeedDerivation.DerivedRandomSeed` | src/variopt/randomness.py:553-557 | the seed is the digest of the framed keys after the prefix, reduced |
| `SeedDerivation.DeriveSnapshot` | src/variopt/randomness.py:453-481 | one child |
| `SeedDerivation.DeriveSnapshots` | src/variopt/randomness.py:484-525 | children derived together are those derived alone |

## Left out

- Threads, joblib, process pools, time-outs and sleeping: a drain worker's and a
  waiter's steps are moves in any order, and a backend may yield, fail or end at any
  point.
- Payloads of asynchronous results: an event carries the request index; what is
  delivered for an index is what was evaluated for it.
- Submission and collection of the asynchronous evaluator as single methods: their
  lock blocks are methods of `AsyncEvaluator`, and the code between the blocks is the
  moves of `AsyncProtocol`, on values.
- Clean-up after an abort, warnings and the joining of workers.
- Batch identifiers as strings, and the shared counter of the two streams: a batch
  is its number.
- `BaseException` in a step: only `Exception` is modelled, and only that forfeits a
  reservation.
- Materialization of payloads into records, other than that it may raise: attempts
  keep their slots.
- Exceptions from `is_exhausted` and `is_checkpoint_safe_state`, which the loops do
  not catch.
- Kernel hints beyond their number, and execution resources.
- Cancellation of open sessions when a stale run stops: it has no effect on the
  report.
- Exact-async batches within the generic run: they are one of the behaviours that
  kernel and evaluator may show.
- Multi-objective runs: the records of a run are scalar observations.
- Infinite and undefined floats in scores and objective values: the record layer
  refuses them, and scores are real numbers here.
- Cycles of containers and non-string keys in the codec: candidates are finite trees
  with string keys.
- Real-valued leaves, records, tuples and the coordinate projections of scalar
  spaces: they add no new case to the edits.
- Which exception a failing edit raises, and the type errors of boundary values.
- Square roots and overflow in distances: the final projection is any function.
- The BLAKE2 digest, the Mersenne Twister and the UTF-8 encoding: the first two are
  any functions, texts are their bytes.
- Population algorithms, geometry kernels and samplers.
