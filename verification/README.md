# A verified model of rushfind

rushfind is a `find` with two engines. The ordered engine walks the start paths
one entry at a time; the parallel engine lets workers pop tasks from stealable
queues and, in post-order, holds a directory back until everything below it is
done. Both evaluate one expression language, whose actions may run commands in
batches. This project models the parts of it in which mistakes are easy and
proves what those parts promise.

`dafny verify dfyconfig.toml` checks everything.

## How the model is laid out

**The parallel engine** (`Places`, `Barriers`, `Chunking`, `Scheduler`, `Ledger`,
`Engine*`). `Engine` is a machine of atomic steps: each load or store of a shared
flag, each change of the outstanding counter, each queue operation and each use
of the barrier table is one step of one worker, and a worker's control point is a
stack of frames, one per active call. `Move` says which worker goes next and what
the surroundings answer. A theorem about `Run(w, Initial(w, n), moves)` therefore
speaks about every number of workers and every interleaving, with and without
`-quit`, fatal errors and failing writes of diagnostics. The file tree is unfolded
into addresses (`Places`), so two ways to one directory are two places.
`Barriers`, `Chunking` and `Scheduler` hold the classes the engine shares, each
method proved against the function that the machine uses; the scheduler's methods
say what they do to the machine's one bag of tasks.

The invariant is one of custody (`Ledger`): every entry that has come into being
is in exactly one hand or settled, every record of the barrier table waits for
exactly the notifications that somebody still owes it, and every counted task is
somewhere. `EngineFrames`, `EngineSteps`, `EnginePreSteps` and `EngineRuns` show
that each step keeps it; `EngineTheorems`, `EngineOutcome`, `EngineProgress`,
`EngineMeasure`, `EngineBarriers`, `EngineCompletion` and `EngineStops` draw the
conclusions.

The step functions follow the code call by call: `StepBatchStart` and
`StepBatchLoop` are `run_postorder_pending_batch`, `StepVisiting`, `StepListing`,
`StepOpenRecord` and `StepSpillCheck` are `run_postorder_pending_root`,
`StepCompleting`, `StepEvaluating` and `StepQuitting` are `complete_postorder_entry`
and `run_postorder_resume`, `StepNotifying` is `notify_parent_barrier`, the `StepPre*`
functions are `run_preorder_pending_batch`, and `WorkerStep` is the loop of
`run_parallel_worker` with `pop_blocking` and `push_local`.

**The walk** (`Walker`, `WalkerLaws`, `WalkerReach`, `EngineAgainstWalk`). `WalkOrdered` is the loop
over an explicit stack; the reference is a recursive traversal of a file graph
that may be cyclic. `WalkerReach` says what is reached and handed out in terms of the
backend's answers alone. `EngineAgainstWalk` builds the world of the parallel engine
from the same backend and compares the two.

**Expressions** (`Expressions`, `Evaluation`, `EvaluationLaws`, `Optimizer`, `Traversal`,
`Pipeline`, `PipelineReports`). A
small direct evaluator is the reference for the evaluator that pauses at every
action, for the reordering optimiser, for the prune pre-pass and its plan, and
for the pipelined engine. Tests are a function of the predicate, actions an
oracle over the history of what has been dispatched.

**Time** (`Digits`, `Time`, `TimeWindows`, `LiteralTime`). Decimal strings of any
length, rounding to nanoseconds, saturating boundaries, the windows of the
relative tests, and the civil calendar in 32-bit arithmetic.

**Languages** (`Parser`, `ParserGrammar`, `Glob`, `GlobSpelling`, `GnuClasses`, `GnuLexer`,
`GnuSpelling`, `GnuPrinter`, `GnuRegex`, `GnuReferences`). The operator grammar of `find`
expressions (POSIX.1-2017 XCU, `find`, OPERANDS), glob patterns (XCU section 2.13)
and the lexer, parser and validation of GNU regular expressions (XBD sections 9.3
and 9.4). For each language there is a description of how things are written, apart
from the code that reads them, and a theorem that exactly this is read.

**Batches** (`ExecBatches`). `-exec … +` and `-execdir … +`.

## Findings

Where something one might expect of the code does not hold, there is an input that
shows it and the exact condition under which it holds.

- In pre-order the ordered walk reads the identity of an entry before handing it
  out, the parallel engine only afterwards. The two evaluate the same addresses if
  and only if the identity of every entry that has to be evaluated can be read
  (`EngineAgainstWalk.SameAddresses`, `UnreadableIdentityShows`).
- In pre-order a listing that breaks off is fatal for the parallel engine; in
  post-order, and in the ordered walk, it is only reported. A run that every worker
  has left was not cut short if and only if nobody asked to quit, nothing failed, and
  no listing breaks off in pre-order (`EngineCompletion.CompletionIsExact`,
  `BrokenListingIsFatal`).
- `PendingBatch::push` by itself can leave a batch above the limit, exactly when the
  path overflows the batch and does not fit on its own (`ExecBatches.PushKeepsLimit`,
  `PushCanExceedTheLimit`). The two `enqueue` methods keep the limit.
- Reordering keeps every verdict if and only if no test that may be moved fails
  (`Optimizer.ReorderingIsSafe`, `UnreadableDirectoryShows`).
- The prune pre-pass agrees with the evaluation of every expression made of some
  actions if and only if these succeed in whatever order they are dispatched
  (`Traversal.PrepassIsRight`, `FailingCommandStillPrunes`).
- The pipelined engine does not look for a stop between commits. If the flush never
  fails and does not forget failures, it agrees with the inline engine on every walk if
  and only if no evaluation asks to stop; if the flush can fail, it does so if none asks
  to stop, and only if none does where the flush then succeeds
  (`Pipeline.AgreeUnlessStopped`, `QuitTellsThemApart`). Plans that could ask for a stop
  run inline.
- An amount too large for 64-bit seconds counts as older than everything. Each test is
  right about all timestamps if and only if the amount fits or exceeds every age
  (`TimeWindows.WhenLessIsRight`, `WhenExactDayIsRight`, `WhenGreaterIsRight`,
  `HugeAmountIsWrong`). `n` minutes is wrong, too, about a baseline in the last minute
  of the 64-bit range (`WhenExactMinuteIsRight`).
- For rolling days the age floor(A) + one day matches none of `-n`, `n`, `+n`, and no
  other age does (`TimeWindows.DaysPartition`, `TwoDaysOldIsMissed`).
- A back reference is accepted if and only if some group with its number or a higher
  one is closed before it along its own way. So `((a)\1)` is accepted although its group
  is open and `(a\1)` is not; `(a)|\1` is refused and `(a)|(b)\1` is not
  (`GnuReferences.ValidationIsExact`, `OpenGroupsAndEarlierBranches`).
- The capture numbers of a regular expression are the true ones if and only if it has
  fewer than 65536 groups (`GnuRegex.FewGroupsStay`). With 65536 the last group gets
  the number 0 and no group is reported (`GnuRegex.TooManyGroupsWrap`).

## Model

| member | source | states |
|---|---|---|
| EngineTheorems.SubtreeFirst | src/parallel/worker.rs:511-833 | post-order, every schedule, cut short or not: when anything happens to an entry, everything below it has already been evaluated, passed over or reported, once |
| EngineTheorems.DescendantsFirst | src/parallel/worker.rs:511-833 | post-order, every schedule: each event at a descendant comes before each event at an ancestor |
| EngineTheorems.ParentsFirst | src/parallel/worker.rs:370-485 | pre-order, every schedule: an entry is touched only after its parent has been evaluated or passed over |
| EngineTheorems.NothingTwice | src/parallel/worker.rs:204-833 | in no run is an entry evaluated, passed over or reported twice |
| EngineTheorems.SettledIsFinal | src/parallel/worker.rs:204-833 | nothing happens to an entry after it has been settled |
| EngineOutcome.OutstandingIsExact | src/parallel/control.rs:44-58 | in every reachable state the outstanding counter is the number of tasks queued, held, or counted and not yet stored |
| EngineOutcome.IdleIsFinal | src/parallel/scheduler.rs:120-139 | once the counter is zero no task exists, none ever appears, and nothing more is evaluated |
| EngineOutcome.NoStuckRecord | src/parallel/postorder.rs:34-121 | barrier records that are all that is left of a run cannot exist |
| EngineOutcome.CompleteRun | src/parallel/worker.rs:204-311 | when all workers have left and no stop was asked for, the queue and the barrier table are empty, nothing was dropped, each reachable entry was settled once and exactly those to be evaluated were evaluated, once; which runs these are is the next row |
| EngineCompletion.CompletionIsExact | src/parallel/worker.rs:204-833 | when all workers have left: no stop was asked for if and only if no move asked to quit or failed and no listing breaks off in pre-order, and then the run is complete |
| EngineCompletion.CalmSchedulesComplete | src/parallel/worker.rs:204-833 | total correctness: over a tree of bounded height without such a listing, every schedule without quit and failures that cannot be continued has ended with all workers gone and everything evaluated, within the measure |
| EngineCompletion.CanBeCompleted | src/parallel/worker.rs:204-311 | every such schedule can be continued to one that all workers have left |
| EngineCompletion.BrokenListingIsFatal | src/parallel/worker.rs:447-467 | over a directory whose listing fails, every pre-order run without quit and other failures that all workers have left ended in a fatal stop, and there is such a run |
| EngineCompletion.BrokenListingIsReported | src/parallel/worker.rs:656-682 | in post-order the same tree is complete |
| EngineProgress.NeverStuck | src/parallel/scheduler.rs:120-139 | while a worker has not left, some worker can take a step |
| EngineProgress.StopIsFinal | src/parallel/worker.rs:210-217 | once new work is refused it stays so, tasks queued or on their way never become more, and no worker starts to run a task it was not running already |
| EngineStops.RaisedMeansRefused | src/parallel/control.rs:34-42 | in every reachable state a raised quit or fatal flag means that new work is refused, unless some worker stands between the two stores |
| EngineStops.StopRefusesWork | src/parallel/worker.rs:204-311 | whichever move of a run quit or failed: once its worker has let go of the stop, new work is refused |
| EngineStops.LaterTasksAreSilent | src/parallel/worker.rs:210-217 | end to end: after that, in every continuation, a worker that is not in the middle of a task never again adds an event to the log or touches the barrier table, whatever it pops |
| EngineStops.OneMoreEach | src/parallel/worker.rs:370-833 | end to end: after that every worker begins at most one more evaluation, in every continuation |
| EngineStops.WhatMayStop | src/parallel/worker.rs:370-833 | in a task exactly the evaluations may ask to quit, and exactly they and what writes a diagnostic may fail |
| EngineMeasure.RunsAreBounded | src/parallel/worker.rs:204-833 | over a tree of bounded height no schedule is longer than a measure of its initial state |
| EngineMeasure.StepDrops | src/parallel/worker.rs:204-833 | every step of every worker makes the measure smaller |
| EngineBarriers.BarrierAccounting | src/parallel/postorder.rs:75-121 | in every reachable state the count of a record is positive and equals the number of live parties that owe it a notification, plus what was dropped on the way to a stop; an absent record is owed none |
| EngineBarriers.NotifiedIsAlive | src/parallel/worker.rs:814-833 | a barrier that is about to be notified is in the table, in every run |
| EngineBarriers.ParentsAreSmaller | src/parallel/postorder.rs:35-73 | the barrier notified next has a smaller id, so a chain of notifications ends |
| EngineRuns.StepKeeps | src/parallel/worker.rs:204-833 | each step of the engine keeps its invariant |
| EngineRuns.RunKeeps | src/parallel/worker.rs:204-833 | the invariant holds in every reachable state |
| Ledger.PayFindsRecord | src/parallel/postorder.rs:75-121 | a notification that is due finds its record, with as many units outstanding as it counts |
| Ledger.ReleaseDirectoryStep | src/parallel/postorder.rs:87-121 | the last notification turns a waiting directory into a ready one, all its children settled |
| Ledger.ReleaseBatchStep | src/parallel/postorder.rs:97-121 | the last notification of a batch makes the one notification due for which the batch stands |
| Barriers.BarrierTable.BeginDirectory | src/parallel/postorder.rs:35-54 | a fresh id, and a record that counts the child units; all other records stay |
| Barriers.BarrierTable.BeginBatch | src/parallel/postorder.rs:56-73 | a fresh id, and a record that counts the roots of the batch |
| Barriers.BarrierTable.FinishSpilledChunk | src/parallel/postorder.rs:75-121 | a missing record is ignored, a count above one goes down, the last notification takes the record out and says what it releases |
| Chunking.ChunkAccumulator.Add | src/parallel/chunking.rs:32-43 | the child goes to the local batch up to the threshold, then to the buffer, which is closed as a chunk when full |
| Chunking.ChunkAccumulator.DrainAfterQuit | src/parallel/chunking.rs:45-50 | all spilled chunks and the buffer join the local batch, in order |
| Chunking.ChunkAccumulator.TakeSpilledChunks | src/parallel/chunking.rs:52-54 | hands out the closed chunks and forgets them |
| Chunking.ChunkAccumulator.Complete | src/parallel/chunking.rs:56-66 | the buffer, if any, becomes the last chunk |
| Chunking.WideDirectoriesAreSplit | src/parallel/chunking.rs:3-66 | while work is accepted: up to 32 children stay together; of more, the first 32 stay with the worker and the rest is handed out in order, 32 at a time, what is left over last |
| Chunking.NothingSplitWhenStopped | src/parallel/chunking.rs:32-50 | when work is refused nothing more is split off, and after a quit nothing is |
| Scheduler.GlobalControl.RequestQuit | src/parallel/control.rs:34-37 | sets the quit flag and refuses new work, nothing else |
| Scheduler.GlobalControl.RequestFatalStop | src/parallel/control.rs:39-42 | sets the fatal flag and refuses new work, nothing else |
| Scheduler.Scheduler.PushInject | src/parallel/scheduler.rs:72-80 | counts and stores the task, here and in the machine's one queue, if new work is accepted, and does nothing otherwise |
| Scheduler.Scheduler.PushLocal | src/parallel/scheduler.rs:89-96 | the same for the worker's own queue |
| Scheduler.Scheduler.PopNonblocking | src/parallel/scheduler.rs:102-118 | own queue first, then the injector, then the peers; no task is lost or doubled; nothing comes back only if all queues are empty |
| Scheduler.Scheduler.StealBatch | src/parallel/scheduler.rs:102-118 | the first injected task comes back, some that follow move to the worker's own queue, no task is lost or doubled |
| Scheduler.PopIsAMove | src/parallel/scheduler.rs:102-118 | taking a task out of the queues is a pop of the machine's one queue |
| Scheduler.PushIsAMove | src/parallel/scheduler.rs:89-96 | adding a task to a worker's queue adds it to the machine's one queue |
| Scheduler.InjectIsAMove | src/parallel/scheduler.rs:72-80 | the same for the injector |
| Scheduler.Scheduler.Pop | src/parallel/scheduler.rs:98-118 | whatever a pop takes, the machine can pop from its one queue; nothing comes back only if that queue is empty |
| EngineAgainstWalk.ParallelEvaluatesWhatIsWalked | src/parallel/worker.rs:370-485 | over a tree in which no listing breaks off in pre-order, whatever the schedule, a run without quit and failures that all workers have left evaluates exactly the multiset of entries, with path and depth, that the ordered walk hands out at or beyond the minimum depth, if in pre-order the identities of the entries to be evaluated can be read |
| EngineAgainstWalk.SameAddresses | src/walker.rs:225-231 | in such runs the two engines evaluate the same addresses if and only if the identity of every reachable entry that has to be evaluated in pre-order can be read |
| EngineAgainstWalk.UnreadableIdentityShows | src/parallel/worker.rs:411-438 | one file whose identity cannot be read: the ordered walk hands out nothing, every complete parallel run evaluates it |
| EngineAgainstWalk.UnbrokenMeansListable | src/parallel/worker.rs:447-467 | in terms of the file system: a listing breaks off in pre-order if and only if the children of some directory that is to be listed cannot be read |
| EngineAgainstWalk.ParallelRunsAreFinite | src/walker.rs:358-390 | with finitely many directory identities every parallel schedule ends, cyclic links or not |
| Walker.WalkOrdered | src/walker.rs:155-338 | the stack walk hands out the recursive traversal, errors in their places, numbered from zero, up to the event at which the consumer stops it or fails |
| Walker.VisitPending | src/walker.rs:188-335 | one turn of the loop hands out what is to come first and leaves on the stack exactly the rest of the traversal; the measure of the stack drops |
| WalkerReach.VisitIsDecided | src/walker.rs:188-335 | what visiting a path hands out, and in which order, case by case in terms of the answers of the backend: load, control, identity, prune, maximum depth, loop, device, children |
| WalkerReach.ChildrenAreVisited | src/walker.rs:317-414 | the k-th child of a path is visited if and only if the path is a known directory, not pruned, above the maximum depth, not among its ancestors, on the right device, and the backend lists a k-th child; with which path, depth, ancestry and device |
| WalkerReach.ListedChildrenAreWalked | src/walker.rs:317-332 | for such a directory the visit of each child is one piece of the whole walk |
| WalkerReach.NothingBelowPruned | src/walker.rs:366-368 | nothing at all is visited below a pruned entry |
| WalkerReach.PrunedStandsAlone | src/walker.rs:258-276 | visiting a pruned entry hands out that entry and nothing else |
| WalkerReach.MaxDepthHolds | src/walker.rs:409-414 | nothing deeper than the maximum depth is handed out |
| WalkerReach.HandedOutExactly | src/walker.rs:195-256 | an entry is handed out if and only if it is reached and its load, control answer and identity are known, and in post-order a directory only if it is no loop |
| WalkerLaws.DeliversPrefix | src/walker.rs:155-338 | what is handed out is a prefix of the traversal, a proper one only if the consumer ended the walk, which then ends at once |
| WalkerLaws.TicketsAreConsecutive | src/walker.rs:185-232 | the k-th ticket handed out carries the number k |
| WalkerLaws.AncestryIsDistinct | src/walker.rs:358-390 | along every way the ancestry has no duplicates, consists of known identities, and is as long as the entry is deep |
| WalkerLaws.DepthIsBounded | src/walker.rs:358-390 | no entry lies deeper than there are directory identities |
| WalkerLaws.OneFileSystem | src/walker.rs:375-385 | with `-xdev` every directory that is listed has the device of its start path |
| Evaluation.EvaluateOutcome | src/eval.rs:167-192 | pausing at every action and resuming with its outcome dispatches the same actions and has the same result as the direct evaluator; it ends |
| Evaluation.Drive | src/eval.rs:167-192 | driving any state of the machine gives what its pending expression and continuation mean |
| Evaluation.StepMeans | src/runtime_pipeline.rs:152-238 | a step of the machine keeps the meaning of expression and continuation |
| Evaluation.FinishMeans | src/runtime_pipeline.rs:240-335 | returning an outcome to a continuation keeps its meaning |
| Evaluation.StepShrinks | src/runtime_pipeline.rs:120-238 | each resumption leaves strictly less work |
| Evaluation.DirectLawful | src/eval.rs:42-52 | the final status is the join of the statuses of all dispatched actions, and after an answer that asks to stop nothing more is dispatched |
| EvaluationLaws.LeftToRight | src/runtime_pipeline.rs:152-335 | the dispatched actions are a subsequence of the actions of the expression read from left to right |
| EvaluationLaws.DeMorgan | src/runtime_pipeline.rs:208-217 | for every sink `l -o r` has the verdict of `! ( ! l ! r )`, dispatched actions included |
| EvaluationLaws.AndInTwo | src/runtime_pipeline.rs:240-282 | a conjunction in two parts: the second is reached, with the history and status of the first, if and only if the first matched and nobody asked to stop |
| EvaluationLaws.NothingAfter | src/runtime_pipeline.rs:254-266 | what follows an item that does not match, fails or asks to stop may be anything |
| EvaluationLaws.AndOfFew | src/runtime_pipeline.rs:169-206 | one item alone stands for itself, none at all is true |
| EvaluationLaws.NegationOnlyTurns | src/runtime_pipeline.rs:218-226 | negation turns the match around and changes neither history, status nor error; twice it does nothing |
| EvaluationLaws.TestsDispatchNothing | src/runtime_pipeline.rs:152-168 | a test dispatches nothing and its answer is the match; `-prune`, `-true` and `-false` ask nothing about the entry |
| EvaluationLaws.StatusMeans | src/eval.rs:42-52 | an evaluation has failed if and only if one of the actions it dispatched did, and asks to stop if and only if the last one did |
| Optimizer.OptimizeAndItems | src/optimizer.rs:65-80 | the pass over the items sorts each maximal run of reorderable leaves and keeps every other item in place |
| Optimizer.OptimizeReadOnlyAndChains | src/optimizer.rs:49-63 | the same in every and-chain of the expression |
| Optimizer.SortIsStable | src/optimizer.rs:82-85 | sorted by cost, a permutation, items of equal cost in their old order |
| Optimizer.StringsFirst | src/optimizer.rs:105-123 | constants move before names, names before regular expressions, these before types; tests of one kind keep their order and `-prune` its place |
| Optimizer.StatAfterType | src/optimizer.rs:112-142 | types move before what a stat tells, that before access checks, these before the time of birth |
| Optimizer.LookupsLast | src/optimizer.rs:123-148 | the emptiness of a directory comes after these, link targets and account lookups last |
| Optimizer.EveryRunIsSorted | src/optimizer.rs:65-85 | an item that is not a reorderable leaf separates what is arranged before it from what is arranged after it; a run alone is sorted |
| Optimizer.Idempotent | src/optimizer.rs:49-85 | optimising twice is optimising once |
| Optimizer.PreservesMeaning | src/optimizer.rs:49-103 | the optimised expression has the same verdict, unless a test that occurs in it fails and with it one of the two evaluations |
| Optimizer.PreservesVerdict | src/optimizer.rs:49-103 | when the tests that occur in the expression do not fail: same match, same actions in the same order, same status |
| Optimizer.ReorderingIsSafe | src/optimizer.rs:82-103 | every expression keeps its verdict with every sink if and only if no test that may be moved fails |
| Optimizer.FailingTestShows | src/optimizer.rs:98-148 | whatever test fails, followed by `-false` it is overtaken: the original fails, the optimised expression does not |
| Traversal.EvaluateForTraversal | src/traversal_control.rs:38-94 | the verdict built up in place is the recursive one |
| Traversal.AgreesWithEvaluation | src/traversal_control.rs:38-94 | when the tests that occur in the expression do not fail and its actions succeed, the pre-pass has the match of the full evaluation and prunes exactly the directories at which that evaluation comes to a `-prune` |
| Traversal.PrepassIsRight | src/traversal_control.rs:38-94 | where tests do not fail, for any set of actions: the pre-pass agrees about every expression made of them, or already about pruning, if and only if they succeed after whatever history of them |
| Traversal.FailingActionStillPrunes | src/traversal_control.rs:84-92 | whatever action does not succeed, after whatever actions before it, keeps the evaluation from `-prune`, not the pre-pass |
| Traversal.PlanGivesVerdict | src/runtime_policy.rs:63-96 | the projected plan, or its absence, gives the prune verdict of the expression as written |
| Traversal.PlanOnlyForPrune | src/runtime_policy.rs:63-96 | there is a pre-pass if and only if the walk is in pre-order and `-prune` occurs; it keeps all tests and no action |
| Traversal.PostOrderNeverPrunes | src/traversal_control.rs:84-88 | in post-order the pre-pass never prunes nor asks for the kind of the entry, and matches what it matches in pre-order |
| Traversal.UnknownKind | src/traversal_control.rs:84-88 | in pre-order, if the kind cannot be found out, the pre-pass fails with that or never reaches `-prune` |
| Traversal.OptimizerKeepsControl | src/optimizer.rs:49-103 | when the tests that occur in the expression do not fail, the optimiser changes neither the match nor the prune verdict of the pre-pass |
| Traversal.OptimizerIsSafeForControl | src/optimizer.rs:49-103 | it keeps all verdicts of the pre-pass if and only if no test that may be moved fails |
| Pipeline.OrderedReadyQueue.Add | src/runtime_pipeline.rs:109-111 | the item waits under its number |
| Pipeline.OrderedReadyQueue.PopNext | src/runtime_pipeline.rs:113-117 | the next number comes out if it is there |
| Pipeline.ReleaseAll | src/runtime_pipeline.rs:108-118 | whatever the order of arrival, 0..n come out in order, all of them |
| Pipeline.PopHolds | src/runtime_pipeline.rs:113-117 | the next number is released if and only if it has arrived |
| Pipeline.DrainedIsComplete | src/runtime_pipeline.rs:108-118 | when all have arrived and nothing can be popped, all have been released |
| Pipeline.RunInline | src/ordered/engine.rs:32-93 | the loop over the walk computes the records and the report that PipelineReports.InlineReport describes |
| Pipeline.RunPipeline | src/ordered/engine.rs:95-218 | whatever order the evaluators finish in, the records and the report are those that PipelineReports.PipelineReport describes |
| PipelineReports.InlineReport | src/ordered/engine.rs:32-93 | due entries are evaluated up to the first that fails or asks to stop; an error of the evaluation or the flush is the result; otherwise trouble is reported if and only if the walk had some before it ended, and failed actions if and only if the flush of what was recorded says so |
| PipelineReports.PipelineReport | src/ordered/engine.rs:95-218 | due entries are committed up to the first that fails; otherwise trouble is reported if and only if the walk had some, and failed actions if and only if one of the recorded actions or the flush answered that it failed |
| PipelineReports.RecordsFollowTheWalk | src/ordered/engine.rs:57-78 | what is recorded is a subsequence of the actions of the expression for each entry at or beyond the minimum depth, in the order of the walk |
| PipelineReports.OneActionForEach | src/ordered/engine.rs:57-78 | for one action alone it is all of them |
| Pipeline.PipelineIsInline | src/ordered/engine.rs:95-218 | for plans without commit-sensitive actions: the same records in the same order and the same report as the inline engine |
| Pipeline.AgreeUnlessStopped | src/ordered/engine.rs:32-218 | for any plan whose flush, when it succeeds, does not forget failures: pipelined and inline agree on every walk if no evaluation asks to stop, and only if none does where the flush then succeeds; if the flush never fails, if and only if none asks to stop |
| Pipeline.QuitTellsThemApart | src/ordered/engine.rs:228-237 | `-quit` alone: inline it stops at the first entry, piped it would go on |
| PipelineReports.PipedPlansOnlyPrint | src/ordered/engine.rs:228-242 | a plan is piped if and only if all its actions print to stdout or a file; so none can ask to stop |
| Digits.MultiplyDecimalDigits | src/time.rs:411-428 | the product of any digit string with a multiplier; the carry stays below the multiplier and intermediate values fit into 32 bits |
| Digits.IncrementDecimalDigits | src/time.rs:509-527 | the number plus one |
| Time.ParseAmount | src/time.rs:73-114 | accepts digits with at most one dot between digits; the amount read is the amount written, without superfluous zeros, the number of decimals taken modulo 2^32 |
| Time.AmountsAsWritten | src/time.rs:73-114 | well-formed amounts are exactly digits, or digits with one dot between them, and mean these digits |
| Time.DecimalsAreRead | src/time.rs:73-114 | a number written in decimal is read as itself |
| Time.QuantizedNanosecondsDigits | src/time.rs:430-457 | exactly the floor or ceiling in nanoseconds, for any number of digits and decimals |
| Time.ParseNonnegativeI64Digits | src/time.rs:483-493 | the number, if and only if it fits into an i64 |
| Time.QuantizedOffsetFromNanoseconds | src/time.rs:459-481 | seconds and nanoseconds, overflow if and only if the seconds exceed an i64 |
| Time.QuantizeOffset | src/time.rs:403-409 | exactly the floor or ceiling of amount times unit, split into seconds and nanoseconds; overflow if and only if the seconds exceed an i64 |
| TimeWindows.BoundaryIsExact | src/time.rs:347-401 | the saturated boundary compares with every timestamp like the exact instant, except that it lies after everything when a step up by a unit leaves the range, and before everything when the amount does not fit |
| TimeWindows.DayWindows | src/time.rs:298-345 | rolling days, for all amounts and timestamps: the exact ages accepted by `-n`, `n` and `+n`, both directions |
| TimeWindows.MinuteWindows | src/time.rs:298-345 | rolling minutes: the same, one unit lower for `n` and `+n`, and without lower end at the end of the 64-bit range |
| TimeWindows.DaystartWindows | src/time.rs:187-200 | `-daystart` with a fractional amount: the exact ages accepted, for all amounts and timestamps |
| TimeWindows.DaystartPartition | src/time.rs:165-200 | under `-daystart` exactly one of the three tests accepts for whole days that fit; otherwise exactly when two of them meet |
| TimeWindows.DaystartIsOrdered | src/time.rs:286-296 | under `-daystart` and for whole days that fit: `n` accepts the day that lies n days back, `-n` the later days and `+n` the earlier ones |
| TimeWindows.RelativeIsWindow | src/time.rs:165-200 | which window decides: minutes ignore `-daystart`, and calendar days count only under it and for whole amounts that fit |
| TimeWindows.UsedWindows | src/time.rs:219-240 | `-used`: the exact ages accepted, never before the status change |
| TimeWindows.DaysPartition | src/time.rs:250-265 | rolling days, for all amounts: `n` excludes the other two, exactly when `-n` and `+n` meet, and the one age none accepts |
| TimeWindows.TwoDaysOldIsMissed | src/time.rs:250-265 | a file exactly two days old is matched by none of `-1`, `1` and `+1` |
| TimeWindows.ExactMinuteIsLess | src/time.rs:250-265 | what `n` minutes accepts `-n` accepts too |
| TimeWindows.WhenLessIsRight | src/time.rs:381-401 | `-n` is right about all timestamps if and only if the amount fits or exceeds every age |
| TimeWindows.WhenGreaterIsRight | src/time.rs:381-401 | `+n` is right about all timestamps if and only if the amount fits or reaches every age |
| TimeWindows.WhenExactDayIsRight | src/time.rs:381-401 | `n` days is right about all timestamps if and only if the amount fits or exceeds every age |
| TimeWindows.WhenExactMinuteIsRight | src/time.rs:362-379 | `n` minutes: the same away from the end of the 64-bit range; about all timestamps only for amounts up to a nanosecond |
| TimeWindows.HugeAmountIsWrong | src/time.rs:381-401 | 153722867280912931 minutes and a timestamp 2^64 - 1 seconds old: `-n` accepts and `+n` refuses, both wrongly |
| LiteralTime.DaysFromCivil | src/literal_time.rs:488-500 | the formula, step by step in 32 bits without overflow within five million years, gives the day number |
| LiteralTime.EpochIsZero | src/literal_time.rs:488-500 | the first of January 1970 has number zero |
| LiteralTime.NextDayIsNextNumber | src/literal_time.rs:448-500 | the day after a valid date is valid and has the next number |
| LiteralTime.DaysAreMonotone | src/literal_time.rs:488-500 | earlier dates have smaller numbers |
| LiteralTime.DaysAreUnique | src/literal_time.rs:488-500 | a number belongs to one date |
| LiteralTime.TimestampsAreMonotone | src/literal_time.rs:419-434 | one timestamp is before another if and only if its date and wall-clock time, nanoseconds included, are earlier |
| LiteralTime.SecondsAreCounted | src/literal_time.rs:419-434 | midnight of 1970-01-01 is zero and each second on the wall clock is one second more, across the ends of minutes, hours, days, months and years; exactly invalid dates and times are refused |
| LiteralTime.ParseFractionalNanos | src/literal_time.rs:307-322 | the decimals in nanoseconds, rounded down |
| LiteralTime.ParseEpochSeconds | src/literal_time.rs:62-96 | exactly the decimal numbers whose seconds fit are accepted, and give their instant, also before the epoch |
| LiteralTime.SignsMean | src/literal_time.rs:62-96 | a minus sign makes the number negative, a plus sign may stand there |
| Parser.PrintThenParse | src/parser.rs:106-174 | printing a tree with minimal parentheses, in either spelling of the operators, and parsing it gives the tree and uses up all tokens |
| Parser.ParseThenPrint | src/parser.rs:80-174 | whatever is accepted, printing its tree gives tokens with the same tree |
| Parser.ParseTokens | src/parser.rs:34-41 | the cursor-driven parser decides the grammar |
| ParserGrammar.ParsesExactlyTheGrammar | src/parser.rs:80-174 | a token list is accepted with a tree if and only if the grammar derives it with that tree: redundant parentheses, mixed spellings of operators, arguments that look like operators and exec terminators included |
| ParserGrammar.Unclosed | src/parser.rs:161-174 | a group that is not closed is reported as such |
| ParserGrammar.LeftOver | src/parser.rs:80-104 | a closing parenthesis behind a complete expression is left over |
| ParserGrammar.OperandMissing | src/parser.rs:161-174 | no tokens, a closing parenthesis or a binary operator in place of the first operand: the error each gives |
| ParserGrammar.OperatorAtTheEnd | src/parser.rs:106-119 | an or-operator with nothing behind it wants an operand |
| ParserGrammar.AtomErrors | src/parser.rs:176-461 | when exactly an atom is unsupported, lacks an argument, has a bad one, or is not terminated |
| ParserGrammar.OtherNames | src/parser.rs:176-428 | flags with two names, and the tests `-newerXY` |
| ParserGrammar.Commands | src/parser.rs:176-461 | the flags that take a command, and the one with two arguments |
| Parser.Cursor.OrExpression | src/parser.rs:106-119 | disjunctions group to the left; the cursor stands behind what was parsed |
| Parser.Cursor.AndExpression | src/parser.rs:121-147 | conjunctions, explicit or implicit, as one list |
| Parser.Cursor.NotExpression | src/parser.rs:149-159 | negation binds tightest |
| Parser.Cursor.Primary | src/parser.rs:161-174 | groups and atoms, and the errors of unbalanced parentheses |
| Parser.Cursor.TakeExecAction | src/parser.rs:430-461 | the arguments up to the first `;` or `+`, which says whether paths are batched; an error if there is none |
| Glob.Matches | src/pattern/owned.rs:5-80 | backtracking decides the declarative meaning of a pattern in both slash modes |
| Glob.MatchesFrom | src/pattern/owned.rs:16-80 | the same from any atom and byte |
| Glob.ByteMatches | src/pattern/owned.rs:29-105 | one byte against one atom |
| Glob.CollapseKeepsMeaning | src/pattern/parse.rs:28-32 | collapsing adjacent stars does not change what is accepted |
| Glob.CompilePattern | src/pattern/parse.rs:9-46 | the index-driven compiler computes the compilation function |
| Glob.ParseClass | src/pattern/parse.rs:48-134 | the same for bracket expressions |
| Glob.PrintThenCompile | src/pattern/parse.rs:9-134 | compiling the quoted printout of a program without adjacent stars and empty classes gives the program |
| Glob.CompiledIsPrintable | src/pattern/parse.rs:9-134 | whatever compiles is such a program |
| Glob.CompileThenPrint | src/pattern/parse.rs:9-134 | a pattern and its quoted printout compile to the same program |
| GlobSpelling.CompilesExactlyTheWritten | src/pattern/parse.rs:9-134 | a pattern compiles to a program if and only if it is made of texts of its atoms: bytes quoted, or unquoted where they mean nothing else, runs of stars, bracket expressions |
| GlobSpelling.ClassReadsExactly | src/pattern/parse.rs:48-134 | the same for bracket expressions: sign, leading bracket, ranges, dashes that are no ranges, quoted bytes |
| GlobSpelling.FoldMeans | src/pattern/owned.rs:100-105 | without regard to case two bytes are the same exactly if they are equal or one letter in two cases |
| GlobSpelling.ItemsMean | src/pattern/owned.rs:82-98 | what a byte or a range of a class accepts, with and without regard to case |
| GlobSpelling.ClassMeans | src/pattern/owned.rs:82-98 | a class accepts what one of its items accepts, a negated class everything else |
| GlobSpelling.WildcardsAndSlashes | src/pattern/owned.rs:29-80 | where slashes are special no wildcard takes one, and that is all that stops `?` and `*` |
| GnuRegex.ParseIsLossless | src/regex_match/gnu.rs:634-731 | whenever the parser succeeds, flattening its tree returns the token list |
| GnuRegex.CapturesInOrder | src/regex_match/gnu.rs:709-720 | groups are numbered 1 up to the capture count in the order in which they open |
| GnuRegex.CapturesAreOpenings | src/regex_match/gnu.rs:709-720 | the capture count is the number of opening brackets |
| GnuLexer.LexTokens | src/regex_match/gnu.rs:158-253 | the loop over the bytes, with depth, possible operand and start of a branch carried along, computes the token list or the error of every dialect |
| GnuSpelling.LexesExactlyTheWritten | src/regex_match/gnu.rs:158-457 | for each dialect: a pattern is accepted with a list of tokens if and only if it is made of texts of these tokens, each possible in its context, with every group closed: escapes, quantifiers, bounds and their numbers, back references, word escapes, anchors, bracket expressions |
| GnuPrinter.PrintThenLex | src/regex_match/gnu.rs:158-457 | for each dialect: every list of tokens that the dialect can express is lexed back from its printout |
| GnuPrinter.LexThenPrint | src/regex_match/gnu.rs:158-457 | whatever is lexed can be expressed, and its printout is lexed to the same tokens |
| GnuPrinter.DecimalReads | src/regex_match/gnu.rs:422-457 | a bound written in decimal is read as its number |
| GnuClasses.ReadClass | src/regex_match/gnu.rs:459-518 | the loop over the items of a bracket expression, taking the last item back for a range, computes the reading function |
| GnuClasses.ClassReadsExactly | src/regex_match/gnu.rs:459-613 | a bracket expression is read if and only if its text stands there and its items read as themselves: a leading bracket, dashes, ranges in order, class names |
| GnuLexer.TokenMoves | src/regex_match/gnu.rs:158-420 | each token moves on, changes the depth by its bracket only, and in the basic and Emacs dialects is a quantifier only after an operand |
| GnuLexer.LexedIsBalanced | src/regex_match/gnu.rs:158-253 | what the lexer lets through has balanced groups |
| GnuLexer.QuantifiersFollow | src/regex_match/gnu.rs:236-244 | in the basic and Emacs dialects every quantifier follows a token that can be repeated |
| GnuLexer.LexedParses | src/regex_match/gnu.rs:634-731 | after the lexer no group is unclosed and no input trails: basic and Emacs tokens always parse, extended ones if and only if no quantifier starts a sequence |
| GnuRegex.ParsesUnlessStarved | src/regex_match/gnu.rs:645-707 | balanced tokens parse if and only if no quantifier stands at the start of a sequence |
| GnuReferences.ValidationIsExact | src/regex_match/gnu.rs:95-156 | a tree is accepted if and only if its bounds are in order and every back reference is at least 1 and at most the highest number of a group closed before it along its own way, by positions in the tree; the error reported is there |
| GnuRegex.AcceptedReferencesPointLeft | src/regex_match/gnu.rs:95-156 | in the token list every accepted back reference names a group that opens to its left |
| GnuRegex.WalkShows | src/regex_match/gnu.rs:100-152 | the validation walk returns the number of the last group opened, or what it was given if there is none |
| GnuReferences.OpenGroupsAndEarlierBranches | src/regex_match/gnu.rs:100-152 | a reference to an open group accepted and one refused; a reference to a group of an earlier branch accepted and one refused |
| GnuRegex.BackendByTokens | src/regex_match/gnu.rs:62-82 | the backtracking engine is chosen if and only if the pattern has a back reference or an assertion |
| GnuRegex.TokenParser.Parse | src/regex_match/gnu.rs:634-643 | the parser over its cursor and 16-bit counter computes the grammar, capture numbers modulo 65536 |
| GnuRegex.FewGroupsStay | src/regex_match/gnu.rs:709-720 | the numbers and the capture count are the true ones if and only if there are fewer than 65536 groups |
| GnuRegex.TooManyGroupsWrap | src/regex_match/gnu.rs:709-720 | 65536 empty groups: the last one gets the number 0, and the reported count is 0 |
| GnuRegex.WrappedCaptures | src/regex_match/gnu.rs:709-720 | in any tree the numbers are the true ones modulo 65536 |
| GnuRegex.WrappedFlattens | src/regex_match/gnu.rs:709-720 | wrapped or not, the tree stands for the same tokens |
| GnuRegex.TokenParser.ParseItems | src/regex_match/gnu.rs:658-707 | a sequence, repetitions applied to the item before them |
| GnuRegex.TokenParser.ParseBranches | src/regex_match/gnu.rs:645-656 | the branches of an alternation |
| GnuRegex.TokenParser.ParseGroup | src/regex_match/gnu.rs:709-720 | a group gets its number when it opens and must be closed |
| ExecBatches.PendingBatch.Add | src/exec/batch.rs:64-87 | the path joins the batch, starts the next one, or is too large |
| ExecBatches.PendingBatch.TakeReady | src/exec/batch.rs:94-101 | hands out the paths and starts anew |
| ExecBatches.PushKeepsLimit | src/exec/batch.rs:77-82 | pushing alone keeps the limit if and only if the path does not overflow the batch or fits on its own |
| ExecBatches.PushCanExceedTheLimit | src/exec/batch.rs:77-82 | an input for which it does not |
| ExecBatches.Batches.Enqueue | src/exec/ordered.rs:62-115 | accepted paths are kept, in order within their key; every command keeps the limit and its directory; a path too large for any command is refused |
| ExecBatches.Batches.Flush | src/exec/ordered.rs:123-146 | afterwards every accepted path has reached exactly one command, in order within its key; the ordered engine answers for all failures so far, a parallel worker for those of the flush |
| ExecBatches.GatherAll | src/parallel/batch.rs:27-78 | for both engines, over any sequence of paths and a final flush: every command keeps the limit and its directory, the paths that fit go to the commands of their key in order and none twice, all of them unless a command cannot be run or a parallel worker meets a path that is too large, which is then the first one |
| ExecBatches.GatherWithoutFailures | src/exec/ordered.rs:62-146 | when commands can be run, a parallel worker fails if and only if some path is too large, the ordered engine never |

## Left out

- Real memory ordering and the sleeping of idle workers: steps are sequentially consistent and a sleeping worker is one that does not move.
- The worker's own queue and the injector are one bag in the machine: a pop may return any queued task, which covers every order in which queues are popped and stolen from.
- What evaluating an entry does is opaque in the parallel machine: it ends normally, asks to stop, or fails. Its inside is modelled in `Evaluation`.
- The backend answers as functions of what it is asked: the file system does not change during a run.
- A poisoned mutex, a closed result channel and the collection of worker reports (src/parallel/engine.rs, src/parallel/broker.rs).
- Writing diagnostics in the ordered pipeline is taken to succeed; in the parallel machine it may fail.
- Pipeline.PipelineIsInline: assumes that actions that only write a record succeed or fail as a whole with a clear status; the evaluator threads and channels are replaced by an order of arrival.
- TimeWindows.DaystartPartition: the local calendar day is a parameter; `localtime` and `mktime` are foreign calls.
- GnuRegex.TokenParser.Parse: the 16-bit counter wraps, as it does in a build without overflow checks; a build with them would panic at group 65536.
- Rendering regular expressions for the two engines that run them, and those engines.
- Parser.ParseTokens: whether an argument such as a user name or a size is well formed is a parameter of the parser.
- Splitting a command line into global options, start paths and expression.
- Whether an expression mixes `-exec … +` and prompts, and the lowering to a plan (src/planner.rs).
- ExecBatches.Batches.Flush: the order of the keys in a flush is arbitrary here; the costs of a path and of the fixed arguments are parameters. The map of pending batches holds their values.
- ISO week numbers, `-printf`, `-ls`, permissions, sizes, accounts, file flags: case tables, or foreign calls.
- The action sink of src/exec/parallel.rs, which the parallel engine does not use.
