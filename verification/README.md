# claude-plane: verified model of the run scheduler and its neighbours

claude-plane runs jobs: directed graphs of steps, executed on remote agents. This project models
the parts of the server whose correctness depends on whole runs, and proves what every run does.

**The scheduler.** `RunMachine` describes a run as a state machine: its events are the start,
a completion callback, a retry timer and the cancellation of the context, and they may come in any
order. It keeps no counters; what a step may do is stated by its dependencies. `RunInvariant`,
`RunTheorems`, `RunTermination` and `RunConfluence` prove what holds over every run of it, and `RunRules`
says it in the words of the stored configuration.
`DAGRunner.dfy` (module `Scheduler`) is the scheduler as it is written: a class with in-degrees, a completed counter,
session keys, a deferred list and work queues. Each critical section is a method, proved to be one
transition of the machine (`Next`) and to keep its books (`Valid`); `Bookkeeping`, `WorkQueue` and
`Sections` hold the steps of that proof. So everything proved of the machine holds for the class.

**Around it.** `Validation` and `EdgeIndex` (cycle check and dependency rows), `Recovery` (repair
and retry of stored runs), `RunJobGraph` (jobs that start jobs), `ConcurrencyCap` (slots for runs),
`SessionExecutor` (who reports a step), `Composition` (schedulers and executor together),
`InjectionQueue`, `EventBus` and `ConnectionManager`
(protocols at the granularity of locks and channel operations), `LineSplitter` (terminal output
to numbered lines) and `GlobLike` (event patterns compiled to LIKE). In the protocol modules
the state machine includes what other goroutines are about to do; a class holds the object's own
fields and its locked sections are proved to be transitions of that machine. The last section of each
tells from the steps taken so far where calls, runners, streams, publishers and drainers are and which
steps are possible, and what one step of an execution changes.

`dafny verify dfyconfig.toml` checks everything.

## What the proofs show about the code

- A run without steps, or one rebuilt with every step Completed, never reports:
  the completion check is reached only from a callback (`RunTheorems.QuietRunHasReported`).
- RetryStep can leave a run that never finishes: a failed, skipped or cancelled step that is not
  downstream of the chosen one is neither counted nor run (`Recovery.RetryLeavesUnrelatedFailure`).
- A rebuilt run has the steps it was created with but the edges the job has now. A step short of
  Completed that has since been made to wait for a new step hangs the run
  (`Recovery.NewDependencyHangsRepair`); a new step that waits for Completed ones only makes Start
  dereference a missing step, with the lock held (`Recovery.NewDependentPanicsRepair`). The edges are
  not validated again either: steps that wait for each other by now hang the run
  (`Recovery.CycleHangsRepair`).
  `Recovery.RebuiltRunReportsIff`, `Recovery.RepairRestarts` and `Recovery.PanicsAsStored` give the exact
  conditions on the stored statuses and edges.
- The branch of processDeferredSteps that skips a step without telling its dependents is dead code
  (`Scheduler.DAGRunner.ProcessDeferredSteps`).
- Cancel is documented as safe before Start; it does not stop the run that Start then begins
  (`Scheduler.CancelThenStart`).
- AddDependency leaves a cycle in the store if the re-read or the rollback fails
  (`Validation.DependencyStore.AddDependency`), and two run_job steps validated at the same time can
  close one (`RunJobGraph.RacingRequests`).
- Rebuilding a run ignores the concurrency cap (`ConcurrencyCap.RebuildExceedsCap`). A rebuild between a
  run's terminal status and the delete of its entry leaves a live runner without an entry
  (`ConcurrencyCap.LateDeleteExceedsCap`), and so does a cancellation before the start
  (`ConcurrencyCap.EarlyCancelExceedsCap`). `ConcurrencyCap.SafeIffPolite` says exactly when not.
- An injection can be accepted into a queue whose drainer has gone, and stays there
  (`InjectionQueue.StrandingHappens`, `InjectionQueue.StrandedIffLate`); the comments promise only
  that shutdown marks buffered items.
- Closing the ingestor is documented to flush all remaining buffers; it drops an unterminated last line
  (`LineSplitter.TickStoresAllIff`).
- The store's filter takes an empty pattern for all events, a star anywhere, and letters of either
  case before a star; the event bus does none of this (`GlobLike.SqliteAgreesIff`).

## Assumptions

- Step identifiers of a run are distinct and a pending step is stored with attempt 1, as table
  defaults and resets leave it.
- A callback comes at most once per launch: OnStepCompleted itself does not check that the step is
  running; `Composition.CallbacksAreExpected` shows that the executor keeps to it.
- Generated identifiers (runs, sessions, reservations) are fresh, and agent objects register once.
- Timers, polls and store outcomes are events or parameters and may come in any order.

## Model

| member | source | states |
|---|---|---|
| RunInvariant.InitialInv | internal/server/orchestrator/dag_runner.go:142-194 | A run as it is created or rebuilt satisfies the run invariant |
| RunInvariant.NextKeepsInv | internal/server/orchestrator/dag_runner.go:299-544 | Start, every callback (retry, abort, settle, late), every retry timer and cancellation keep the run invariant: where each step stands, one holder per session key, no runnable step without a rival that holds or awaits its key, a report exactly when the last step settles |
| RunTheorems.ExecutionInv | internal/server/orchestrator/dag_runner.go:299-556 | The invariant holds in every state of every run |
| RunTheorems.LaunchSafety | internal/server/orchestrator/dag_runner.go:258-325 | A step is launched only when all its dependencies settled, and unless its stored run_if is "all_done" only when all of them Completed |
| RunTheorems.SessionExclusion | internal/server/orchestrator/dag_runner.go:231-285 | No two steps whose callback is outstanding in a live run have the same non-empty session key |
| RunTheorems.ReportsOnceAndTruthfully | internal/server/orchestrator/dag_runner.go:457-531 | A run reports at most once; at that moment no step is Pending or Running, and the verdict is Failed exactly if some step is Failed |
| RunTheorems.StoppedRunsAreFrozen | internal/server/orchestrator/dag_runner.go:364-374 | Once the context is cancelled nothing changes a status, an attempt, a launch count, the settled steps or the reports any more |
| RunTheorems.StartLaunchesIff | internal/server/orchestrator/dag_runner.go:299-325 | Starting a run launches something exactly if some pending step has only Completed dependencies |
| RunTheorems.LaunchesBounded | internal/server/orchestrator/dag_runner.go:408-455 | A step is launched at most 1 + max_retries times (once if max_retries is not positive), and never if it did not start out Pending |
| RunRules.SettledByRule | internal/server/orchestrator/dag_runner.go:603-647 | Over every execution, also after an abort or a cancellation: a settled step that began Pending has all dependencies settled; it is Skipped, with no launches, exactly if some dependency is not Completed and run_if is not "all_done"; it is Failed only after 1 + max_retries launches and never under on_failure "fail_run"; else it is Completed within its permitted launches |
| RunRules.CallbackRule | internal/server/orchestrator/dag_runner.go:364-544 | In a live run exit code 0 makes a step Completed and any other makes it Failed; a failed one is scheduled for a retry exactly if max_retries is positive and the launches so far do not exceed it, otherwise the run stops exactly if on_failure is "fail_run", and else the step settles |
| RunRules.AbortRule | internal/server/orchestrator/dag_runner.go:457-487 | At the event that aborts a live run the failing step is Failed, every other Pending step becomes Skipped, every other Running step Cancelled, no other status changes, nothing is launched or settled, and the report is Failed |
| RunRules.WaitingRule | internal/server/orchestrator/dag_runner.go:258-285 | In a live, started run a Pending step with all dependencies settled is one that may run by its run_if, and another step with its session key is running or waiting for its retry |
| RunRules.RetryRule | internal/server/orchestrator/dag_runner.go:420-453 | When a retry timer fires in a live run the Failed step is Running and launched once more, or Pending exactly if a running step has its session key |
| RunTheorems.NoDeadlock | internal/server/orchestrator/dag_runner.go:258-325 | Every started, live state with unsettled steps has a callback outstanding or a retry timer armed, unless, when the runner was built, the pending steps had a cycle or some step could never settle: neither Pending nor Completed, or waiting for a step the run does not have |
| RunTheorems.QuietRunHasReported | internal/server/orchestrator/dag_runner.go:508-531 | For any edges, cyclic ones too: a started, uncancelled run with no callback and no timer left has reported exactly if, when the runner was built, no step was stuck (neither Pending nor Completed, or Pending with a dependency outside the run), the edges among the Pending steps had an order, and there was a Pending step; so a run without steps never reports |
| RunTermination.MeasureDrops | internal/server/orchestrator/dag_runner.go:408-455 | Every callback and timer event lowers a measure on the remaining attempts, and no event raises it |
| RunTermination.RunsTerminate | internal/server/orchestrator/dag_runner.go:364-544 | A run sees at most three events per permitted attempt, plus start and one cancellation |
| RunTermination.TotalLaunchesBounded | internal/server/orchestrator/dag_runner.go:330-361 | All launches of a run together are at most the sum over its steps of 1 + max_retries |
| RunTermination.StopMeansReportOrCancel | internal/server/orchestrator/dag_runner.go:457-487 | A run that stops without being cancelled has reported exactly once |
| RunTermination.UncancelledRunReports | internal/server/orchestrator/dag_runner.go:364-544 | A started, uncancelled run with nothing left to wait for, without stuck steps or a cycle among the pending ones, and with one step Pending at first, has reported exactly once |
| RunConfluence.EndsSolves | internal/server/orchestrator/dag_runner.go:603-647 | The reference outcome, computed along a topological order with no schedule in it, satisfies the rule of every step at once: Skipped if a dependency did not complete and run_if is not "all_done", else Completed if one of the attempts that max_retries permits succeeds, else Failed |
| RunConfluence.SettledRunMatches | internal/server/orchestrator/dag_runner.go:364-544 | Whatever the completion order and session contention, a live run whose steps have all settled ends in the reference status map |
| RunConfluence.VerdictMatches | internal/server/orchestrator/dag_runner.go:457-531 | The verdict reported is the one of the reference outcome, also when an exhausted fail_run step cuts the run short |
| RunConfluence.QuietRunMatches | internal/server/orchestrator/dag_runner.go:364-544 | A run that nobody cancels, without stuck steps and without a fail_run step that fails in the reference outcome, comes to rest exactly in the reference status map, whatever the order of callbacks and timers |
| RunConfluence.QuietRunAbortsIff | internal/server/orchestrator/dag_runner.go:457-487 | A run that nobody cancels and that has no stuck steps comes to rest aborted exactly if some "fail_run" step fails in the reference outcome |
| RunConfluence.Confluence | internal/server/orchestrator/dag_runner.go:364-544 | Two runs with the same attempt outcomes report the same verdict, and uncancelled, without stuck or fatal steps, they come to rest in the same status map |
| Scheduler.DAGRunner.constructor | internal/server/orchestrator/dag_runner.go:142-194 | A new runner has counted every edge into every step and nothing else, for any edges, also such that name steps the run does not have |
| Scheduler.DAGRunner.FreshRunIsValid | internal/server/orchestrator/orchestrator.go:160-205 | A run without Completed steps starts from sound books as built |
| Scheduler.DAGRunner.Accounting | internal/server/orchestrator/dag_runner.go:495-506 | Between critical sections of a live run inDegree is the number of edges from unsettled steps (so never negative), and completed is the number of settled steps, at most total |
| Scheduler.DAGRunner.KeyInUseByOne | internal/server/orchestrator/dag_runner.go:231-256 | activeSessionKeys holds a key exactly if one running step, and only one, carries it |
| Scheduler.DAGRunner.DeferredCanRun | internal/server/orchestrator/dag_runner.go:258-285 | The deferred steps are exactly the pending ones with all dependencies settled, and none of them has a failed dependency unless its run_if is "all_done" |
| Scheduler.DAGRunner.InformDependent | internal/server/orchestrator/dag_runner.go:607-644 | One dependent hears that a step settled: what becomes of run and books is a function of both |
| Scheduler.DAGRunner.ProcessReadyDependents | internal/server/orchestrator/dag_runner.go:603-647 | The work queue tells every dependent of every settled step exactly once, skips propagate, and each step launched is listed once |
| Scheduler.DAGRunner.ProcessDeferredSteps | internal/server/orchestrator/dag_runner.go:261-285 | Afterwards every runnable pending step waits for a key that is held; the branch that skips without telling dependents is never taken |
| Scheduler.DAGRunner.SweepStatuses | internal/server/orchestrator/dag_runner.go:460-471 | An abort makes every Pending step Skipped and every Running one Cancelled, and touches no other status |
| Scheduler.DAGRunner.AbortBy | internal/server/orchestrator/dag_runner.go:457-487 | An exhausted failure of a fail_run step leaves that step Failed and the others swept, cancels the context, and is the abort of the run machine |
| Scheduler.DAGRunner.SettleBy | internal/server/orchestrator/dag_runner.go:488-544 | A settling callback is one transition of the run machine and keeps books and invariant |
| Scheduler.DAGRunner.OnStepCompleted | internal/server/orchestrator/dag_runner.go:364-544 | Every callback is one transition of the run machine (or nothing, for an unknown step or a late callback), keeps books and invariant, and returns exactly the steps launched and the report made |
| Scheduler.DAGRunner.OnRetryTimer | internal/server/orchestrator/dag_runner.go:420-453 | The retry goroutine relaunches the step or queues for its key, as one transition that keeps books and invariant |
| Scheduler.DAGRunner.Start | internal/server/orchestrator/dag_runner.go:299-325 | Start panics exactly if the edges lead to a step the run does not have and that waits for completed steps only; otherwise it is one transition that launches or defers exactly the ready roots, in any map order |
| Scheduler.DAGRunner.OnContextCancelled | internal/server/orchestrator/dag_runner.go:546-556 | Cancelling the context is one transition that keeps the invariant |
| Scheduler.CancelThenStart | internal/server/orchestrator/dag_runner.go:546-556 | A run cancelled before its start is not cancelled once it starts, and launches something exactly if some pending step has only Completed dependencies |
| Scheduler.CancelStarted | internal/server/orchestrator/dag_runner.go:364-374 | After cancelling a started run, late callbacks in any number and order launch nothing, report nothing and change no status, attempt or launch count |
| Scheduler.DAGRunner.PreprocessCompleted | internal/server/orchestrator/orchestrator.go:395-407 | Counting the Completed steps of a rebuilt run and closing their edges establishes sound books |
| Scheduler.DAGRunner.CloseEdges | internal/server/orchestrator/orchestrator.go:401-404 | Every edge out of a step is closed exactly once |
| Bookkeeping.OpenZero | internal/server/orchestrator/dag_runner.go:155-168 | An in-degree is zero exactly if every dependency has settled |
| Bookkeeping.TellCounts | internal/server/orchestrator/dag_runner.go:607-614 | Closing one edge keeps the count of the edges still open, and the count was at least one |
| Bookkeeping.InformedKeepsBooks | internal/server/orchestrator/dag_runner.go:607-644 | Informing a dependent keeps the books in the middle of the work queue |
| WorkQueue.VisitStep | internal/server/orchestrator/dag_runner.go:607-644 | Each dependent informed keeps the work queue invariant and the list of launches |
| Sections.SettleEnds | internal/server/orchestrator/dag_runner.go:508-531 | A settling section ends in one transition of the run machine, reporting exactly if the last step settled |
| Sections.RetrySection | internal/server/orchestrator/dag_runner.go:408-455 | Scheduling a retry frees the key, keeps the books, and is one transition |
| Sections.RebuiltIsValid | internal/server/orchestrator/orchestrator.go:395-407 | A run whose Completed steps are counted and told satisfies books and invariant |
| EdgeIndex.IndexEdges | internal/server/orchestrator/dag_runner.go:155-168 | In-degrees count the edges into each step, with repetitions and also for steps only the edges name, and the adjacency list groups them in order |
| Validation.ValidateDAG | internal/server/orchestrator/dag_runner.go:69-104 | Accepts exactly if the steps have a topological order of the edges, duplicate edges included |
| Validation.DependencyStore.AddDependency | internal/server/handler/jobs.go:774-821 | Accepts exactly the addable edges that close no cycle; afterwards the graph has a cycle exactly if it had one before, or the edge closes one, was stored, and the re-read or the rollback failed |
| Validation.DependencyStore.RemoveDependency | internal/server/handler/jobs.go:824-845 | Removing an edge removes that edge only and keeps an acyclic graph acyclic |
| Validation.FewerEdgesAcyclic | internal/server/handler/jobs.go:824-845 | Any part of an acyclic graph is acyclic |
| Recovery.FindDownstream | internal/server/orchestrator/orchestrator.go:249-267 | The search of RetryStep finds exactly the reflexive and transitive dependents of the chosen step |
| Recovery.ResetSteps | internal/server/orchestrator/orchestrator.go:269-279 | Exactly the chosen steps that are Failed, Skipped or Cancelled become Pending with attempt 1; all else stays |
| Recovery.RetryStep | internal/server/orchestrator/orchestrator.go:236-282 | RetryStep resets within the downstream set only; the rebuilt run panics at its start exactly under a condition on the stored statuses and edges, and otherwise has started with sound books |
| Recovery.RepairRun | internal/server/orchestrator/orchestrator.go:287-332 | RepairRun refuses runs that are neither failed nor cancelled and resets every resettable step; the rebuilt run panics at its start exactly under the same condition, and otherwise has started with sound books |
| Recovery.Rebuild | internal/server/orchestrator/orchestrator.go:337-407 | A rebuilt runner has sound books and starts from the stored statuses, whatever edges the job has by now |
| Recovery.PanicsAsStored | internal/server/orchestrator/orchestrator.go:346-417 | Whether the start of a rebuilt run panics can be read off the stored run: some step that the job has gained waits for Completed steps of this run only |
| Recovery.NewDependentPanicsRepair | internal/server/orchestrator/orchestrator.go:346-417 | A step added later behind a Completed one makes the start panic |
| Recovery.RebuiltRunReportsIff | internal/server/orchestrator/orchestrator.go:337-418 | A rebuilt run that goes quiet has reported exactly if every step short of Completed was Pending or got reset, none of them has an edge from a step outside the run, the edges among them have an order, and there was one; nothing is assumed of the edges, which a rebuild does not validate |
| Recovery.RepairRestarts | internal/server/orchestrator/orchestrator.go:316-331 | Repairing leaves a run that can finish exactly if no step was stored Running, one is short of Completed, and those neither wait for a step outside the run nor for one another in a cycle |
| Recovery.RetryLeavesUnrelatedFailure | internal/server/orchestrator/orchestrator.go:269-282 | Retrying one of two unrelated failed steps: every execution of the rebuilt run that goes quiet does so without a report |
| Recovery.NewDependencyHangsRepair | internal/server/orchestrator/orchestrator.go:350-353 | So does every quiet execution of a repaired run whose failed step has since been made to wait for a new one |
| Recovery.CycleHangsRepair | internal/server/orchestrator/orchestrator.go:346-417 | So does every quiet execution of a repaired run whose two steps have since been made to wait for each other |
| RunJobGraph.CheckAcceptsIff | internal/server/handler/jobs.go:194-217 | checkRunJobCycle accepts exactly if every walk down from the target stays below the depth cap, reads no failing job and never comes back to the origin; it terminates on cyclic stores |
| RunJobGraph.NewEdgeKeepsAcyclic | internal/server/handler/jobs.go:142-217 | An accepted reference closes no cycle anywhere in the graph of jobs |
| RunJobGraph.LateWriteIff | internal/server/handler/jobs.go:142-217 | A validated step written later keeps the graph acyclic exactly if, at the moment of the write, its target is another job from which nothing leads back |
| RunJobGraph.LateReplaceIff | internal/server/handler/jobs.go:621-741 | A step replaced some time after its validation keeps the graph acyclic exactly if, at the moment of the write and without the replaced step, its target is another job from which nothing leads back |
| RunJobGraph.RacingRequests | internal/server/handler/jobs.go:142-217 | Two requests validated before either writes can close a cycle |
| RunJobGraph.UnreferencedKeepsAcyclic | internal/server/handler/jobs.go:435-459 | A job nobody refers to may refer to anything |
| RunJobGraph.JobStore.ValidateRunJobStep | internal/server/handler/jobs.go:142-189 | Accepts exactly existing, permitted targets other than the job itself that pass checkRunJobCycle |
| RunJobGraph.JobStore.AddStep | internal/server/handler/jobs.go:485-595 | Adds exactly a valid step whose write succeeds, else nothing, and keeps the graph acyclic |
| RunJobGraph.JobStore.UpdateStep | internal/server/handler/jobs.go:621-741 | Replaces exactly the one step by a valid one if the write succeeds, else nothing, and keeps the graph acyclic |
| RunJobGraph.JobStore.DeleteStep | internal/server/handler/jobs.go:744-764 | Keeps the graph acyclic |
| RunJobGraph.JobStore.DeleteJob | internal/server/handler/jobs.go:410-426 | Keeps the graph acyclic |
| RunJobGraph.JobStore.CreateJob | internal/server/handler/jobs.go:239-297 | A new job has no references, so the graph stays acyclic even if dangling references name it |
| RunJobGraph.JobStore.CloneJob | internal/server/handler/jobs.go:435-459 | A clone copies references unchecked; the graph stays acyclic because nothing refers to the clone |
| GlobLike.CompiledIsTranslate | internal/server/store/events.go:188-208 | The chain of replacements equals one translation per character |
| GlobLike.TranslateKeepsMeaning | internal/server/store/events.go:199-208 | The translated pattern matches under LIKE with ESCAPE exactly what the glob matches, for every character equality |
| GlobLike.StarSplits | internal/server/store/events.go:188-205 | A star stands for any part of the text, also an empty one |
| GlobLike.CompilePreservesMeaning | internal/server/store/events.go:188-208 | The compiled pattern matches under LIKE exactly what the glob matches |
| GlobLike.FilterSelectsGlob | internal/server/store/events.go:47-75 | A type filter of the event list selects exactly the events its glob matches, everything if empty; only patterns with a star use the character equality of LIKE |
| GlobLike.BusAgreesIff | internal/server/event/bus.go:236-247 | For any reflexive character equality bus and store filter read a pattern alike exactly if it is not empty, has one of the forms the bus documents (no star, a lone star, a single final star after a dot), and in the last form every character of its prefix equals only itself |
| GlobLike.SqliteAgreesIff | internal/server/store/events.go:55-63 | With SQLite's folding of ASCII case they agree exactly on a lone star, on non-empty patterns without a star, and on prefixes free of letters |
| GlobLike.PercentSplits | internal/server/store/events.go:55-63 | In LIKE a percent sign stands for any part of the text, also an empty one |
| GlobLike.UnderscoreIsOne | internal/server/store/events.go:55-63 | In LIKE an unescaped underscore stands for any one character |
| LineSplitter.FieldsGlue | internal/server/ingest/content.go:94-122 | The fields of a text are free of newlines and glue back to it |
| LineSplitter.GlueFields | internal/server/ingest/content.go:94-122 | They are the only pieces that do |
| LineSplitter.Resume | internal/server/ingest/content.go:88-92 | Splitting may resume from the unfinished last line: all earlier lines are final |
| LineSplitter.LinesCount | internal/server/ingest/content.go:94-122 | A text has as many lines as line feeds (byte 10), and one more if something follows the last one |
| LineSplitter.LineIs | internal/server/ingest/content.go:94-122 | Line k has number k + 1 and is the k-th piece without the carriage returns (byte 13) at its end |
| LineSplitter.IndexNewline | internal/server/ingest/content.go:96-96 | Finds the first newline or tells that there is none |
| LineSplitter.LineBuffer.Ingest | internal/server/ingest/content.go:79-135 | After any chunk, lines handed over and batched are the complete lines of all text so far, numbered from 1, and the partial line is its rest; a batch is handed over whole as soon as it has 100 lines |
| LineSplitter.LineBuffer.Tick | internal/server/ingest/content.go:199-223 | A tick hands over exactly the complete lines not handed over before |
| LineSplitter.LineBuffer.FlushSession | internal/server/ingest/content.go:138-176 | At the end of a session every line has been handed over exactly once, and the count returned is their number |
| LineSplitter.RunSession | internal/server/ingest/content.go:79-223 | For every chunking and every schedule of ticks and session ends, the store holds exactly the numbered lines of each ended text, and a prefix of the current one |
| LineSplitter.TickStoresAllIff | internal/server/ingest/content.go:179-196 | Closing the ingestor stores the whole text exactly if it is empty or ends in a newline |
| ConcurrencyCap.CapHolds | internal/server/orchestrator/orchestrator.go:53-64 | As long as every rebuild finds its run entered or a slot free and no earlier runner of the run in its completion callback, and every rebuild or cancellation finds the runner it cancels started, reservations and live runners of a job never exceed its cap and CancelRun finds every live runner, over all interleavings of CreateRun, starts, completions (last callback, status write, delete), cancellations and rebuilds |
| ConcurrencyCap.SlotsAreOwned | internal/server/orchestrator/orchestrator.go:112-205 | Each entry belongs to a CreateRun call still in progress or to a runner that is to start, executes, or is in its completion callback; a failed creation leaves none |
| ConcurrencyCap.SafeIffPolite | internal/server/orchestrator/orchestrator.go:409-415 | A rebuild or cancellation leaves entries within the cap and every live runner entered, however things go on without another such breach, exactly if it meets the conditions above at its own moment |
| ConcurrencyCap.RebuildExceedsCap | internal/server/orchestrator/orchestrator.go:409-415 | A rebuild of a finished run takes the second of one slots |
| ConcurrencyCap.LateDeleteExceedsCap | internal/server/orchestrator/orchestrator.go:53-64 | A run repaired between the write of its terminal status and the delete of its entry loses the new entry: two runs execute under a cap of one, and CancelRun does not find the repaired one |
| ConcurrencyCap.EarlyCancelExceedsCap | internal/server/orchestrator/orchestrator.go:201-213 | So do two runs when one is cancelled between its installation and its start |
| ConcurrencyCap.RunnerByHistory | internal/server/orchestrator/orchestrator.go:53-64 | From the steps taken so far: a runner is to start exactly until it begins, executes only until its last callback, and finishes until its entry is deleted, the status being written before |
| ConcurrencyCap.StepRule | internal/server/orchestrator/orchestrator.go:337-467 | A runner stops executing exactly by its last callback or because a cancellation or rebuild finds it entered; a run is terminal from a status write or a cancellation mark until it is rebuilt |
| ConcurrencyCap.PossibleByHistory | internal/server/orchestrator/orchestrator.go:236-467 | Which steps are possible, in terms of the steps taken so far: any string may be cancelled, RetryStep may rebuild any known run, RepairRun only one with a terminal status |
| ConcurrencyCap.Orchestrator.CountActiveRunsForJob | internal/server/orchestrator/orchestrator.go:84-94 | Counts the map entries of the job |
| ConcurrencyCap.Orchestrator.ReserveSlot | internal/server/orchestrator/orchestrator.go:107-118 | One transition of the protocol: a slot is reserved exactly if there is no limit or fewer entries of the job than the limit, counted and reserved under one lock |
| ConcurrencyCap.Orchestrator.RemoveReservation | internal/server/orchestrator/orchestrator.go:120-126 | The transition of a failed creation: exactly the placeholder goes |
| ConcurrencyCap.Orchestrator.InstallRunner | internal/server/orchestrator/orchestrator.go:201-205 | The transition that turns a reservation into a live run: the placeholder goes and the runner is entered |
| ConcurrencyCap.Orchestrator.ReplaceRunner | internal/server/orchestrator/orchestrator.go:409-415 | The transition of a rebuild: the runner is entered, and the one entered before is returned and cancelled |
| ConcurrencyCap.Orchestrator.RemoveRun | internal/server/orchestrator/orchestrator.go:60-62 | The transition of a completion: the entry is deleted by run, whichever runner it holds |
| ConcurrencyCap.Orchestrator.TakeRun | internal/server/orchestrator/orchestrator.go:423-427 | The transition of a cancellation: the entry goes, and the runner entered is returned and cancelled |
| SessionExecutor.CallsAtMostOnce | internal/server/executor/session_executor.go:491-893 | Over any interleaving of idle events, monitor exits, timeouts, cancellations, send failures and cleanups the callback of an ExecuteStep call is invoked at most once |
| SessionExecutor.NeverOverwritten | internal/server/executor/session_executor.go:783-855 | If steps sharing a key are launched one at a time, no live tracking entry is overwritten |
| SessionExecutor.CallbackNeverLost | internal/server/executor/session_executor.go:639-893 | Under the same condition a launched step is always being started, tracked by one session, or has its single callback under way or done |
| SessionExecutor.LostWithoutExclusion | internal/server/executor/session_executor.go:806-820 | Without that condition a tracking entry can be overwritten, so that its step is held nowhere |
| SessionExecutor.LostForever | internal/server/executor/session_executor.go:611-634 | Such a step stays unheld and its callback never comes |
| SessionExecutor.CallByHistory | internal/server/executor/session_executor.go:491-893 | From the steps taken so far: a launched call looks for its session once, is then tracked once or answered directly, and its callback has been invoked as often as Invoke and AnswerDirectly happened |
| SessionExecutor.LookRule | internal/server/executor/session_executor.go:639-659 | A step without a key gets a session of its own; one with a key reuses the session its run shares under the key, or is the first to need it |
| SessionExecutor.SessionRule | internal/server/executor/session_executor.go:491-634 | Tracking sets the session's entry, an idle event, a monitor exit or a failed send removes it and puts its callback into a hand; a session is monitored from its first tracking until its monitor exits |
| SessionExecutor.OtherSteps | internal/server/executor/session_executor.go:611-893 | No other step changes an entry or a monitor, or puts a callback into anyone's hands |
| SessionExecutor.TrackedWhere | internal/server/executor/session_executor.go:662-858 | A step is tracked on the session made for its key or on the one it found there, and only TrackOwn and ShareNew make sessions |
| SessionExecutor.SharedRule | internal/server/executor/session_executor.go:745-916 | A run shares a session under a key from its creation until the run is cleaned up |
| SessionExecutor.PossibleByHistory | internal/server/executor/session_executor.go:491-916 | Which steps are possible, in terms of the steps taken so far; idle events and cleanups always are |
| Composition.HandOverIsExclusiveIff | internal/server/orchestrator/dag_runner.go:235-256 | In every execution of schedulers and executor together, a hand-over meets no execution with the same run and session key that waits for its callback exactly if it meets none of another scheduler of its run: each scheduler keeps its own steps apart |
| Composition.SoleSchedulersTakeTurns | internal/server/orchestrator/dag_runner.go:235-256 | If no run gets a second scheduler, no hand-over meets one of another scheduler |
| Composition.NoCallbackLost | internal/server/executor/session_executor.go:639-893 | As long as the schedulers of a run take turns at its session keys, no callback of any run is ever lost |
| Composition.CallbacksAreExpected | internal/server/orchestrator/dag_runner.go:364-380 | A scheduler is called back only for steps it waits for, and every step it waits for is on its way to the executor, in its hands, or on its way back; also when its run has been rebuilt while steps of older schedulers are still in the executor |
| Composition.ExecutorIsFree | internal/server/executor/session_executor.go:611-893 | Every step of the executor is possible in the composition, so nothing is hidden by it |
| Composition.HandOverIsFree | internal/server/orchestrator/dag_runner.go:330-361 | A step its scheduler has launched can be handed over exactly by a call for its run with its session key or without one |
| SessionExecutor.MonitorSessionExit | internal/server/executor/session_executor.go:525-606 | The monitor ends a step at the first decisive poll: with code 0 exactly if the session completed, with 124 exactly if the deadline passed, and with 1 exactly for a cancelled context, a failed or terminated session, or the fifth not-found poll with no answered read since the first of the five; other store errors neither count nor reset |
| SessionExecutor.Tracker.FindShared | internal/server/executor/session_executor.go:639-659 | One transition: reuse the session stored for run and key, or create one |
| SessionExecutor.Tracker.Track | internal/server/executor/session_executor.go:491-521 | One transition: the session now tracks exactly this step |
| SessionExecutor.Tracker.Take | internal/server/executor/session_executor.go:611-634 | One transition: the entry is taken out, returned, and its callback is in exactly one more pair of hands |
| SessionExecutor.Tracker.CleanupRunSessions | internal/server/executor/session_executor.go:897-916 | Returns exactly the shared sessions of the run and forgets them; exactly the other runs' entries survive |
| InjectionQueue.OneDrainer | internal/server/session/injection_queue.go:127-156 | At most one drainer of a session is at work, and it serves the queue Enqueue finds |
| InjectionQueue.SentInOrder | internal/server/session/injection_queue.go:149-289 | What is sent is an order-preserving, duplicate-free subsequence of what was accepted; only sent injections are marked delivered, and none of them failed |
| InjectionQueue.NothingVanishes | internal/server/session/injection_queue.go:99-144 | Every accepted injection is settled, being processed, or in a queue |
| InjectionQueue.RecordedForCause | internal/server/session/injection_queue.go:197-289 | Over every execution an injection is recorded as failed exactly if its drainer found the session terminated or was shut down during its delay, or found it queued after a shutdown; dropped exactly if it was stale, its status unknown, no agent connected or the send failed; sent and marked delivered exactly by those steps of its drainer |
| InjectionQueue.SessionInjections.ProcessItem | internal/server/session/injection_queue.go:197-268 | The first of staleness, status error, terminal session, shutdown during the delay, missing agent and send error decides what is recorded; without any the injection is sent and marked delivered |
| InjectionQueue.DrainerByHistory | internal/server/session/injection_queue.go:149-190 | From the steps taken so far: a drainer marks what is queued exactly between seeing its closed done channel and the end of that, and has left exactly after that or after having been idle |
| InjectionQueue.QueueByHistory | internal/server/session/injection_queue.go:127-144 | A queue exists exactly if it was given to some call |
| InjectionQueue.CallHoldsQueue | internal/server/session/injection_queue.go:108-123 | A call offers its injection to the queue it was given, which was the one in the map or a new one |
| InjectionQueue.CallEnds | internal/server/session/injection_queue.go:117-123 | A call offers its injection once |
| InjectionQueue.PossibleByHistory | internal/server/session/injection_queue.go:99-190 | Which steps are possible, in terms of the steps taken so far: an idle exit only with an empty queue, a shutdown only after the done channel is closed |
| InjectionQueue.StrandedForever | internal/server/session/injection_queue.go:108-123 | What lies in a queue whose drainer has exited is never sent, failed or dropped |
| InjectionQueue.StrandingHappens | internal/server/session/injection_queue.go:108-190 | An injection can be accepted into such a queue |
| InjectionQueue.StrandedIffLate | internal/server/session/injection_queue.go:108-190 | An accepted injection is stranded, unsettled for good, exactly if it was offered to a queue whose drainer had already left its loop |
| InjectionQueue.SessionInjections.GetOrCreateQueue | internal/server/session/injection_queue.go:127-144 | One transition; a drainer is started only when no other is at work |
| InjectionQueue.SessionInjections.TrySend | internal/server/session/injection_queue.go:117-123 | One transition; accepts exactly below 32 queued injections, and appends |
| InjectionQueue.SessionInjections.TakeItem | internal/server/session/injection_queue.go:159-172 | One transition; what is taken was accepted after everything settled so far |
| InjectionQueue.SessionInjections.DrainRemaining | internal/server/session/injection_queue.go:272-289 | On shutdown exactly what was queued is marked failed |
| EventBus.NeverPanics | internal/server/event/bus.go:93-234 | No send meets a closed channel and no channel is closed twice, over all lock-level interleavings |
| EventBus.DeliveryInOrder | internal/server/event/bus.go:115-139 | What the workers took followed by what is buffered is what was accepted, in order; a publisher reaches a subscriber at most once |
| EventBus.NothingMissed | internal/server/event/bus.go:121-138 | A subscriber whose buffer never was full when an event came for it misses none |
| EventBus.FanoutReachesAll | internal/server/event/bus.go:121-138 | A finished fan-out has tried a registered subscriber, once, exactly if its pattern is "*", equals the event type, or is a prefix of it up to a dot followed by a star |
| EventBus.SubscriberByHistory | internal/server/event/bus.go:148-201 | From the steps taken so far: a subscription is on the list exactly from its registration until it is taken off or the bus closes, and its channel is owed a close exactly if it was taken off or found the bus closed |
| EventBus.PublisherByHistory | internal/server/event/bus.go:93-138 | A publisher that began while the bus was open persists its event; it fans out exactly that event, from the first subscriber on, exactly from then until it is through, unless the bus has closed |
| EventBus.ListedInOrder | internal/server/event/bus.go:121-180 | Subscribers are tried in the order in which they registered |
| EventBus.WorkersByHistory | internal/server/event/bus.go:223-234 | A subscription's workers handle as many events at a time as were taken and not finished, and together with those gone never more than it asked for; its channel is closed exactly after the first close |
| EventBus.PossibleByHistory | internal/server/event/bus.go:93-220 | Which steps are possible, in terms of the steps taken so far: the list changes only while no publisher is in its fan-out, and nothing else holds anyone back |
| EventBus.WorkersPossible | internal/server/event/bus.go:223-234 | A free worker can take a buffered event at any time, and leaves exactly once the channel is closed and empty |
| EventBus.BufferedEventsSurvive | internal/server/event/bus.go:203-234 | Once a worker has exited every accepted event has been taken, so buffered events survive Close |
| EventBus.WaitEnds | internal/server/event/bus.go:203-220 | Every worker step brings the end of the wait closer and no other step pushes it back |
| EventBus.WaitCanEnd | internal/server/event/bus.go:203-234 | From any state the wait for a closed channel can end within as many worker steps as there is work, and then everything accepted has been taken |
| EventBus.Bus.RegisterSub | internal/server/event/bus.go:171-180 | One transition under the write lock: appends exactly if the bus is open |
| EventBus.Bus.UnsubscribeSub | internal/server/event/bus.go:183-198 | One transition under the write lock: exactly this subscriber leaves the list |
| EventBus.Bus.Close | internal/server/event/bus.go:203-220 | One transition under the write lock; a second Close closes nothing |
| ConnectionManager.LeftBecause | internal/server/connmgr/manager.go:179-312 | An agent that was registered and is so no longer was removed in between by its own close, its own rollback, a sweep, or a newer stream of its machine |
| ConnectionManager.NewestIsFound | internal/server/connmgr/manager.go:242-259 | The map holds the newest stream of a machine or nothing, and holds it as long as that stream goes on with a live transport |
| ConnectionManager.CancelledForCause | internal/server/grpc/server.go:287-338 | An agent is cancelled only if replaced, ended, rolled back, or swept |
| ConnectionManager.DisplacedAreCancelled | internal/server/connmgr/manager.go:179-312 | At quiescence the agents out of the map are exactly the cancelled ones |
| ConnectionManager.StreamByHistory | internal/server/connmgr/manager.go:179-218 | From the steps taken so far: a stream registers, cancels the agent it displaced, persists, and serves until closed; if persisting fails it leaves without serving |
| ConnectionManager.StepRule | internal/server/connmgr/manager.go:179-312 | An agent is in the map exactly from its registration until it closes, is rolled back, is swept, or a newer stream of its machine registers; it is cancelled exactly by itself, by the stream that displaced it, or by the sweep that removed it |
| ConnectionManager.PossibleByHistory | internal/server/connmgr/manager.go:179-312 | Which steps are possible, in terms of the steps taken so far |
| ConnectionManager.Manager.Swap | internal/server/connmgr/manager.go:179-203 | One transition: the agent is entered, and the one displaced is the one the caller must cancel |
| ConnectionManager.Manager.DisconnectIfMatch | internal/server/connmgr/manager.go:242-259 | One transition, for rollback, close and sweep alike: the entry goes exactly if it is this agent |
| ConnectionManager.Manager.StaleAgents | internal/server/connmgr/manager.go:283-295 | Collects exactly the registered agents whose context is over |

## Left out

- Scheduler.DAGRunner.OnStepCompleted: does not cover a second callback for an answered step of a live run, which the code would process again; the executor never makes one.
- Template resolution, step values and step results: text substitution, no influence on scheduling.
- Database writes and event publishing of the scheduler; run step statuses and attempts are two maps of the class instead of fields behind pointers.
- Exit codes beyond zero and non-zero, step names, run parameters and job metadata.
- Real time: launch delays, retry delays, idle and poll timers and timeouts fire whenever they like. A launch delay that ends by cancellation never calls the executor; that is the stopped run whose callback does not come.
- The default buffer size and concurrency of a subscription: a subscriber comes with its options.
- ValidateJobSteps, UpdateJob and job parameter checks: range checks field by field.
- Whether a shared session that died is ever replaced within its run: only at-most-once and not-lost are claimed for its callbacks, not that one comes.
- The exit code a callback carries when a late send failure or idle event of one step meets the next step tracked on the same shared session.
- What a callback does that a session shared by two schedulers of one run has lost or mixed up: SessionExecutor.LostWithoutExclusion shows that it can be.
- The rebuild of a run between its creation in the store and its installation.
- Two concurrent AddDependency requests: each request is modelled from its insert to its rollback. Likewise the requests of RunJobGraph.JobStore, one after the other; LateWriteIff and LateReplaceIff state what a delayed AddStep or UpdateStep needs.
- The order in which batches written outside the lock reach the store: the model orders lines by hand-over.
- An Ingest that fetched a session's buffer before FlushSession dropped it, and stripping of escape sequences, which is applied to each chunk beforehand.
- Whether the audit store accepts what the injection queue records: failed, dropped and delivered say what is recorded or attempted.
- Several sessions of the injection queue at once: sessions share only the lock and the map, each under its own key.
- Persist handler of the event bus, and the machine status row and delayed disconnect event of the connection manager: done outside the locks.
- ConnectionManager's unconditional Disconnect: no caller.
- Several sweeps at once share one set of stale agents in the model.
- SQLite: LIKE is a definition with the character equality as a parameter, tables are maps and sequences.
- HTTP, authorisation beyond a yes or no, gRPC, TLS, the agent, the frontend, cron, notifications, configuration and logging.
