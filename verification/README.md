# Verified model of the evaluation platform

A Dafny model of the parts of an evaluation platform for language-model programs whose correctness
rests on an invariant or a combinatorial argument: the judge that compares results as multisets, the
durable task runner and its cost ledgers, the life of an asynchronous task shared by users, broker and
workers, the provider retry loop, the resumable experiment and its checkpoints, the response cache,
and the exact statistics of the reports.

| file | what it models |
|---|---|
| Pairings.dfy, UnorderedJudge.dfy | pairings of lists; the augmenting-path matching of `_compare_unordered` |
| TaskRecords.dfy, TaskMachine.dfy, TaskTheorems.dfy, TaskOutcomes.dfy, TaskEndings.dfy, TaskService.dfy | the task runner as a step machine, its theorems, what its steps save and where outcomes come from, how its runs end, and the in-place loop proved against it |
| CostStrategy.dfy, Harness.dfy, HarnessBudgets.dfy, HarnessSettlement.dfy | result cost, ledgers, downgrade and auto-stop on top of the runner |
| Checkpoints.dfy, HarnessRun.dfy | unit checkpoints; evaluation without the task service |
| TaskProtocol.dfy, TaskProtocolTheorems.dfy, TaskTransactions.dfy, TaskManager.dfy | transactions on the shared task row with all actors interleaved; their theorems; what each of them writes; the manager's methods |
| LlmClient.dfy | retries with backoff under a time budget, and spend events |
| Cache.dfy | the size-bounded cache against a plain map |
| Experiment.dfy, ExperimentRunner.dfy | crashes, pauses and both execution modes; the runner's loops |
| Pareto.dfy | dominance, frontier, recommendation and best value |
| Powers.dfy, Binomial.dfy, ExperimentReport.dfy, ModelComparison.dfy | the exact McNemar test and the matrix that feeds it |
| AbTesting.dfy | stratified assignment of two variants |
| Models.dfy, Ordering.dfy | shared values and the order on strings |

`dafny verify dfyconfig.toml` checks everything.

How the state is modelled:

- Files are values replaced as a whole, transactions and saves are single steps, and the broker may
  deliver any message any number of times. A crash keeps the files and loses the memory.
- What a run learns from outside (pause answers, which futures are done, outcomes, costs, durations,
  random draws, directory listings) is a parameter, and theorems hold for every value of it.
- Local variables that a theorem speaks about between two steps are fields of the class that runs the
  loop (`queue` and `pending` of a task run, the futures of an experiment run).

Where the code differs from its own comments or from what one might expect, the code is followed:

- `request_cancel` and a dispatch can cross: the last check and the save of a dispatch are separate, so
  one unit can still go out after the request is on disk (`TaskTheorems.CancelStopsDispatch` and the
  two lemmas after it say exactly when, and that it is one).
- `request_cancel` and a pause can cross too: the run then ends paused with work left, and a resume erases
  the request. `TaskEndings.CancelRequestOutcome` says exactly how a run with a request on disk ends.
- `enqueue_task` does not look at the record it is for. The services check it first; the public task route
  does not, and neither do workers and services that write a row by themselves, so a row can differ from
  its task (`TaskProtocolTheorems.SecondSubmissionFromEmpty`, `WorkerWriteFromEmpty`). Which steps do that is
  `Disturbs`, and `MirrorLostIffDisturbed` says that the list is exact.
- Between two strategies the ledger alone decides whether `run` pauses, so a strategy listed twice can pause a
  run that has nothing left to do, contrary to the comment there. `HarnessRun.PausesForNothingIffLastRepeats`
  says for which configurations: exactly those whose last strategy also occurs earlier in the list, which
  neither `HarnessConfig` nor the benchmark request forbids. Such a pause is for good (`PausedForGood`).
- `update_task_status` lets a worker report its own business task pending, after which a redelivery can
  claim the same generation again. No caller in the repository reports `pending`, so the condition of
  `TaskProtocolTheorems.OneClaimOneWorker` is met by all of them; `SecondClaimIffRequeued` says it is exact.
- A manager without a generation may overwrite the final status of an evaluation and so go past the
  admission quota (`QuotaFromEmpty`); `QuotaBreaksIffRevived` says exactly when. No caller in the repository does
  so under Celery: the evaluation worker's manager has the request id as its generation, and only an invocation
  without one leaves it unbound until src/tasks/evaluation.py:241.
- `cheapest_strategy` says its alphabetical fallback is only for future strategies, but the harness
  allows every known strategy in the mapping, including those that are not on the cost ladder, so the
  fallback is reachable and is modelled.
- A problem whose own budget runs out is recorded by `_run_strategy` with a result that has no traces,
  so what it spent is not in the ledger; the spending bounds are about the cost of recorded results.
- A tie in cost and accuracy goes to the first id in a budget recommendation and to the last id in the
  free best-value pick.

## Model

| member | source | states |
|---|---|---|
| UnorderedJudge.CompareUnordered | src/sandbox_executor.py:884-912 | Two lists are the same exactly when some one-to-one pairing makes every pair comparable; anything else goes to the element comparison |
| UnorderedJudge.Matcher.FindMatch | src/sandbox_executor.py:901-910 | Success gives the item a slot and keeps every holder placed, by slots not visited before; failure leaves the matching unchanged and every visited slot held by an item whose own slots are all visited |
| UnorderedJudge.StuckMeansNoPairing | src/sandbox_executor.py:901-912 | A failed root search leaves a violator of Hall's condition: no system of distinct comparable slots exists at all |
| UnorderedJudge.MatchAll | src/sandbox_executor.py:899-912 | For any comparability table, searching from every item in turn succeeds exactly when a full one-to-one assignment exists |
| UnorderedJudge.TakeOver | src/sandbox_executor.py:905-909 | Taking the slot of a holder that has moved on keeps the matching one-to-one: the step that lengthens an augmenting path |
| UnorderedJudge.VerdictIgnoresOrder | src/sandbox_executor.py:884-912 | Reordering either list cannot change the verdict |
| Pairings.PermutationInvariance | src/sandbox_executor.py:884-912 | The same for an arbitrary element relation, symmetric and transitive or not |
| Pairings.EqualityMatchIsMultisetEquality | src/sandbox_executor.py:884-886 | Under equality, a pairing exists exactly when the lists are equal as multisets |
| Pairings.PairingIsOnto | src/sandbox_executor.py:889-900 | A pairing of equally long lists uses every expected item |
| UnorderedJudge.TextVerdictIsMultisetEquality | src/sandbox_executor.py:865-886 | On lists of texts the verdict is multiset equality, whatever the tolerance |
| UnorderedJudge.EqualMultisetsPass | src/sandbox_executor.py:865-912 | Lists equal as multisets always pass |
| UnorderedJudge.RelationIsNotSymmetric | src/sandbox_executor.py:867-882 | A bool on the left may equal a number, never the other way round |
| UnorderedJudge.RelationIsNotTransitive | src/sandbox_executor.py:868-872 | Three numbers where the ends are too far apart: greedy choice of partners would be wrong |
| UnorderedJudge.ComparableIffPathsAgree | src/sandbox_executor.py:863-882 | The element relation, written out: two values are comparable exactly if at every path that both have, numbers are within the tolerance, lists have the same length, dicts the same keys, a bool on the left equals itself or stands for 0 or 1, and all else is equal |
| TaskMachine.ApplyKeeps | src/task_service.py:276-427 | Every step of a run, of its environment and of a crash keeps the invariant of record, queue, pending set and memory |
| TaskTheorems.EveryRecordIsSound | src/task_service.py:383-418 | In every record ever saved: events numbered 1..n, `completed_units` a true count, a result on exactly the completed units, doubt only on cancelled units |
| TaskTheorems.History | src/task_service.py:297-318 | Over any crashes, cancels, pauses and resumes, a unit saved as completed or failed never changes again and its worker is never invoked again |
| TaskTheorems.OnlyOpenUnitsAreRequeued | src/task_service.py:454-467 | A unit goes back to the queue exactly when a resume finds it running or cancelled |
| TaskTheorems.NonIdleStepsLowerRemaining | src/task_service.py:321-405 | Every step that moves the queue or the pending set lowers 2*queue + pending by exactly one |
| TaskTheorems.RunFollowsQueue | src/task_service.py:318-374 | A run invokes the workers of a prefix of its queue, in queue order, once each |
| TaskTheorems.CancelStopsDispatch | src/task_service.py:357-374 | With a cancel request on disk no later step of the run dispatches, if and only if the run is not between its last check and the save of a dispatch |
| TaskTheorems.LateDispatch | src/task_service.py:363-374 | In that window the dispatch goes out |
| TaskTheorems.AtMostOneLateDispatch | src/task_service.py:357-374 | And it is the only one that can |
| TaskTheorems.CancelledRecord | src/task_service.py:325-344 | The one check that sees the request with work left ends the run cancelled, with no queued unit and exactly the units in flight in doubt |
| TaskEndings.CancelRequestOutcome | src/task_service.py:321-418 | Over whole runs with the request on disk that do not crash: the run ends paused exactly if the pause had been decided before; otherwise it ends cancelled whenever a unit waited, and may finish instead only if none waited and everything in flight has been settled |
| TaskEndings.CancelledRunEnds | src/task_service.py:321-418 | And what becomes of every unit: those waiting are dropped, those in flight settled or in doubt, all others untouched |
| TaskEndings.CancelledRunRecord | src/task_service.py:325-344 | A run that ends cancelled leaves no unit queued, none running but stranded ones, and exactly those in doubt that were in flight and not settled |
| TaskEndings.PauseOutrunsRequest | src/task_service.py:349-355 | A request saved between the decision to pause and its save leaves a paused record with a unit queued and the request on disk; running it again obeys the request, resuming it erases it |
| TaskEndings.WindowsFromFresh | src/task_service.py:349-374 | Both windows, the lost request and the late dispatch, are reached by runs of a fresh task |
| TaskEndings.MovesAreBounded | src/task_service.py:321-405 | A run makes at most 2*queue + pending moves of its queue or pending set |
| TaskEndings.LoadedRunsEnd | src/task_service.py:276-418 | A loaded run of n units ends by itself within 20n + 16 steps of any world in which some worker reports whenever the run waits |
| TaskEndings.ResponsiveRunsEnd | src/task_service.py:321-405 | From any point of a run, its fuel bounds the steps it still takes in such a world |
| TaskTheorems.PausedRecord | src/task_service.py:346-355 | A paused record has a queued unit, and no running unit but those an unresumed run left stranded |
| TaskTheorems.ResumeStrandsNothing | src/task_service.py:299-303 | After a resume every unit is queued, completed or failed |
| TaskTheorems.FinishedRecord | src/task_service.py:407-418 | An emptied run is `completed` exactly when every unit completed, otherwise `failed`; all units are counted exactly if none was stranded |
| TaskRecords.EventsSinceIsSuffix | src/task_service.py:242-246 | A poller that has seen everything up to a sequence number receives exactly the rest |
| TaskTheorems.PlayIsOneRun | src/task_service.py:276-427 | A run played in any world of pause answers, outcomes and cancels is one run of the step machine |
| TaskService.TaskService.Run | src/task_service.py:276-418 | The loop over queue and pending set leaves exactly the state the step machine reaches, ends exactly when it does, and rejects a bad worker count or a terminal record without changing anything |
| TaskService.TaskService.RequestCancel | src/task_service.py:262-274 | The new file, record and in-memory latch after a cancel request, as the machine has them |
| TaskService.TaskService.SaveWithExternalEvents | src/task_service.py:441-452 | The merged record is what is saved and what stays in memory: the longer event list and either cancel flag |
| TaskService.TaskRecord.Prepare | src/task_service.py:454-467 | In place, exactly the open units are requeued, the flag cleared and the count redone |
| TaskService.TaskService.EventsAfter | src/task_service.py:242-246 | The filter over sequence numbers returns the suffix of the event list |
| TaskService.TaskService.CancelExit | src/task_service.py:325-344 | The cancel branch in place: queue and pending emptied, their units marked, record saved |
| TaskService.TaskService.FinishExit | src/task_service.py:407-418 | The normal exit in place |
| TaskService.TaskService.LaunchUnit | src/task_service.py:363-374 | One dispatch in place: the head of the queue saved as running, then submitted |
| TaskService.TaskService.FinishUnit | src/task_service.py:383-403 | One finished future recorded and saved in place |
| TaskOutcomes.OutcomesAreDelivered | src/task_service.py:383-403 | Over any history of a created task, a unit is saved as completed with a result, or as failed with a message, if and only if that outcome of its worker was recorded |
| TaskOutcomes.SettledAsDelivered | src/task_service.py:383-403 | The same from any state: nothing but a recorded outcome settles a unit |
| TaskOutcomes.ReturnCompletes | src/task_service.py:383-403 | A worker that returns completes its unit with that very result: one more counted, one event, nothing else moves |
| TaskOutcomes.RaiseFails | src/task_service.py:391-403 | One that raises fails its unit with the message, which becomes the record's error unless it has one that is not empty |
| TaskOutcomes.CalmRunCompletes | src/task_service.py:321-418 | A run that nobody disturbs and whose workers all return ends with the task and every unit completed, each with a result |
| TaskOutcomes.FreshRunCompletes | src/task_service.py:276-418 | In particular the first run of a new task |
| TaskOutcomes.DispatchesWhileRoom | src/task_service.py:357-365 | The next unit goes out exactly when there is one, a worker is free, no pause is due and no cancel request is seen |
| TaskOutcomes.CheckDecides | src/task_service.py:346-355 | Without a request, a check with work left pauses exactly on a positive answer with a unit queued and nothing in flight |
| TaskOutcomes.LaunchSaves | src/task_service.py:363-374 | A dispatch saves the head of the queue as running without an error, logs it and calls its worker |
| TaskOutcomes.StartSaves | src/task_service.py:305-318 | A start clears error and request, remembers the request in memory, and queues exactly the queued units in order |
| TaskOutcomes.ResumeSaves | src/task_service.py:454-467 | A resume puts running and cancelled units back as they were created and leaves all others alone |
| TaskOutcomes.CancelSaves | src/task_service.py:325-344 | The cancel exit logs each dropped unit, then each one in doubt, then the end, and leaves the request on disk |
| TaskOutcomes.FinishSaves | src/task_service.py:407-418 | The normal exit leaves the units as they are and logs the end |
| TaskOutcomes.PauseSaves | src/task_service.py:349-355 | A pause leaves the units as they are and logs itself |
| TaskOutcomes.RequestSaves | src/task_service.py:262-274 | A cancel request sets the flag and logs itself on a task that has not ended, and nothing on one that has |
| TaskOutcomes.FailSaves | src/task_service.py:252-260 | A setup failure records its message and leaves the units as they are |
| TaskOutcomes.CreateSaves | src/task_service.py:207-233 | A new task is queued, with a queued unit for each specification and one event |
| CostStrategy.ResultCost | src/cost_strategy.py:78-120 | The known cost of a result, and unknown usage flagged for exactly the results that spent tokens at a price nobody can tell |
| CostStrategy.CostsAddUp | src/cost_strategy.py:91-114 | The known cost of calls put together is the sum of their known costs, however they are split |
| CostStrategy.CostOfOneCall | src/cost_strategy.py:94-114 | A single call costs its amount if that is finite and not negative with usage and pricing known, and nothing otherwise |
| CostStrategy.UnknownUnlessTrusted | src/cost_strategy.py:91-120 | Usage is unknown exactly if some price is not of that kind, or tokens were spent without any trace |
| CostStrategy.RunCostMonitor.AddResult | src/cost_strategy.py:133-139 | A settled result adds its known cost, and counts once if its usage is unknown |
| CostStrategy.DifficultyBudgetMonitor.AddResult | src/cost_strategy.py:188-192 | Settles into the ledger of the difficulty and into no other |
| CostStrategy.CheapestStrategy | src/cost_strategy.py:66-75 | Vanilla if it is mapped, else chain of thought, else multi-round feedback; the alphabetically first when none of them is |
| Harness.LedgersMatchRecord | src/harness.py:263-279 | After any crashes and resumes each ledger is the cost of exactly the completed units it covers, each once, but for the unit whose callback is due |
| Harness.WeightOfUnit | src/harness.py:263-279 | A completed unit weighs its known cost in the run's ledger and in that of its own difficulty, and nothing in any other |
| Harness.WeightsAddUp | src/harness.py:263-279 | And the weights of a record add up, however it is split |
| Harness.DeliverSaves | src/harness.py:373-376 | A delivered result is saved as the worker handed it back, marked with the downgrade it had decided on |
| Harness.DowngradeBound | src/harness.py:333-376 | Completed units that ran another strategy than the cheapest cost less than the cap plus one unit per worker, for the run and inside each budgeted difficulty |
| HarnessBudgets.DowngradedOnlyAtCap | src/harness.py:333-376 | Over any history, a unit recorded as downgraded has its reason in the record: the run at its cap under the downgrade rule, or the unit's own difficulty at its budget |
| HarnessBudgets.PausedOnlyAtCap | src/harness.py:444-457 | Over any history, a record saved as paused is that of an `auto_stop` run and has completed units worth the cap and a unit queued |
| Harness.OtherDifficultiesDoNotDowngrade | src/harness.py:338-349 | One choice depends only on the run's ledger and the unit's own difficulty's |
| Harness.AutoStopBound | src/harness.py:444-457 | With `auto_stop` every dispatch happens below the cap and the known cost stays below the cap plus one unit, over any pauses, crashes and resumes |
| Harness.PausesExactlyWithWorkLeft | src/task_service.py:346-355 | One check at the cap pauses exactly with a queued unit and nothing in flight; with an empty queue the run finishes |
| HarnessSettlement.Ledgers.ReplayUnits | src/harness.py:263-279 | The resume loop rebuilds in every ledger the total of the saved results it covers |
| HarnessSettlement.Ledgers.SettleUnit | src/harness.py:395-425 | One durable result enters the ledgers that cover it; the downgrade counts and the first-trigger signal follow |
| HarnessRun.SpendingBound | src/harness.py:680-777 | Without the task service too: over any attempts that crash, pause or resume, the known cost of what was run and checkpointed stays below the cap plus one unit |
| HarnessRun.AttemptsExtend | src/harness.py:716-768 | Every attempt only appends results; wherever the cap was consulted the results before were below it, and repeated units share one result |
| HarnessRun.AttemptLaw | src/harness.py:698-777 | Exactly what an attempt does, place by place: a unit takes the saved result it repeats or the one its worker ends with, while neither the cap nor a request stops it; the first place where that fails ends the attempt, as finished, paused or died |
| HarnessRun.SpentAddsUp | src/harness.py:690-696 | The spent cost is the sum of the known costs of the results |
| HarnessRun.PausedIffIncomplete | src/harness.py:176-198 | An attempt that returns is paused exactly if it has not entered all results |
| HarnessRun.PausedIffMissing | src/harness.py:188-198 | With distinct strategies and problems: exactly if some unit has no checkpoint, as the comment there promises |
| HarnessRun.PausesForNothingIffLastRepeats | src/harness.py:188-198 | Exact, on the plan alone: some attempt pauses with every unit checkpointed if and only if there are a cap and problems and the last strategy also occurs earlier in the list |
| HarnessRun.PausedPlanRepeats | src/harness.py:188-198 | Its only-if half for attempts that resume any results: a plan whose last strategy is new never pauses with nothing left to run |
| HarnessRun.RepeatingPlanPauses | src/harness.py:188-198 | Its if half gives the world: free units but for the last that is no repetition, which costs the cap |
| HarnessRun.PausedForGood | src/harness.py:180-198 | A run that paused with nothing left never completes: every later resume pauses at the same place with the same results, whatever it meets |
| HarnessRun.RepeatedStrategyPauses | src/harness.py:188-198 | A strategy listed twice whose first pass reaches the cap: everything has run, and the run pauses |
| HarnessRun.CrashesDoNotMoveTheStop | src/harness.py:716-768 | Whatever crashes came before, an attempt that returns stops at the unit where an unbroken run stops |
| HarnessRun.StopExists | src/harness.py:680-696 | That place exists and is unique for any unit costs |
| HarnessRun.Runner.Run | src/harness.py:174-201 | The nested loops over strategies and problems leave on disk, in the result list and in the ledger what the attempt function says, and set `paused` exactly when it pauses |
| HarnessRun.Runner.RunStrategy | src/harness.py:698-777 | The same for one strategy: saved units replayed into list and ledger, the others asked, run, checkpointed and settled |
| TaskProtocolTheorems.OneClaimOneWorker | src/task_manager.py:606-641 | Under every interleaving of users, deliveries, redeliveries and broker reports, each generation is claimed at most once and only the claimer of the current one can be live, unless a claimed task is reported pending |
| TaskProtocolTheorems.SecondClaimIffRequeued | src/task_manager.py:552-575 | Exact: a step from a state that keeps the protocol lets a next step claim twice if and only if it reports a claimed business task pending |
| TaskProtocolTheorems.RequeueFromEmpty | src/task_manager.py:552-575 | From an empty database: a worker reports its own task pending and a redelivery claims the same generation again |
| TaskProtocolTheorems.ResumeAfterStop | src/task_manager.py:764-809 | A continuation is reserved, under a new generation, only after the current generation's claimer has confirmed stopping and with no worker live |
| TaskProtocolTheorems.FinalStep | src/task_manager.py:223-231 | A completed, failed or cancelled task changes exactly when a manager without a generation reports another status on an evaluation |
| TaskProtocolTheorems.FinalForever | src/task_manager.py:223-231 | So final states are absorbing over whole runs, without condition for the three business kinds |
| TaskProtocolTheorems.StaleGenerationsAreMute | src/task_manager.py:223-231 | Reports, deliveries, stop confirmations and failed publications of a superseded generation change nothing in the tables; nor do broker reports taken over by a manager bound to it, except on evaluations, where the exact cases are listed |
| TaskProtocolTheorems.AdmissionStep | src/task_manager.py:233-277 | Only submitting and resuming take an admission slot, each only while there is room |
| TaskProtocolTheorems.AdmissionSafe | src/task_manager.py:233-277 | No reachable committed state gives a user more pending and running evaluations than the limit, unless a manager without a generation revives one |
| TaskProtocolTheorems.QuotaBreaksIffRevived | src/task_manager.py:223-231 | Exact: with the quota full, a step goes past it if and only if it revives one of the user's evaluations |
| TaskProtocolTheorems.QuotaFromEmpty | src/task_manager.py:223-231 | A script from an empty database with one slot: an unbound report puts a failed evaluation back to running beside its successor |
| TaskProtocolTheorems.RowsMirrorTasks | src/task_manager.py:169-211 | As long as no step disturbs a row, in every committed state each experiment, benchmark and A/B row shows the status of the one task it is paired with |
| TaskProtocolTheorems.MirrorLostIffDisturbed | src/task_manager.py:342-400 | Exact: a step lets a row go wrong, at once or by a next step that disturbs nothing itself, if and only if it submits an owned record that is not pending or has a task, writes another status than its task's on a row, creates a record that a started task or several were submitted for, or pauses a row over budget through another user's task |
| TaskProtocolTheorems.SecondSubmissionFromEmpty | api/routes/tasks.py:63-95 | From an empty database: a running experiment submitted again through the public route; cancelling the second task writes cancelled on the row while the first task runs |
| TaskProtocolTheorems.WorkerWriteFromEmpty | src/tasks/benchmark.py:81-90 | From an empty database: a failing benchmark worker commits its row before its task, and the two differ |
| TaskProtocolTheorems.ServiceSubmissionsAreQuiet | api/services/experiment_service.py:250-263 | A submission disturbs exactly when the record is owned and the services' check would refuse it |
| TaskProtocolTheorems.ReachableStates | src/task_manager.py:87-845 | Mirrored rows and the admission limit from an empty database, each under its own condition on the steps |
| TaskProtocolTheorems.ProtocolHolds | src/task_manager.py:606-672 | The invariant behind the claims: fresh identifiers, claims once, a pending or stop-confirmed task has no live worker |
| TaskTransactions.ReportStores | src/task_manager.py:521-595 | A report on a task stores exactly the reported status, in the task and in its own row, if the manager's generation is current or absent and the task is open to it, or if the manager is unbound and the task an evaluation; otherwise nothing changes |
| TaskTransactions.CompletedIffReported | src/task_manager.py:552-595 | Over every interleaving from an empty database, a business task is completed if and only if an accepted report said so |
| TaskTransactions.CompletedWasReported | src/task_manager.py:552-595 | For any kind: no completed task without an accepted report of its completion |
| TaskTransactions.PauseStores | src/task_manager.py:643-672 | A pause stops exactly a running task of the user whose business row has not ended, and takes back the stop confirmation of a business task |
| TaskTransactions.CancelStores | src/task_manager.py:674-728 | A cancel ends exactly a task of the user that has not ended, nor its business row |
| TaskTransactions.ClaimStores | src/task_manager.py:606-630 | A delivery makes a pending task of its generation running, and is otherwise without effect |
| TaskTransactions.ExitStores | src/task_manager.py:632-641 | A leaving worker confirms the stop of a paused task of its own generation and writes nothing else |
| TaskTransactions.FailedPublicationStores | src/task_manager.py:408-430 | A failed publication fails a task nobody has touched since; the row of a first-time evaluation stays |
| TaskTransactions.BrokerStores | src/task_manager.py:473-519 | What each broker state makes of an open task of each kind, field by field |
| TaskTransactions.ResumeStores | src/task_manager.py:764-809 | A resume of a stopped task whose own row is paused makes it pending under a fresh generation, with room for evaluations; any other changes nothing |
| TaskTransactions.SubmitStores | src/task_manager.py:342-400 | A submission adds one pending task with fresh identifiers if there is room, and links the row of a hooked evaluation |
| TaskTransactions.BudgetStores | api/services/benchmark_service.py:334-354 | A benchmark over budget is paused together with its running row, whoever owns that |
| TaskManager.TaskManager.ClaimTask | src/task_manager.py:606-630 | The claim as one transaction, and the manager bound to the claimed generation |
| TaskManager.TaskManager.UpdateTaskStatus | src/task_manager.py:552-595 | A status report as one transaction, blocked or mirrored |
| TaskManager.TaskManager.UpdateTaskProgress | src/task_manager.py:521-550 | A progress report as one transaction |
| TaskManager.TaskManager.ConfirmStop | src/task_manager.py:632-641 | The stop confirmation, only by the generation that is paused |
| TaskManager.TaskManager.SyncCeleryState | src/task_manager.py:473-519 | What the broker's report does to the current generation |
| TaskManager.TaskManager.PauseTask | src/task_manager.py:643-672 | Broker report, then pause, with the error cases |
| TaskManager.TaskManager.CancelTask | src/task_manager.py:674-728 | Broker report, then cancel, with the error cases and the idempotent one |
| TaskManager.TaskManager.EnqueueTask | src/task_manager.py:342-400 | Admission, insertion and the link of the hook in one transaction, or nothing; the record is not looked at |
| TaskManager.TaskManager.ResumeTask | src/task_manager.py:748-809 | Admission and reservation of a continuation in one transaction, with the error cases |
| TaskManager.TaskManager.EnqueuePublishFailed | src/task_manager.py:408-430 | A failed publish fails the task only if it is still pending, and the row only of a task that is no evaluation |
| TaskManager.TaskManager.ResumePublishFailed | src/task_manager.py:821-845 | A failed publish of a continuation fails task and row only if that generation is current and still pending |
| TaskManager.TaskManager.CountActive | src/task_manager.py:265-275 | The admission query counts the user's pending and running evaluations |
| LlmClient.RetryBudget | src/llm_client.py:520-555 | Every retry starts with provider time plus sleep below the time budget; after k retries the sleep is backoff*(2^k - 1) and k is below the number of attempts |
| LlmClient.RetryLaw | src/llm_client.py:491-557 | Exact: a refusal is followed by another attempt if and only if its status is 429 or at least 500, or its class name is transient and its status no client error, an attempt is left, provider time, sleep and the next wait stay below the time budget, and its event was stored; the attempt that none follows decides the result |
| LlmClient.BookkeepingTimeIsFree | src/llm_client.py:523-553 | Time spent on admission, telemetry and accounting never changes the outcome |
| LlmClient.EventsMatchCalls | src/llm_client.py:344-373 | With a working sink, as many spend events as provider calls, also when an attempt is refused admission; all but the last are unknown, and the last carries the response exactly when there is a usable one |
| LlmClient.Client.CallWithRetry | src/llm_client.py:506-557 | The loop with its clock readings computes the clock-free function: admission, telemetry and accounting cancel out of `elapsed` exactly |
| LlmClient.Client.Generate | src/llm_client.py:334-390 | One cached event on a hit; otherwise the events of the loop and of its ending, and a response exactly when it is usable and stored |
| Cache.CacheRefinesMap | src/cache.py:153-337 | Over any history the directory holds exactly the entries of the plain map that have not been evicted since they were set |
| Cache.GetReturnsLastSet | src/cache.py:153-202 | A lookup answers with the response last set for the key exactly if it was not cleared, not evicted since and is younger than its time to live |
| Cache.EvictionIsMinimal | src/cache.py:259-298 | The evicted entries are the shortest oldest-access-first prefix whose removal makes the directory fit |
| Cache.AccessIsLastUse | src/cache.py:137-141 | Over any history, the access time of every entry is that of the last `set` of its key or the last lookup it answered |
| Cache.EvictsLeastRecentlyUsed | src/cache.py:259-298 | So eviction is by least recent use: over any history no `set` evicts an entry used after one it keeps |
| Cache.HitSurvives | src/cache.py:181-182 | An entry hit since every other access survives the next `set` whenever the two fit together |
| Cache.SetFits | src/cache.py:204-249 | After every `set` the directory fits, however it is listed |
| Cache.NewEntryEvictedOnlyIfTooBig | src/cache.py:278-284 | When the clock has moved on since every other access, the new entry survives exactly if it alone fits |
| Cache.SizeOfPermutation | src/cache.py:251-257 | The total size does not depend on the order of the listing |
| Cache.LLMResponseCache.Set | src/cache.py:204-249 | Write, access log and eviction leave the store the functions say |
| Cache.LLMResponseCache.Get | src/cache.py:153-202 | Answer, access log and hit and miss counts of a lookup |
| Cache.LLMResponseCache.EnforceSizeLimit | src/cache.py:259-298 | The eviction loop deletes exactly the victims, from directory and log |
| Cache.LLMResponseCache.Clear | src/cache.py:300-336 | Removes everything, or exactly the entries of one model |
| ExperimentMachine.ReturnedRun | src/experiment.py:158-234 | After any crashes, pauses, resumes and refused inputs, in either mode, a run that returns lists records of the manifest's inputs only, no job twice, and has paused exactly if some job has no record |
| ExperimentMachine.ComputedOnce | src/experiment.py:166-196 | A future is only ever computed for a job that has no checkpoint |
| ExperimentMachine.FirstResultStands | src/checkpoints.py:40-45 | A checkpointed result stays as it is through everything that follows |
| ExperimentMachine.SavedAsComputed | src/experiment.py:177-196 | Over any history, a job is checkpointed with a payload if and only if a future computed just that for it |
| ExperimentMachine.IncompleteIffPauseHeard | src/experiment.py:106-110 | A run that can return has left a job without a record if and only if the main thread or a future heard a pause request in it |
| ExperimentMachine.NothingSubmittedAfterPause | src/experiment.py:203-205 | Once the main thread has heard one, it submits nothing more |
| ExperimentMachine.ListFollowsRecords | src/experiment.py:211-223 | From the first future on, the list on disk is that of the records entered so far |
| ExperimentMachine.RecoveredInJobOrder | src/experiment.py:163-175 | Checkpoints that a killed run left unlisted are added in job order |
| ExperimentMachine.OrderIsFixed | src/experiment.py:199-234 | An unpaused run lists what the directory held at its start and then its jobs by index, in both modes and under every schedule |
| ExperimentMachine.FreshRunInJobOrder | src/experiment.py:202-223 | From an empty directory that is job 0, 1, 2, ... in either mode |
| ExperimentMachine.ApplyKeeps | src/experiment.py:112-245 | Every step keeps: records are checkpoints of distinct jobs, checkpoints of the current jobs are exactly the finished results, a pause left a job without one |
| ExperimentMachine.BaseSplits | src/experiment.py:163-175 | The scan at the start puts every job either into the records or into the job list, never both |
| ExperimentRunner.Runner.Run | src/experiment.py:112-245 | The serial and the parallel loop on the directory: refusal changes nothing; otherwise complete or paused, first results kept, new checkpoints hold what their jobs compute, unpaused records in job order, and paused exactly if a pause question was answered yes |
| ExperimentRunner.Runner.Start | src/experiment.py:155-175 | Reading the list, adding unlisted checkpoints and listing the remaining jobs is one step of the machine |
| ExperimentRunner.Runner.RunCombo | src/experiment.py:177-196 | A future asks for a pause, or computes and checkpoints its job |
| Checkpoints.UnitCheckpoint.Open | src/checkpoints.py:28-35 | Other inputs are refused and nothing changes; a new directory gets its manifest |
| Checkpoints.UnitCheckpoint.Put | src/checkpoints.py:44-45 | One unit file is replaced and no other |
| Pareto.FrontierCovers | src/pareto.py:245-257 | Every point is on the frontier or is dominated by a frontier point |
| Pareto.FrontierMembers | src/pareto.py:245-257 | The frontier is exactly the points no point dominates, in the order of the sort key |
| Pareto.FrontierIsAStaircase | src/pareto.py:254-257 | Along the frontier more cost always buys more accuracy, but for ties in both, which stand in id order |
| Pareto.RecommendIsOptimal | src/pareto.py:270-281 | A budget is feasible exactly if some point is affordable, and gets the greatest affordable accuracy at the least cost over all points |
| Pareto.RecommendIsMonotone | src/pareto.py:270-281 | A larger budget loses neither feasibility nor accuracy |
| Pareto.DefaultBudgetsWalkTheFrontier | src/pareto.py:268-272 | Without budgets, each frontier cost gets back a frontier point of that cost and accuracy |
| Pareto.BestValueIsBest | src/pareto.py:258-267 | The pick is the most accurate free point if some point solves anything for free, else the greatest accuracy per dollar over all points that solve anything, and none only if none does |
| Pareto.RecommendTakesFirstId | src/pareto.py:272 | Ties in cost and accuracy: a budget gets the first id |
| Pareto.FreeValueTakesLastId | src/pareto.py:261 | Ties in accuracy among the free points: the best-value pick gets the last id |
| Pareto.FirstMaxIsMax | src/pareto.py:260-272 | The first-of-the-greatest scan is a maximum for any key order |
| Pareto.MarkDominated | src/pareto.py:245-253 | The loop over the points stores on each the ids of exactly its dominators, in order, and marks those without any |
| ExperimentReport.PValueIsExact | src/experiment_report.py:468-469 | The p-value is the share of all length-n outcome strings that are at least as lopsided as the one observed |
| ExperimentReport.AnnotationIsExact | src/experiment_report.py:455-477 | For all counts: significant exactly if forty times the lower binomial tail is below 2^n, no test exactly without discordant pairs, the small-sample note exactly below five |
| ExperimentReport.TwiceTheTail | src/experiment_report.py:468 | With unequal wins and losses, twice the tail counts exactly those strings, and is at most 2^n |
| ExperimentReport.TwiceTheHalf | src/experiment_report.py:468 | With equal ones it counts the even split twice and exceeds 2^n |
| ExperimentReport.CapNeededOnTies | src/experiment_report.py:469 | So the cap at one is needed exactly when wins equal losses |
| ExperimentReport.PValueOrder | src/experiment_report.py:455-477 | It lies in (0, 1], is symmetric, and never falls as the split of the same number of pairs gets more even |
| ExperimentReport.SignificanceNeedsSixPairs | src/experiment_report.py:470-476 | With five discordant pairs or fewer nothing is significant; from six on a one-sided outcome is |
| Binomial.StringsByWins | src/experiment_report.py:468 | The outcome strings with a number of wins in a range number the sum of the binomial coefficients over it |
| Binomial.StringsEnumerates | src/experiment_report.py:469 | The enumeration holds every outcome string of length n exactly once, 2^n in all |
| Binomial.SumMirrors | src/experiment_report.py:458-459 | The upper tail equals the lower one, which is why doubling is right |
| ModelComparison.MajoritySolved | src/experiment_report.py:431-452 | A problem is solved exactly when more than half of the repeats that have results ended in success on it, the last result of a repeat standing |
| ModelComparison.LastResultStands | src/experiment_report.py:441-447 | What stands for a problem in a repeat is the last result read about it: solved exactly if that one is a success |
| ModelComparison.ReadInOrder | src/experiment_report.py:441-447 | Results are read combination by combination, each in its own order |
| ModelComparison.OnlyFirstCounts | src/experiment_report.py:514-522 | Wins count exactly the problems that one side solved and the other did not |
| ModelComparison.Compare | src/experiment_report.py:514-526 | One cell: wins and losses are the problems solved by one side only, and with the ties they are all problems |
| ModelComparison.BuildMatrix | src/experiment_report.py:507-539 | The loops over ordered pairs fill every cell of the matrix and open the tests |
| ModelComparison.MatrixMirrors | src/experiment_report.py:507-533 | One model's wins are the other's losses, ties agree, and a cell sums to the number of problems |
| ModelComparison.CellsExplainSolved | src/experiment_report.py:514-539 | Wins minus losses is the difference of the two solved counts |
| ModelComparison.OneTestPerPair | src/experiment_report.py:534-538 | Every unordered pair of models is tested exactly once, smaller name first |
| ModelComparison.TestsAnnotateCells | src/experiment_report.py:535-538 | Each test is that of its cell's two counts |
| AbTesting.StratifiedAssign | src/ab_testing.py:91-111 | For any shuffle every problem gets one of the variants; with unique ids they differ by at most one inside each stratum and overall, the first variant getting the odd one, and each stratum is dealt in turn in its shuffled order; refused exactly without two variants |
| AbTesting.PlanTest | src/ab_testing.py:178-190 | The checks after it: rejected exactly for repeated ids or fewer than two problems, otherwise both variants are used |
| AbTesting.Deal | src/ab_testing.py:109-110 | Dealing in turn gives each item a variant and the starting one the odd item |
| AbTesting.EveryOrder | src/ab_testing.py:104 | Every order of the items of a stratum comes out of the shuffle for some draws |
| AbTesting.Shuffle | src/ab_testing.py:104 | The in-place shuffle computes the drawn order, a permutation of the items |
| AbTesting.Group | src/ab_testing.py:97-99 | The groups are exactly the strata, each with its problems in order |
| AbTesting.FairStep | src/ab_testing.py:104-108 | Dealing one more stratum, an odd one starting where the last odd one left off, keeps the balance of every stratum and of the whole |
| AbTesting.UniqueByCount | src/ab_testing.py:183-184 | Ids are unique exactly if there are as many as problems |
| AbTesting.VariantsUsed | src/ab_testing.py:185-188 | A balanced assignment uses both variants exactly from two problems on |

## Left out

- Docker and subprocess execution, JSON and file encoding, fsync, locks, SQLAlchemy, Celery and HTTP transport: files are values, transactions are steps, the broker is a bag of messages.
- Timestamps, messages, progress dictionaries, notifications, metrics and log output: nothing modelled depends on them.
- Floats and `Decimal`: costs, accuracies and p-values are reals, displayed rounding is dropped, NaN and infinities in judged values are not part of this model.
- TaskTheorems.EveryRecordIsSound: does not claim that no event is ever lost, because the longer list wins a merge and a concurrent cancel event of equal length can be overwritten.
- TaskService.TaskService.Run: `request_cancel` and the merging save are single steps; one run of a record is live at a time; callbacks and saves do not raise; fingerprint checks are left to the caller.
- TaskTheorems.PausedRecord: a run started without resume after a crash leaves the units the dead run had in flight as running; the record names them stranded until a resume.
- TaskProtocolTheorems.OneClaimOneWorker: `create_task`, import rows and claims without a generation are not part of this model; a claimed task is never reported pending.
- TaskProtocolTheorems.AdmissionSafe: status reports on evaluations by a manager without a generation are only modelled as far as they revive none; the exact effect is `QuotaBreaksIffRevived`.
- TaskManager.TaskManager.EnqueueTask: identifiers are drawn from a counter in place of random ones.
- TaskProtocolTheorems.RowsMirrorTasks: tasks are never deleted, so the nightly cleanup of ended tasks and the A/B service's delete of an ended test with its tasks (api/services/ab_test_service.py:166-191) are left out; a service that finishes an experiment writes row and task in one transaction, which is a status report here.
- Harness.DowngradeBound: the process is one harness on one record; alerts and the cost panel only read the ledgers and are left out.
- HarnessRun.Runner.Run: a checkpoint directory is always given; without one nothing is saved or replayed.
- HarnessSettlement.Ledgers.SettleUnit: the in-place loop of the task service does not call the in-place ledgers; both are proved against the one machine of Harness.dfy, where the callback and the pause answer are steps.
- LlmClient.Client.Generate: an unsupported provider, the hook before generation and a missing spend sink are left out; a sink that fails ends the call and is excluded from the count of events.
- Cache.GetReturnsLastSet: reads and writes do not fail and files hold what was written, so the recovery branches for damaged files are left out; keys are abstract.
- ExperimentMachine.ReturnedRun: a checkpoint directory is always given; inputs stand for the hashed configuration and dataset, two of them equal exactly when their fingerprints are.
- ExperimentRunner.Runner.Run: the pool is a schedule of its futures between the steps of the main thread; a unit that raises ends the run like a crash.
- Pareto.RecommendIsOptimal: grouping and averaging of repeats, cohort validation and exclusion of unknown costs are left out; points are what remains.
- ModelComparison.BuildMatrix: the grouping by strategy and the cost-effectiveness ranking around the matrix are left out.
- AbTesting.StratifiedAssign: strata are visited in any order, the code sorts them; the seeded generator is any stream of draws.
- The recommender, calibration, failure report, optimizer, capability map, per-problem budget tracker and the rendering of reports: simple counters and formatting.
