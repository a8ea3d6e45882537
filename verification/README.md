# Verified model of the Jobistemer scheduler

Jobistemer runs jobs on schedules, on any number of nodes that coordinate only through a shared store:
each occurrence of a job gets an identifier computed from the job and the UTC second it is scheduled for,
and the node whose create-if-absent succeeds executes it. This project models that machinery in Dafny and
proves what it guarantees, for every input, every run and every interleaving. `dafny verify dfyconfig.toml`
checks everything.

| modules | what they model |
|---|---|
| `Types`, `Records` | instants in nanoseconds, occurrence records and their storage keys |
| `Protocol`, `ProtocolLaws`, `ProtocolTheorems`, `ProtocolLimits` | ticks, recovery, executors, reapers, updates, crashes and clocks over one store, as a step relation; what its steps store; its guarantees; runs showing where they stop |
| `ReaperSafety`, `SkipExclusion`, `Snapshots` | what the reaper may overwrite; when executions of a job exclude each other; which records carry the owning node and the configuration |
| `Executor`, `Sequential`, `Overrides`, `Parallel`, `ParallelTheorems`, `Progress`, `Outcomes` | the retry loop with its records, the two runners, per-task strategies, and one occurrence's execution with the status it stores |
| `FlatStore`, `TypedTables`, `GeneratedRows`, `OccurrenceRows` | the string-keyed store searched by prefix, substring, suffix and slash count, five typed tables it refines, why generated ids meet the refinement's terms, and how its rows are the occurrence table the other modules use |
| `Ids` | the composition of generated identifiers |
| `CronTicker`, `IsoTicker`, `PauseProtocol` | occurrence enumeration, the live firing loops, pausing through a one-slot channel |
| `Pool`, `PoolLimits` | worker pool, watchers and shutdown as a step relation; what a timed-out shutdown can do |
| `UpdatePolicies`, `VersionedUpdate` | the three schedule-update policies; versioned updates and the in-memory mirror |
| `Recovery` | selection of missed occurrences and what repeated recovery passes create |

In the step relations every store call is one atomic step, and everything the code does not control (clocks,
crashes, scan order, task results, cancellation) is a free choice of the step. Store calls may also fail for
reasons of their own in `Protocol`, `Recovery` and `VersionedUpdate`, and in `Outcomes` the writes of the
occurrence record. Code that works
on one goroutine is written as methods with loops, proved against a specification whose laws are lemmas.
Identifier generation is a parameter of the protocol: at-most-once needs it to be a function and nothing else.

## Where the code differs from its documentation

The model follows the code. The differences that matter:

- Skip (`README.md:173`) checks and then creates (`scheduler/scheduler.go:186-221`), and a Pending occurrence
  does not count as running (`job.go:101`): `SkipExclusion.SkipOverlaps` is a run in which two occurrences of a
  Skip job are at work together. Its executions exclude each other when no check is made while another
  process of the job is between its own check and its write of Running (`SkipExclusion.SkipExcludes`), and
  `SkipExclusion.OverlapPossibleIff` says exactly which two processes can come to execute together.
- Queue (`README.md:177`) is not implemented: the trigger goes on to create (`scheduler/scheduler.go:222-224`). Beside a
  process of the job that is at work or may get there, a check for a new key leads to both at work unless the policy
  is Skip and the store shows Running, and never then: `SkipExclusion.CheckOverlapsIff`.
- The README calls interrupted updates safe to rerun and their writes one transaction (`README.md:813-823`).
  Each write is its own transaction (`update/update.go:68-115`), and after a failure half-way no update of that job
  can ever succeed again: `VersionedUpdate.FailedUpdateLocksOut`.
- The README calls recovery idempotent if it crashes (`README.md:514`, `README.md:596`). The records are, the executions
  are not: what a crashed node held before its write of Running, begun or not, is never executed, listed by a reaper or
  created again (`ProtocolTheorems.CrashLoses`, `ProtocolTheorems.LostForever`). Failing create calls are swallowed
  (`recovery/recovery.go:142-146`), so a missed time can be left out without a word (`Recovery.CreatedKeys`).
- A schedule update reads the clock before it lists pending records (`update/update.go:128-163`), so it can cancel an
  occurrence that fell due in between and even overwrite its Completed status: `ProtocolLimits.RacedUpdateCancelsCompleted`.
  A graceful update that found nothing ahead lists a second time (`update/update.go:199-202`) and may then cancel the
  earliest slot as well: `ProtocolLimits.RacedGracefulCancelsEarliest`. With all readings at one instant no policy
  ever cancels anything: `ProtocolTheorems.AtomicUpdatesNeverCancel`.
- The reaper's threshold is one hour whatever the job's execution timeout (`recovery/reaper.go:56`). An execution at work
  can be finished by its executor and then overwritten as stale exactly when it is more than an hour old:
  `ReaperSafety.OverwritePossibleIff`.
- The parallel runner always returns a nil error (`executor/executor.go:180`), so Completed is stored even for a failed
  group (`Outcomes.FailedGroupIsStoredCompleted`, `Outcomes.ParallelStatusTruthfulIff`).
- The failure strategy is documented as overridable per task (`README.md:296`); the sequential runner does not look at
  overrides (`executor/executor.go:101`). A run honours them exactly when every task that failed in it agrees with the
  job on fail-fast (`Overrides.HonouredIff`), and some behaviour of the tasks shows the difference exactly when some
  task's override disagrees (`Overrides.SomeRunDiffersIff`).
- The executor's first write drops the owning node and the configuration snapshot (`executor/executor.go:331-343`): a
  record has them exactly while it is a tick's and Pending or Canceled (`Snapshots.SnapshotIff`), and a stale
  cancellation can bring them back (`Snapshots.SnapshotLostAndFound`).
- A negative retry limit runs no attempt and then dereferences a nil error (`executor/executor.go:251`): a sequential run
  panics exactly when it reaches such a task (`Sequential.ExecuteSequential`).
- The interval and one-shot tickers write the negation of a command they receive while waiting as paused
  (`ticker/iso8601.go:86-96`, `ticker/once.go:89`): a pause can undo itself (`PauseProtocol.IntervalPauseUndone`),
  and a resume that a ticker waiting as paused accepts is always written back as a pause
  (`PauseProtocol.BlockedResumeIsLost`).
- An interval ticker waits for its next run however far outside the window that run lies (`ticker/iso8601.go:98-112`), so
  it fires run k exactly when no run up to k is outside (`IsoTicker.FiresRunIff`), though the enumeration lists later
  ones (`IsoTicker.ListedButNeverFires`).
- A shutdown that times out can send on the closed queue, which panics: some run does exactly when there is a job
  (`PoolLimits.PanicIff`). It also lets the watchers run closures themselves once the pool has stopped
  (`concurrency/pool.go:68-101`): the concurrency limit can be exceeded exactly when there are more jobs than workers
  (`PoolLimits.OverLimitIff`).
- A configuration given to an update is stored as no bytes (`update/update.go:277-285`), so memory and store disagree on
  it (`VersionedUpdate.ConfigAgreesIff`).

## Model

| member | source | states |
|---|---|---|
| ProtocolTheorems.AtMostOnce | scheduler/scheduler.go:230-276 | Over every run of ticks, recovery passes, crashes and restarts on any number of nodes, no two executions begin for one job and UTC second. |
| Types.SameSecondIff | id/id.go:36-42 | Two instants have one identity second exactly when one whole UTC second holds both. |
| ProtocolLaws.RecordsComeFromTriggers | scheduler/scheduler.go:230-261 | In every run each stored record is that of a tick or a recovery pass that happened, with its job, version and scheduled time, created no earlier than it was due. |
| ProtocolLaws.CheckMakesRecord | scheduler/scheduler.go:230-256 | A check that passes makes the pending record of the tick, with owner and configuration stored and neither in the executor's copy. |
| ProtocolLaws.ExecutionStores | executor/executor.go:36-76 | In every run an execution stores Running with the time it began, then Failed or Completed as its tasks ended with both times, on the record it began with. |
| ProtocolLaws.SkipDropsIff | scheduler/scheduler.go:186-221 | A check drops its trigger exactly when the policy is Skip and a record of that very job shows Running. |
| ProtocolLaws.CreateWinsIff | scheduler/scheduler.go:263-275 | A create wins exactly when the key is new; the loser stops and writes nothing. |
| ProtocolLaws.ReaperMarks | recovery/reaper.go:62-69 | The reaper writes Failed_Stale with its own clock over the record it holds and goes on even when a write fails. |
| ProtocolLaws.UpdateCancels | update/update.go:155-163 | An update writes Canceled over the record it holds and stops at the first failing write. |
| ProtocolLaws.FailingExecutorWrites | executor/executor.go:44-50 | A failing first write ends the execution, a failing last one leaves the record as it was. |
| Protocol.InvStep | storage/badger/badger.go:301-384 | Every step of every component keeps the invariant: at most one process holds the right to execute a key, started keys are distinct and stored, in-flight snapshots and closures agree with the store on identity. |
| Protocol.InvCreate | storage/badger/badger.go:301-321 | Create-if-absent hands the right to execute to the winner alone. |
| Protocol.InvWriteRunning | executor/executor.go:44-50 | The write of Running keeps the invariant whether it succeeds, fails or finds no record. |
| Protocol.InvReapWrite | recovery/reaper.go:62-69 | A whole-record write-back from a reaper's stale snapshot keeps it too. |
| Protocol.InvUpdateCancel | update/update.go:155-163 | So does a cancellation written from an update's stale snapshot. |
| ProtocolTheorems.NeverEarly | ticker/cron.go:92-128 | Every stored occurrence is due, and every execution that began was stored first. |
| ProtocolTheorems.IdentityFixed | executor/executor.go:329-345 | Records never disappear, and id, job, version, scheduled time, recovery mark and creation time never change after creation, under any interleaving of whole-record writes. |
| ProtocolTheorems.CrashOrphans | scheduler/scheduler.go:261-275 | A crash orphans a won, unbegun occurrence exactly when it was held by the crashed node. |
| ProtocolTheorems.OrphanNeverRuns | recovery/recovery.go:142-146 | No later tick or recovery pass ever executes an orphaned occurrence. |
| ProtocolTheorems.CrashLoses | executor/executor.go:44-50 | A crash loses exactly the occurrences that the crashed node held before its write of Running, begun or not. |
| ProtocolTheorems.LostForever | recovery/reaper.go:54-70 | A lost occurrence stays Pending or Canceled in every run, no process ever holds it again and no reaper ever lists it. |
| ProtocolTheorems.UpdateCancelsOnlyTheRace | update/update.go:128-232 | An update selects exactly the set its policy promises over the store it listed, and everything selected fell due between its clock reading and that listing; a graceful one lists again exactly when nothing lay ahead. |
| ProtocolTheorems.RelistCancelsOnlyTheRace | update/update.go:199-202 | The second listing of a graceful update selects exactly the immediate policy's set over the store as it is by then. |
| ProtocolTheorems.AtomicUpdatesNeverCancel | update/update.go:144-232 | When clock and listings of a job's updates coincide, no occurrence of the job is ever canceled or about to be. |
| ProtocolTheorems.NoUpdateEverWrites | update/update.go:144-232 | When that holds of every job, no update step ever writes the occurrence table. |
| ReaperSafety.ListedIffOverdue | storage/badger/badger.go:436-473 | A reaper's snapshot lists a live execution exactly when its start is more than an hour before the reaper's clock. |
| ReaperSafety.TimedReaperSafety | recovery/reaper.go:54-70 | If the executions of one occurrence make their last write within the hour, the reaper only marks it once begun, with its executor gone, and never when Completed or Failed, whatever other executions do. |
| ReaperSafety.OverwritePossibleIff | recovery/reaper.go:54-70 | In every reachable state, an execution at work whose record shows Running can, without time passing, be finished and then overwritten as stale exactly when it is more than an hour old. |
| ReaperSafety.TerminalIsFinal | recovery/reaper.go:62-69 | For an occurrence with timely executions, of a job whose updates are atomic, Completed, Failed and Failed_Stale never change. |
| ReaperSafety.StoreShowsLiveExecution | executor/executor.go:44-76 | The store shows Running for such an occurrence between its executor's first and last write. |
| SkipExclusion.SkipSeesLiveExecution | scheduler/scheduler.go:186-221 | So a Skip trigger whose check falls in that span is dropped. |
| SkipExclusion.SkipExcludes | scheduler/scheduler.go:186-276 | When a job's own executions are timely and its updates atomic, its executions exclude each other from check to last write, if only Skip ticks create them and no check is made while another process of the job is between its check and its write of Running. |
| SkipExclusion.OverlapPossibleIff | scheduler/scheduler.go:186-276 | From any state that keeps the invariant, so from every reachable one, two processes can come to be at work together without new triggers exactly when each is at work or may still win or has won its key, and the keys differ. |
| SkipExclusion.CheckOverlapsIff | scheduler/scheduler.go:186-276 | For every policy, a check for a new key beside a process of the job that is at work or may get there can lead to both at work exactly when it is not a Skip check that sees Running. |
| Snapshots.SnapshotIff | executor/executor.go:329-345 | In every run a stored record has a configuration snapshot exactly when a tick created it and it is Pending or Canceled; other records have neither snapshot nor owner. |
| Snapshots.SnapshotFollowsCreation | scheduler/scheduler.go:236-261 | From its creation on, a record shows the creating node and the created snapshot exactly while its status is untouched by an executor, under any interleaving with stale snapshots. |
| Snapshots.SnapshotLostAndFound | executor/executor.go:331-343 | A run in which the executor's first write drops owner and snapshot and a stale cancellation brings both back. |
| ProtocolLimits.OverdueExecutionIsOverwritten | recovery/reaper.go:56-69 | One nanosecond past the hour is enough for the reaper to overwrite Completed. |
| ProtocolLimits.RacedUpdateCancelsCompleted | update/update.go:128-163 | A run in which an immediate update writes Canceled over a Completed occurrence. |
| ProtocolLimits.RacedGracefulCancelsEarliest | update/update.go:199-202 | A run in which a graceful update cancels the only pending slot, though its policy's set is empty. |
| SkipExclusion.SkipOverlaps | scheduler/scheduler.go:186-221 | A run in which two occurrences of one Skip job are at work at once. |
| Executor.AuditStore.ExecuteAttempt | executor/executor.go:259-326 | An attempt's record ends with the reported status and message; runs are untouched. |
| Executor.AuditStore.Retry | executor/executor.go:205-256 | Attempts are numbered 0..k-1; Success iff the last attempt and no other succeeded, Failed iff all MaxRetries+1 failed, Canceled only on a done context with a retry left; the requested waits are exactly the policy's. |
| Executor.AuditStore.ExecuteTask | executor/executor.go:184-256 | The report obeys the retry law, the stored run and attempts are rewritten to match it, other runs are untouched, and a negative limit panics. |
| Executor.AttemptsSay | executor/executor.go:302-317 | Attempt by attempt: Success exactly for no error, Timeout exactly for an error past the deadline, Failed otherwise, with the message that goes with it. |
| Executor.SettingsResolve | job.go:72-90 | A task's own setting wins over the job's default, and that over the job's strategy and no retries. |
| Executor.ReportUnique | executor/executor.go:205-256 | The retry law determines the report from the task, its limit and what the attempts return. |
| Executor.WaitGeometric | executor/executor.go:226-229 | For factors above one the total wait is the interval times a geometric sum. |
| Executor.GeometricClosed | executor/executor.go:226-229 | That sum times (factor - 1) is the factor's power minus one. |
| Executor.WaitLinear | executor/executor.go:226-229 | For other factors it is the number of waits times the interval. |
| Executor.WaitBounded | executor/executor.go:205-256 | No execution requests more waiting than the full run of retries would. |
| Executor.DoneIsAudited | storage/badger/badger.go:545-567 | On a fresh run the stored run's status, retry count and message and every stored attempt's number, status and message are the report's. |
| Sequential.ExecuteSequential | executor/executor.go:92-118 | Reports are an in-order prefix of the tasks, the outcome follows from the last report, the strategy and the context, the audit trail equals the reports with nothing else stored; it panics exactly when it reaches a task with a negative limit. |
| Overrides.HonouredIff | executor/executor.go:99-105 | A sequential run is the one that honours the tasks' overrides exactly when every task that failed in it agrees with the job on fail-fast. |
| Overrides.SomeRunDiffersIff | executor/executor.go:99-105 | With non-negative retry limits, some behaviour of the tasks makes the two differ exactly when some task's strategy disagrees with the job's on fail-fast. |
| Overrides.OverridesIgnored | executor/executor.go:99-105 | Two inputs: a run stopped although its task says continue, and one that goes on although its task says fail-fast. |
| Sequential.SequentialUnique | executor/executor.go:92-118 | Reports and outcome are a function of job, tasks and environment. |
| Sequential.CanceledTaskEndsTheRun | executor/executor.go:107-113 | A canceled task is the last one reported and makes the outcome canceled. |
| Sequential.FailFastCompleted | executor/executor.go:92-118 | Under fail-fast the outcome is completed exactly when every task succeeded and the context outlived the last one. |
| Parallel.InvStep | executor/executor.go:121-160 | Every goroutine step keeps reports, records and cancellation consistent. |
| ParallelTheorems.OneReportPerTask | executor/executor.go:131-160 | In every interleaving each task ends with exactly one report, a possible outcome of its retry loop. |
| ParallelTheorems.InterruptibleIff | executor/executor.go:145-157 | In every run a task waiting to be tried again can be interrupted exactly when the parent is done or some goroutine has finished with a failure that fails the group, and then ends canceled with the attempts it made. |
| ParallelTheorems.CanceledHasACause | executor/executor.go:145-157 | A canceled report means the parent context is done or a reported task failed with effective fail-fast. |
| ParallelTheorems.OutcomeMeans | executor/executor.go:162-178 | Canceled exactly when the parent is done, else failed exactly when a task failed, else completed. |
| ParallelTheorems.UnfinishedRecords | executor/executor.go:184-196 | In every run an unfinished task's stored run says Pending and the attempt being made says Running. |
| ParallelTheorems.CompletedMeansAllSucceeded | executor/executor.go:162-180 | The outcome is completed exactly when the parent is not done and every task succeeded. |
| ParallelTheorems.AuditEqualsReport | storage/badger/badger.go:657-723 | In every reachable state the stored run and attempts of each reported task carry its report's statuses, numbers and messages. |
| ParallelTheorems.ParallelPermutesSequential | executor/executor.go:92-160 | With no fail-fast in force and a context never done, every interleaving ends with a permutation of the sequential reports. |
| Progress.EveryRunIsBounded | executor/executor.go:131-160 | In every interleaving the goroutines take at most three steps for each attempt their limits allow and five more each. |
| Progress.NeverStuck | executor/executor.go:159-160 | Some goroutine can take a step exactly as long as one has not finished. |
| Outcomes.ExecuteJobOccurrence | executor/executor.go:36-89 | The record becomes Running, then the final status with its times: Failed exactly for a sequential run that did not complete; a failing first write runs no task, a failing last one leaves Running. |
| Outcomes.ParallelStatusTruthfulIff | executor/executor.go:58-76 | The stored status of a parallel run matches its group outcome exactly when the parent is not done and every task succeeded. |
| Outcomes.FailedGroupIsStoredCompleted | executor/executor.go:162-180 | A parallel run in which every task failed and Completed is stored. |
| FlatStore.BadgerStorage.CreateRow | storage/badger/badger.go:301-321 | Create-if-absent on the flat map, refused when the key exists. |
| FlatStore.BadgerStorage.UpdateRow | storage/badger/badger.go:363-384 | Update-if-present, refused when it does not. |
| FlatStore.BadgerStorage.GetRow | storage/badger/badger.go:192-230 | An id search returns a row whose key passes the test, or nothing when none does. |
| FlatStore.BadgerStorage.EraseRow | storage/badger/badger.go:262-264 | The second transaction of a deletion removes the key the found row's fields name. |
| FlatStore.BadgerStorage.DeleteRow | storage/badger/badger.go:255-265 | A search, then an erase of what it found, or a refusal that changes nothing. |
| TypedTables.DeletionLeavesNothing | storage/badger/badger.go:255-265 | With any operations between the two transactions, after the second no key is left that a search for the id would find. |
| FlatStore.BadgerStorage.List | storage/badger/badger.go:398-541 | A listing is exactly the rows whose key and fields pass its tests. |
| TypedTables.KeyTests | storage/badger/badger.go:131-166 | On keys of generated ids the prefix, slash-count and substring tests tell the five kinds apart. |
| TypedTables.JobKeyTestMeans | storage/badger/badger.go:131-166 | The slash count keeps exactly the keys with nothing below the job. |
| TypedTables.FoundMeansSame | storage/badger/badger.go:192-230 | The suffix search finds exactly the row of that kind with that id. |
| TypedTables.ListPrefixes | storage/badger/badger.go:267-297 | The listing prefixes select exactly the job's own tasks or occurrences. |
| TypedTables.KeyIsIdentity | storage/badger/badger.go:34-52 | Two rows share a key exactly when kind and id agree. |
| TypedTables.StepSimulates | storage/badger/badger.go:301-541 | Each flat operation answers as the typed tables do and keeps refining them. |
| TypedTables.FlatStoreRefinesTables | storage/badger/badger.go:131-541 | So does every sequence of operations, in whatever order keys are scanned. |
| GeneratedRows.GeneratedOpsRefineTables | id/id.go:21-58 | Rows and operations built with generated ids meet its terms, so they are answered as typed tables would answer them. |
| OccurrenceRows.StaleRows | storage/badger/badger.go:436-473 | A stale listing holds exactly the stored occurrences that are Running and started before the cutoff. |
| OccurrenceRows.StatusRows | storage/badger/badger.go:475-541 | A status listing holds exactly the job's occurrences with that status. |
| OccurrenceRows.OtherRows | storage/badger/badger.go:622-757 | The listings of jobs, tasks, runs and attempts hold exactly the rows of that kind and parent. |
| OccurrenceRows.StaleReplyLists | recovery/reaper.go:54-70 | Any listing of a stale reply's records is one the protocol's reaper may take. |
| OccurrenceRows.RunningReplyShows | scheduler/scheduler.go:186-213 | A running reply shows the job exactly when the protocol's table has it Running. |
| OccurrenceRows.PendingReplyLists | update/update.go:144-163 | Any duplicate-free listing of a pending reply's records is one the update policies expect. |
| OccurrenceRows.CreateIs | storage/badger/badger.go:301-321 | Create-if-absent on the flat map is the protocol's: it wins exactly when the key is new and adds that record only. |
| OccurrenceRows.UpdateIs | storage/badger/badger.go:363-384 | Update-if-present on the flat map is the protocol's whole-record write. |
| Ids.IdShape | id/id.go:21-58 | Generated ids have their prefix, one length per kind, and neither slash nor colon. |
| Ids.CombineInjective | id/id.go:21-58 | A parent:child string can be read back whatever the child contains. |
| Ids.IdsIdentify | id/id.go:21-58 | Unless the hash collides on an input really hashed, equal ids mean the same job, task, occurrence, run or attempt. |
| Ids.HashInputs | id/id.go:21-58 | The hashed strings and prefixes of all five kinds of id, written out. |
| Ids.DecimalReadsBack | id/id.go:51-58 | An attempt's number reads back from its digits. |
| CronTicker.GetOccurrencesBetween | ticker/cron.go:238-266 | Returns exactly the in-window schedule points of (start, end], ascending; an error exactly when the 10000th point lies before end. |
| CronTicker.ErrorMeansTooManyPoints | ticker/cron.go:246-262 | That is: at least 10000 points strictly between start and end. |
| CronTicker.AdjacentRangesConcatenate | ticker/cron.go:238-266 | Enumerations of adjacent ranges concatenate to that of the whole range. |
| CronTicker.LoopFiresEachPointOnce | ticker/cron.go:74-140 | In every run of the loop each firing is for an in-window point, not early, and no point fires twice. |
| CronTicker.NoPointSkipped | ticker/cron.go:92-128 | In every run whatever the loop waits for is the least schedule point after the clock it read. |
| CronTicker.WaitsIff | ticker/cron.go:92-112 | A reading of the clock makes the loop wait for p exactly when p is the least point after it and in the window. |
| CronTicker.FiresNextIff | ticker/cron.go:92-128 | From a clock reading, some run that does not give up fires p next exactly when p is the least point after it and in the window. |
| IsoTicker.GetOccurrencesBetween | ticker/iso8601.go:282-309 | Returns exactly the allowed runs of [start, end) inside the window, ascending; errors exactly when 10000 intervals end before `end` and no repetition limit stops the walk. |
| IsoTicker.AdjacentRunsConcatenate | ticker/iso8601.go:282-309 | Adjacent ranges concatenate. |
| IsoTicker.LoopFiresInOrder | ticker/iso8601.go:74-165 | The k-th firing is for startTime + k*interval, not early, and never more than the repetitions. |
| IsoTicker.ReadingMeans | ticker/iso8601.go:74-112 | With the limit reached the loop ends; inside the window it waits for the next run; outside it ends exactly once the window is over. |
| IsoTicker.FiresRunIff | ticker/iso8601.go:74-165 | Some run of the loop fires run k exactly when every run up to k is within the repetitions and inside the window. |
| IsoTicker.FiresAtAllIff | ticker/iso8601.go:98-112 | So some run fires at all exactly when the start time is inside the window. |
| IsoTicker.ListedButNeverFires | ticker/iso8601.go:282-309 | A ticker whose enumeration lists a run that no run of the loop ever fires. |
| IsoTicker.FiringsArePrefixOfListing | ticker/iso8601.go:74-165 | What has fired is a prefix of what the enumeration lists. |
| PauseProtocol.CronFlagIsLastCommand | ticker/cron.go:172-204 | Whenever slot and pending write are empty, the cron ticker's flag is the last command its channel accepted. |
| PauseProtocol.AcceptedIff | ticker/cron.go:172-204 | A command is accepted exactly when it would change the flag and the slot is empty; a full slot keeps what it holds. |
| PauseProtocol.IntervalFlagIsLastCommandIff | ticker/iso8601.go:74-165 | For interval tickers that holds exactly when the loop's last receive was not made while waiting as paused. |
| PauseProtocol.BlockedResumeIsLost | ticker/iso8601.go:86-96 | In every interleaving, a resume accepted by a ticker waiting as paused is written back as a pause. |
| PauseProtocol.IntervalPauseUndone | ticker/iso8601.go:86-96 | One pause call that leaves the ticker running. |
| PauseProtocol.IntervalResumeUndone | ticker/iso8601.go:86-96 | A pause and a resume, both accepted, that leave it paused. |
| Pool.ClosuresPartition | concurrency/pool.go:50-101 | In every run a submitted closure is in exactly one of waiting, queued, executing, finished and dropped, and the queue stays within twice the workers. |
| Pool.NoClosureRunsTwice | concurrency/pool.go:50-87 | No closure runs twice, on a worker or inline. |
| Pool.ConcurrencyBound | scheduler/scheduler.go:134-181 | Executions never exceed the workers, counting those recovery runs before the pool starts, until Stop has returned after a timeout; from then on they never exceed the watchers. |
| PoolLimits.QueueHoldsIff | concurrency/pool.go:18-30 | The queue of a scheduler with jobs can hold n closures exactly when n is at most twice the workers. |
| PoolLimits.AllWorkersBusy | concurrency/pool.go:32-66 | Some run has every worker executing at once. |
| Pool.WatcherBlockedIff | concurrency/pool.go:68-87 | A watcher has to wait exactly for Stop to return, or parked at a full queue that is not being stopped, or has left. |
| Pool.WorkerBlockedIff | concurrency/pool.go:50-65 | A worker has to wait exactly when it is free, nothing is queued and no stop is in sight, or is gone. |
| Pool.DoneBranchNeverPanics | scheduler/scheduler.go:320-361 | If shutdown sees all watchers gone, nothing is sent on the closed queue. |
| PoolLimits.GracefulShutdown | scheduler/scheduler.go:320-361 | Every scheduler has a run that shuts down on the done branch, with all watchers and workers gone and the pool stopped. |
| PoolLimits.TimeoutCanPanic | concurrency/pool.go:79-101 | For any workers and any jobs, a run whose timed-out shutdown reaches the panic. |
| PoolLimits.PanicIff | concurrency/pool.go:79-101 | Some run of a scheduler panics on the closed queue exactly when it has a job. |
| PoolLimits.OverLimitIff | concurrency/pool.go:68-101 | Some run of a scheduler with n jobs executes more closures at once than there are workers exactly when n exceeds the workers. |
| UpdatePolicies.OccurrenceTable.ApplyImmediate | update/update.go:144-168 | Cancels exactly the job's pending occurrences in the future. |
| UpdatePolicies.OccurrenceTable.ApplyGraceful | update/update.go:171-205 | Cancels exactly those later than the earliest of them. |
| UpdatePolicies.OccurrenceTable.ApplyWindowed | update/update.go:208-232 | Cancels exactly those within seven days. |
| UpdatePolicies.SelectedIsCancelSet | update/update.go:144-232 | The per-record tests on a complete listing select the promised set. |
| UpdatePolicies.CanceledIff | update/update.go:144-232 | Record by record: exactly the job's pending ones after now, after another such one for graceful, less than seven days ahead for windowed. |
| UpdatePolicies.GracefulLeavesEarliest | update/update.go:171-205 | After a graceful update the pending future is exactly its earliest slot, never emptied. |
| UpdatePolicies.ImmediateAndWindowedLeave | update/update.go:144-232 | Immediate leaves no pending future; windowed leaves what is seven days or more ahead, canceling the immediate set cut at the window. |
| UpdatePolicies.PolicyIdempotent | update/update.go:128-232 | Repeating a policy at the same instant changes nothing. |
| UpdatePolicies.PolicyFrame | update/update.go:144-232 | Other jobs, other statuses and due records are untouched, and only the status of the rest changes. |
| VersionedUpdate.JobStore.ApplyUpdate | update/update.go:36-125 | A stale version or a failing read or write changes nothing; otherwise the job record is written first, then task changes in order and the schedule update, up to the first error, which leaves what was written. |
| VersionedUpdate.Scheduler.UpdateJob | scheduler/scheduler.go:409-488 | Configuration, ticker, tasks and version in memory change only after the store accepted the whole update. |
| VersionedUpdate.ChangesMirror | scheduler/scheduler.go:456-482 | The store's create/delete/update calls and the scheduler's map rebuild are the same change of the job's tasks. |
| VersionedUpdate.UpdateKeepsSyncOrDiverges | scheduler/scheduler.go:409-488 | A call keeps a synchronised job synchronised, or leaves its versions different exactly when its record was written and then the update does not apply to its tasks or a later store call fails. |
| VersionedUpdate.ConfigAgreesIff | update/update.go:277-285 | After an accepted update memory and store agree on the configuration exactly when it brought none and they agreed, or brought an empty one. |
| VersionedUpdate.TickerReplaced | scheduler/scheduler.go:431-449 | A new ticker replaces the old one and is started exactly when the job is active, not paused and the scheduler runs; other jobs are untouched. |
| VersionedUpdate.ChangeInfosMeans | scheduler/scheduler.go:451-482 | Id by id: those held or added and not removed; the last update of a remaining task decides, updates of missing ones do nothing. |
| VersionedUpdate.ChangesOkIff | update/update.go:68-125 | What follows the job record succeeds exactly when added ids are new and distinct, removed ids exist and are distinct, updated ids exist and are not removed, and no store call fails. |
| VersionedUpdate.MirrorOverRuns | scheduler/scheduler.go:409-488 | Over any sequence of updates and store failures each job is synchronised or diverged, and synchronised while its updates succeed. |
| VersionedUpdate.FailedUpdateLocksOut | update/update.go:48-66 | Once diverged, no update of the job ever succeeds or changes anything. |
| Recovery.RecoveryHandler.ApplyStrategy | recovery/recovery.go:39-157 | The table gains one record per selected missed time that had none and whose create call does not fail, and exactly the new records are submitted, each once. |
| Recovery.SelectionEffect | recovery/recovery.go:39-111 | Strategy by strategy, the keys left in the table: all missed times for backfill, unknown strategies and an unconfigured window, the last for execute-last, none for mark-as-missed, the longest suffix for a window; every new record is the job's pending recovery record of a missed time. |
| Recovery.RecoveryHandler.FilterWindow | recovery/recovery.go:85-111 | Duration filter, then the last so many, on any times. |
| Recovery.WindowRunsLongestSuffix | recovery/recovery.go:85-111 | On ascending times the bounded window runs the longest suffix that meets both active limits. |
| Recovery.SuffixUnique | recovery/recovery.go:85-111 | There is only one such suffix. |
| Recovery.LastIsWindowOfOne | recovery/recovery.go:69-75 | Execute-last selects what a window of one occurrence and no duration does. |
| Recovery.CreatedKeys | recovery/recovery.go:114-146 | A pass adds exactly the keys of its times whose create calls do not fail, and changes no record that was there. |
| Recovery.CrashedPassesThenFull | recovery/recovery.go:114-157 | Any number of passes that crash part-way, with any failing calls, followed by a full one without, create the keys of a single full pass. |

## Left out

- BadgerDB internals, JSON and SHA-1: transactions are atomic, records lossless, and the hash does not collide on the inputs it is given.
- Cron expressions and time zones: the schedule is any set of points with a least next point; the parser's "no match" result is excluded.
- RFC 3339 formatting: any injective text for a UTC second.
- `metrics/` and `updateMetrics`: counters and gauges only.
- `ticker/once.go`: a smaller copy of the interval loop; its pause branch is covered by `PauseProtocol`.
- Restarting the same ticker, pool or scheduler object: channels are closed once; one lifetime is modelled.
- Hooks, logging and README features without code (manual replay, queue wake-up, compressed catch-up).
- `DiffSchedules` (`update/update.go:235-274`): two list differences of what the tickers enumerate.
- `RegisterJob` and job loading: runs start with populated job maps.
- Stores holding ids that the generators did not make: suffix and substring searches can then confuse rows; the refinement is for generated ids.
- Row deletion in `Protocol`: no component calls the occurrence delete operations; they are modelled in `FlatStore`.
- `UpdatedAt` stamps: nothing reads them.
- Task configurations in updates: stored through the same stub as job configurations.
- Key scan order: left arbitrary, so the byte order of the real scan is not used.
- Data races on job fields during `UpdateJob`, and how `watchJob` picks up a replaced ticker: one step under its lock.
- Calls on the audit trail that fail for reasons of their own (`Executor`, `Sequential`, `Parallel`): the executor ignores such errors, so the audit trail then misses records.
- What a schedule update does to the occurrence table inside `VersionedUpdate`: that is `UpdatePolicies`; there it only succeeds or fails.
- Task ids shared between jobs: updates name only the job's own tasks, as generated ids ensure.
- Floating-point rounding and overflow of durations: waits are real numbers.
- Clock skew between nodes: one monotone clock, read by each step at a time of its own.
- Parallel runs with a negative retry limit: the goroutine's panic ends the process.
