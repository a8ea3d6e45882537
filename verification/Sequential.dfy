/** The sequential runner: tasks in order, stopping at a fail-fast failure or a done context. */
module Sequential {
  import opened Types
  import opened Executor

  datatype GroupOutcome = AllCompleted | GroupFailed | GroupCanceled

  /** What the environment does while one task runs, and whether the context is done right after it. */
  datatype TaskEnv = TaskEnv(script: Script, doneAfter: bool)

  predicate Stops(strategy: FailureStrategy, report: TaskReport) {
    report.finalStatus == Failed && strategy == FailFast
  }

  /** Only the job's own strategy stops a sequential run: per-task overrides are not consulted. */
  predicate Aborts(job: JobConfig, report: TaskReport) { Stops(job.strategy, report) }

  /** Reports form an in-order prefix of the tasks; the run goes on past every report but the last, and the
      outcome is decided by the last report, the strategy its task is judged by, and the context. */
  ghost predicate Follows(job: JobConfig, tasks: seq<Task>, env: nat -> TaskEnv, strategy: nat -> FailureStrategy,
                          reports: seq<TaskReport>, outcome: GroupOutcome) {
    var k := |reports|;
    && k <= |tasks|
    && (forall i | 0 <= i < k :: IsReport(tasks[i], PolicyOf(job, tasks[i]).maxRetries, env(i).script, reports[i]))
    && (forall i | 0 <= i < k - 1 :: !Stops(strategy(i), reports[i]) && !env(i).doneAfter)
    && (outcome == GroupFailed <==> k > 0 && Stops(strategy(k - 1), reports[k - 1]))
    && (outcome == GroupCanceled <==> k > 0 && !Stops(strategy(k - 1), reports[k - 1]) && env(k - 1).doneAfter)
    && (outcome == AllCompleted ==> k == |tasks|)
    && (k == 0 ==> tasks == [])
  }

  /** A sequential run as the code makes it: every task is judged by the job's strategy. */
  ghost predicate IsSequential(job: JobConfig, tasks: seq<Task>, env: nat -> TaskEnv,
                               reports: seq<TaskReport>, outcome: GroupOutcome) {
    Follows(job, tasks, env, (i: nat) => job.strategy, reports, outcome)
  }

  /** The specification fixes the run: reports and outcome are a function of job, tasks and environment. */
  lemma SequentialUnique(job: JobConfig, tasks: seq<Task>, env: nat -> TaskEnv,
                         a: seq<TaskReport>, x: GroupOutcome, b: seq<TaskReport>, y: GroupOutcome)
    requires IsSequential(job, tasks, env, a, x) && IsSequential(job, tasks, env, b, y)
    ensures a == b && x == y
  {
    forall i | 0 <= i < |a| && i < |b| ensures a[i] == b[i] {
      ReportUnique(tasks[i], PolicyOf(job, tasks[i]).maxRetries, env(i).script, a[i], b[i]);
    }
    SequentialNoLonger(job, tasks, env, a, x, b, y);
    SequentialNoLonger(job, tasks, env, b, y, a, x);
    assert a == b;
  }

  lemma SequentialNoLonger(job: JobConfig, tasks: seq<Task>, env: nat -> TaskEnv,
                           a: seq<TaskReport>, x: GroupOutcome, b: seq<TaskReport>, y: GroupOutcome)
    requires IsSequential(job, tasks, env, a, x) && IsSequential(job, tasks, env, b, y)
    requires forall i | 0 <= i < |a| && i < |b| :: a[i] == b[i]
    ensures |b| <= |a|
  {
    if a != [] {
      var last := |a| - 1;
      assert last < |b| ==> a[last] == b[last];
      assert !Aborts(job, a[last]) && !env(last).doneAfter ==> x == AllCompleted;
    }
  }

  /** When a context that ends a wait is also seen done after the task, a canceled task is always the last
      one reported and the group outcome is canceled. */
  lemma CanceledTaskEndsTheRun(job: JobConfig, tasks: seq<Task>, env: nat -> TaskEnv,
                               reports: seq<TaskReport>, outcome: GroupOutcome, i: nat)
    requires IsSequential(job, tasks, env, reports, outcome)
    requires forall j: nat, n: nat :: env(j).script.canceled(n) ==> env(j).doneAfter
    requires i < |reports| && reports[i].finalStatus == Canceled
    ensures i == |reports| - 1 && outcome == GroupCanceled
  {
    assert env(i).script.canceled(|reports[i].attempts| - 1);
  }

  /** A completed outcome under fail-fast means that every task succeeded. */
  lemma FailFastCompleted(job: JobConfig, tasks: seq<Task>, env: nat -> TaskEnv,
                          reports: seq<TaskReport>, outcome: GroupOutcome)
    requires IsSequential(job, tasks, env, reports, outcome) && job.strategy == FailFast
    requires forall j: nat, n: nat :: env(j).script.canceled(n) ==> env(j).doneAfter
    ensures outcome == AllCompleted <==>
              |reports| == |tasks| && (forall i | 0 <= i < |reports| :: reports[i].finalStatus == Success)
              && (reports != [] ==> !env(|reports| - 1).doneAfter)
  {
    if outcome == AllCompleted {
      forall i | 0 <= i < |reports| ensures reports[i].finalStatus == Success {
        var last: nat := |reports[i].attempts| - 1;
        var cut := env(i).script.canceled(last);
      }
    }
  }

  /** Every task so far was reported and let the run go on. */
  ghost predicate GoesOn(job: JobConfig, tasks: seq<Task>, env: nat -> TaskEnv, reports: seq<TaskReport>) {
    |reports| <= |tasks|
    && forall i | 0 <= i < |reports| ::
         IsReport(tasks[i], PolicyOf(job, tasks[i]).maxRetries, env(i).script, reports[i])
         && !Aborts(job, reports[i]) && !env(i).doneAfter
  }

  /** The run reaches a task whose negative limit lets it make no attempt. */
  ghost predicate Panics(job: JobConfig, tasks: seq<Task>, env: nat -> TaskEnv) {
    exists reports :: ReachesPanic(job, tasks, env, reports)
  }

  ghost predicate ReachesPanic(job: JobConfig, tasks: seq<Task>, env: nat -> TaskEnv, reports: seq<TaskReport>) {
    GoesOn(job, tasks, env, reports) && |reports| < |tasks| && PolicyOf(job, tasks[|reports|]).maxRetries < 0
  }

  /** A run that ends has not reached such a task, and could not have. */
  lemma EndedNeverPanics(job: JobConfig, tasks: seq<Task>, env: nat -> TaskEnv, reports: seq<TaskReport>,
                         outcome: GroupOutcome)
    requires IsSequential(job, tasks, env, reports, outcome)
    ensures !Panics(job, tasks, env)
  {
    forall other ensures !ReachesPanic(job, tasks, env, other) {
      if ReachesPanic(job, tasks, env, other) { EndedGoesNoFurther(job, tasks, env, reports, outcome, other); }
    }
  }

  lemma EndedGoesNoFurther(job: JobConfig, tasks: seq<Task>, env: nat -> TaskEnv, reports: seq<TaskReport>,
                           outcome: GroupOutcome, other: seq<TaskReport>)
    requires IsSequential(job, tasks, env, reports, outcome) && GoesOn(job, tasks, env, other) && |other| < |tasks|
    ensures |other| < |reports|
  {
    if reports == [] {
    } else {
      var last := |reports| - 1;
      if last < |other| {
        ReportUnique(tasks[last], PolicyOf(job, tasks[last]).maxRetries, env(last).script, reports[last], other[last]);
      }
      assert !Aborts(job, reports[last]) && !env(last).doneAfter ==> outcome == AllCompleted;
    }
  }

  lemma AddReport(job: JobConfig, tasks: seq<Task>, env: nat -> TaskEnv, reports: seq<TaskReport>, r: TaskReport)
    requires GoesOn(job, tasks, env, reports) && |reports| < |tasks|
    requires var task := tasks[|reports|]; IsReport(task, PolicyOf(job, task).maxRetries, env(|reports|).script, r)
    ensures Aborts(job, r) ==> IsSequential(job, tasks, env, reports + [r], GroupFailed)
    ensures !Aborts(job, r) && env(|reports|).doneAfter ==> IsSequential(job, tasks, env, reports + [r], GroupCanceled)
    ensures !Aborts(job, r) && !env(|reports|).doneAfter ==> GoesOn(job, tasks, env, reports + [r])
  {
  }

  lemma AllRan(job: JobConfig, tasks: seq<Task>, env: nat -> TaskEnv, reports: seq<TaskReport>)
    requires GoesOn(job, tasks, env, reports) && |reports| == |tasks|
    ensures IsSequential(job, tasks, env, reports, AllCompleted)
  {
  }

  /** Nothing is stored yet for the occurrence's tasks. */
  ghost predicate Fresh(attempts: map<AttemptKey, AttemptRecord>, occurrenceId: string) {
    forall k | k in attempts :: k.0.0 != occurrenceId
  }

  ghost predicate AllAudited(store: AuditStore, occurrenceId: string, tasks: seq<Task>, reports: seq<TaskReport>)
    reads store
  {
    |reports| <= |tasks|
    && forall i | 0 <= i < |reports| :: Audited(store.runs, store.attempts, (occurrenceId, tasks[i].id), reports[i])
  }

  /** No attempt is stored under the occurrence for a task that is not among the reported ones. */
  ghost predicate OnlyReported(attempts: map<AttemptKey, AttemptRecord>, occurrenceId: string, tasks: seq<Task>, k: nat)
    requires k <= |tasks|
  {
    forall a | a in attempts && a.0.0 == occurrenceId :: exists i :: 0 <= i < k && tasks[i].id == a.0.1
  }

  lemma AuditedKept(runs: map<RunKey, RunRecord>, attempts: map<AttemptKey, AttemptRecord>,
                    runs': map<RunKey, RunRecord>, attempts': map<AttemptKey, AttemptRecord>,
                    run: RunKey, report: TaskReport, other: RunKey, earlier: TaskReport)
    requires TaskDone(runs, attempts, runs', attempts', run, report)
    requires Audited(runs, attempts, other, earlier) && other != run
    ensures Audited(runs', attempts', other, earlier)
  {
    RecordedOthers(attempts, run, report.attempts);
    forall n: nat ensures (other, n) in attempts' <==> n < |earlier.attempts| {
      assert (other, n).0 != run;
    }
  }

  lemma {:induction false} RecordedKeys(attempts: map<AttemptKey, AttemptRecord>, run: RunKey,
      reports: seq<AttemptReport>)
    ensures forall a | a in Recorded(attempts, run, reports) :: a in attempts || a.0 == run
  {
    if reports == [] {
    } else {
      RecordedKeys(attempts, run, reports[..|reports| - 1]);
    }
  }

  /** Runs the tasks in order. None is the panic of a task with a negative retry limit. For a fresh
      occurrence with distinct task ids the stored records are exactly the audit trail of the reports. */
  method ExecuteSequential(store: AuditStore, occurrenceId: string, job: JobConfig, tasks: seq<Task>,
      env: nat -> TaskEnv)
    returns (result: Option<(seq<TaskReport>, GroupOutcome)>)
    requires DistinctIds(tasks) && Fresh(store.attempts, occurrenceId)
    modifies store
    ensures result.None? <==> Panics(job, tasks, env)
    ensures result.Some? ==>
              && IsSequential(job, tasks, env, result.value.0, result.value.1)
              && AllAudited(store, occurrenceId, tasks, result.value.0)
              && OnlyReported(store.attempts, occurrenceId, tasks, |result.value.0|)
              && StatusesStored(store.runs, occurrenceId, tasks, result.value.0)
  {
    result := RunInOrder(store, occurrenceId, job, tasks, env);
    if result.Some? { AuditedStatuses(store, occurrenceId, tasks, result.value.0); }
  }

  /** Every reported task's stored run ends in the reported final status. */
  ghost predicate StatusesStored(runs: map<RunKey, RunRecord>, occurrenceId: string, tasks: seq<Task>,
                                 reports: seq<TaskReport>) {
    |reports| <= |tasks|
    && forall i | 0 <= i < |reports| ::
         (occurrenceId, tasks[i].id) in runs && runs[(occurrenceId, tasks[i].id)].status == reports[i].finalStatus
  }

  lemma AuditedStatuses(store: AuditStore, occurrenceId: string, tasks: seq<Task>, reports: seq<TaskReport>)
    requires AllAudited(store, occurrenceId, tasks, reports)
    ensures StatusesStored(store.runs, occurrenceId, tasks, reports)
  {
  }

  method RunInOrder(store: AuditStore, occurrenceId: string, job: JobConfig, tasks: seq<Task>, env: nat -> TaskEnv)
    returns (result: Option<(seq<TaskReport>, GroupOutcome)>)
    requires DistinctIds(tasks) && Fresh(store.attempts, occurrenceId)
    modifies store
    ensures result.None? <==> Panics(job, tasks, env)
    ensures result.Some? ==>
              && IsSequential(job, tasks, env, result.value.0, result.value.1)
              && AllAudited(store, occurrenceId, tasks, result.value.0)
              && OnlyReported(store.attempts, occurrenceId, tasks, |result.value.0|)
  {
    var reports: seq<TaskReport> := [];
    var i := 0;
    while i < |tasks|
      invariant 0 <= i == |reports| <= |tasks|
      invariant GoesOn(job, tasks, env, reports)
      invariant AllAudited(store, occurrenceId, tasks, reports)
      invariant OnlyReported(store.attempts, occurrenceId, tasks, i)
    {
      var r := RunNext(store, occurrenceId, job, tasks, reports, env(i).script);
      if r.None? {
        assert ReachesPanic(job, tasks, env, reports);
        return None;
      }
      AddReport(job, tasks, env, reports, r.value);
      reports := reports + [r.value];
      if Aborts(job, r.value) {
        EndedNeverPanics(job, tasks, env, reports, GroupFailed);
        return Some((reports, GroupFailed));
      }
      if env(i).doneAfter {
        EndedNeverPanics(job, tasks, env, reports, GroupCanceled);
        return Some((reports, GroupCanceled));
      }
      i := i + 1;
    }
    AllRan(job, tasks, env, reports);
    EndedNeverPanics(job, tasks, env, reports, AllCompleted);
    return Some((reports, AllCompleted));
  }

  /** One turn of the loop: runs the next task and extends the audit trail by its report. */
  method RunNext(store: AuditStore, occurrenceId: string, job: JobConfig, tasks: seq<Task>, reports: seq<TaskReport>,
      script: Script)
    returns (result: Option<TaskReport>)
    requires DistinctIds(tasks) && |reports| < |tasks|
    requires AllAudited(store, occurrenceId, tasks, reports)
        && OnlyReported(store.attempts, occurrenceId, tasks, |reports|)
    modifies store
    ensures result.None? <==> PolicyOf(job, tasks[|reports|]).maxRetries < 0
    ensures result.Some? ==>
              && IsReport(tasks[|reports|], PolicyOf(job, tasks[|reports|]).maxRetries, script, result.value)
              && AllAudited(store, occurrenceId, tasks, reports + [result.value])
              && OnlyReported(store.attempts, occurrenceId, tasks, |reports| + 1)
  {
    var task := tasks[|reports|];
    ghost var run, runs, attempts := (occurrenceId, task.id), store.runs, store.attempts;
    var waits;
    result, waits := store.ExecuteTask(occurrenceId, job, task, script);
    if result.Some? {
      DoneIsAudited(runs, attempts, store.runs, store.attempts, run, result.value, task,
        PolicyOf(job, task).maxRetries, script);
      forall i | 0 <= i < |reports|
        ensures Audited(store.runs, store.attempts, (occurrenceId, tasks[i].id), reports[i])
      {
        AuditedKept(runs, attempts, store.runs, store.attempts, run, result.value, (occurrenceId, tasks[i].id),
          reports[i]);
      }
      RecordedKeys(attempts, run, result.value.attempts);
      assert tasks[|reports|].id == run.1;
    }
  }
}
