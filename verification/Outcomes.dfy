/** The execution of one occurrence: its record around the two runners, and the status it stores at its end against
    what its tasks did. */
module Outcomes {
  import opened Types
  import opened Executor
  import opened Sequential
  import Records
  import UpdatePolicies
  import P = Parallel
  import PT = ParallelTheorems

  datatype Mode = SequentialMode | ParallelMode | UnknownMode

  /** The runner's error decides the stored status. The sequential runner, also taken for unknown modes,
      returns an error unless the group completed; the parallel runner never does. */
  function StoredStatus(mode: Mode, outcome: GroupOutcome): Records.JobStatus {
    match mode
    case ParallelMode => Records.Completed
    case _ => if outcome == AllCompleted then Records.Completed else Records.Failed
  }

  /** How an execution ends: its first write failed, a task's negative limit brought the process down, or it
      reported. */
  datatype Execution = Refused | Panicked | Finished(reports: seq<TaskReport>, outcome: GroupOutcome)

  /** Looks for a failed report once every goroutine has finished. */
  method GroupResult(s: P.State) returns (outcome: GroupOutcome)
    ensures outcome == PT.Outcome(s)
  {
    if s.parentDone { return GroupCanceled; }
    var hasFailure := false;
    for i := 0 to |s.reports|
      invariant hasFailure <==> exists j :: 0 <= j < i && s.reports[j].finalStatus == Executor.Failed
    {
      if s.reports[i].finalStatus == Executor.Failed { hasFailure := true; }
    }
    outcome := if hasFailure then GroupFailed else AllCompleted;
  }

  function AtWork(o: Records.Occurrence, started: Time): Records.Occurrence {
    o.(status := Records.Running, startTime := Some(started))
  }

  /** The occurrence table after an execution that ended so. */
  function RowsAfter(rows: UpdatePolicies.Rows, o: Records.Occurrence, mode: Mode, result: Execution,
                     started: Time, ended: Time, lastFails: bool): UpdatePolicies.Rows {
    var k, running := Records.KeyOf(o), AtWork(o, started);
    match result
    case Refused => rows
    case Panicked => rows[k := running]
    case Finished(_, outcome) =>
      rows[k := if lastFails then running else running.(status := StoredStatus(mode, outcome), endTime := Some(ended))]
  }

  /** The occurrence's record after an execution, field by field; no other record changes. */
  ghost predicate RecordMeans(before: UpdatePolicies.Rows, after: UpdatePolicies.Rows, o: Records.Occurrence,
                              mode: Mode, result: Execution, started: Time, ended: Time, lastFails: bool) {
    var k := Records.KeyOf(o);
    && (forall x | x != k :: (x in after <==> x in before) && (x in after ==> after[x] == before[x]))
    && (result == Refused ==> after == before)
    && (result != Refused ==>
          k in after
          && var r := after[k];
             && Records.SameIdentity(r, o) && r.owner == o.owner && r.config == o.config && r.startTime == Some(started)
             && (result == Panicked || lastFails ==> r.status == Records.Running && r.endTime == o.endTime)
             && (result.Finished? && !lastFails ==>
                   && r.endTime == Some(ended)
                   && (mode == ParallelMode ==> r.status == Records.Completed)
                   && (mode != ParallelMode ==>
                         (r.status == Records.Completed <==> result.outcome == AllCompleted)
                         && (r.status == Records.JobStatus.Failed <==> result.outcome != AllCompleted))))
  }

  lemma RowsMean(before: UpdatePolicies.Rows, o: Records.Occurrence, mode: Mode, started: Time, ended: Time,
                 lastFails: bool)
    ensures forall result :: RecordMeans(before, RowsAfter(before, o, mode, result, started, ended, lastFails), o, mode,
                                         result, started, ended, lastFails)
  {
  }

  /** Runs the tasks in the job's mode; unknown modes run in sequence. */
  method RunTasks(audit: AuditStore, occurrenceId: string, mode: Mode, job: JobConfig, tasks: seq<Task>,
                  env: nat -> TaskEnv, group: P.State)
    returns (result: Execution)
    requires mode != ParallelMode ==> DistinctIds(tasks) && Fresh(audit.attempts, occurrenceId)
    modifies audit
    ensures result != Refused
    ensures result.Panicked? <==> mode != ParallelMode && Panics(job, tasks, env)
    ensures result.Finished? && mode == ParallelMode ==>
              result.reports == group.reports && result.outcome == PT.Outcome(group)
    ensures result.Finished? && mode != ParallelMode ==>
              && IsSequential(job, tasks, env, result.reports, result.outcome)
              && AllAudited(audit, occurrenceId, tasks, result.reports)
  {
    if mode == ParallelMode {
      var outcome := GroupResult(group);
      return Finished(group.reports, outcome);
    }
    var run := ExecuteSequential(audit, occurrenceId, job, tasks, env);
    result := if run.None? then Panicked else Finished(run.value.0, run.value.1);
  }

  /** Stores Running, runs the tasks, and stores the final status; an error of the first write ends the execution
      before any task, one of the last is ignored. For the parallel mode `group` is the state its goroutines end in,
      which keeps its own audit trail. */
  method ExecuteJobOccurrence(
    table: UpdatePolicies.OccurrenceTable, audit: AuditStore, o: Records.Occurrence, mode: Mode, job: JobConfig,
    tasks: seq<Task>, env: nat -> TaskEnv, ghost setup: P.Setup, group: P.State,
    started: Time, ended: Time, firstFails: bool, lastFails: bool)
    returns (result: Execution)
    requires mode == ParallelMode ==> PT.EndsIn(setup, group)
    requires mode != ParallelMode ==> DistinctIds(tasks) && Fresh(audit.attempts, o.id)
    modifies table, audit
    ensures result == Refused <==> firstFails || Records.KeyOf(o) !in old(table.rows)
    ensures result == Refused ==> audit.runs == old(audit.runs) && audit.attempts == old(audit.attempts)
    ensures result.Panicked? <==> result != Refused && mode != ParallelMode && Panics(job, tasks, env)
    ensures result.Finished? && mode == ParallelMode ==>
              result.reports == group.reports && result.outcome == PT.Outcome(group)
    ensures result.Finished? && mode != ParallelMode ==>
              && IsSequential(job, tasks, env, result.reports, result.outcome)
              && AllAudited(audit, o.id, tasks, result.reports)
    ensures table.rows == RowsAfter(old(table.rows), o, mode, result, started, ended, lastFails)
    ensures RecordMeans(old(table.rows), table.rows, o, mode, result, started, ended, lastFails)
  {
    RowsMean(table.rows, o, mode, started, ended, lastFails);
    var ok := StoreRecord(table, AtWork(o, started), firstFails);
    if !ok { return Refused; }
    result := RunTasks(audit, o.id, mode, job, tasks, env, group);
    if result.Finished? { Conclude(table, old(table.rows), o, mode, result, started, ended, lastFails); }
  }

  /** The last write, from the runner's error. */
  method Conclude(table: UpdatePolicies.OccurrenceTable, ghost before: UpdatePolicies.Rows, o: Records.Occurrence,
                  mode: Mode, result: Execution, started: Time, ended: Time, fails: bool)
    requires result.Finished? && table.rows == before[Records.KeyOf(o) := AtWork(o, started)]
    modifies table
    ensures table.rows == RowsAfter(before, o, mode, result, started, ended, fails)
  {
    var failed := mode != ParallelMode && result.outcome != AllCompleted;
    var status := if failed then Records.JobStatus.Failed else Records.Completed;
    var last := AtWork(o, started).(status := status, endTime := Some(ended));
    assert Records.KeyOf(last) == Records.KeyOf(o) && status == StoredStatus(mode, result.outcome);
    var _ := StoreRecord(table, last, fails);
  }

  /** One whole-record write, which may fail for reasons of its own. */
  method StoreRecord(table: UpdatePolicies.OccurrenceTable, o: Records.Occurrence, fails: bool) returns (ok: bool)
    modifies table
    ensures ok <==> !fails && Records.KeyOf(o) in old(table.rows)
    ensures table.rows == if ok then old(table.rows)[Records.KeyOf(o) := o] else old(table.rows)
  {
    if fails { return false; }
    ok := table.Update(o);
  }

  /** Sequential fail-fast: Completed is stored exactly when every task succeeded and the context outlived
      the last one. */
  lemma FailFastStatusIsTruthful(job: JobConfig, tasks: seq<Task>, env: nat -> TaskEnv, reports: seq<TaskReport>,
      outcome: GroupOutcome)
    requires IsSequential(job, tasks, env, reports, outcome) && job.strategy == FailFast
    requires forall j: nat, n: nat :: env(j).script.canceled(n) ==> env(j).doneAfter
    ensures StoredStatus(SequentialMode, outcome) == Records.Completed <==>
              |reports| == |tasks| && (forall i | 0 <= i < |reports| :: reports[i].finalStatus == Success)
              && (reports != [] ==> !env(|reports| - 1).doneAfter)
  {
    FailFastCompleted(job, tasks, env, reports, outcome);
  }

  /** Parallel: the stored status matches the group outcome exactly when the parent context is not done and
      every task succeeded; otherwise Completed is stored for a group that was canceled or failed. */
  lemma ParallelStatusTruthfulIff(setup: P.Setup, states: seq<P.State>, steps: seq<P.Step>, i: nat)
    requires P.IsRun(setup, states, steps) && i < |states| && PT.AllDone(states[i])
    ensures (StoredStatus(ParallelMode, PT.Outcome(states[i])) == Records.Completed
        <==> PT.Outcome(states[i]) == AllCompleted)
            <==> !states[i].parentDone && forall j | 0 <= j < |states[i].reports| ::
              states[i].reports[j].finalStatus == Success
  {
    PT.CompletedMeansAllSucceeded(setup, states, steps, i);
  }

  /** One task that fails its only attempt. */
  const DOOMED := P.Setup("occ", JobConfig(FailFast, TaskConfig(None, None)),
    [Task("task", "name", TaskConfig(None, None))],
                          (i: nat, n: nat) => Error("no", false))

  const ATTEMPT := AttemptReport(0, Executor.Failed, "no")
  const REPORT := TaskReport("task", "name", [ATTEMPT], Executor.Failed)

  /** A parallel run whose every task failed, with Completed as its stored status. */
  lemma FailedGroupIsStoredCompleted() returns (states: seq<P.State>, steps: seq<P.Step>)
    ensures P.IsRun(DOOMED, states, steps) && PT.AllDone(states[|steps|])
    ensures PT.Outcome(states[|steps|]) == GroupFailed
    ensures StoredStatus(ParallelMode, PT.Outcome(states[|steps|])) == Records.Completed
  {
    states := DoomedAttempt();
    states := Extend(states, P.Reporting(REPORT));
    states := Extend(states, P.Reported(REPORT));
    states := Extend(states, P.Done(REPORT));
    steps := seq(6, _ => P.Go(0));
    IsDoomedRun(states, steps);
    assert states[6].reports == [REPORT] && states[6].reports[0].finalStatus == Executor.Failed;
  }

  /** Up to the end of its only attempt. */
  lemma DoomedAttempt() returns (states: seq<P.State>)
    ensures Path(states) && |states| == 4
    ensures states[3].pcs == [P.Concluding(REPORT)] && states[3].reports == [] && !states[3].parentDone
  {
    states := [P.State([P.Idle], map[], map[], [], [], false, false)];
    states := Extend(states, P.Ready([]));
    states := Extend(states, P.InAttempt([]));
    AttemptFails();
    states := Extend(states, P.Concluding(REPORT));
  }

  lemma AttemptFails()
    ensures P.AfterAttempt(DOOMED, 0, [] + [ReportOf(0, DOOMED.result(0, 0))]) == P.Concluding(REPORT)
  {
    assert [] + [ATTEMPT] == [ATTEMPT];
    assert P.Limit(DOOMED, 0) == 0;
  }

  ghost predicate OneStep(s: P.State, t: P.State) {
    |s.pcs| == 1 && P.Enabled(DOOMED, s, P.Go(0)) && t == P.Apply(DOOMED, s, P.Go(0))
  }

  /** States that follow one another as the only goroutine goes on. */
  ghost predicate Path(states: seq<P.State>) {
    && states != [] && states[0] == P.State([P.Idle], map[], map[], [], [], false, false)
    && forall i | 0 <= i < |states| - 1 :: OneStep(states[i], states[i + 1])
  }

  lemma IsDoomedRun(states: seq<P.State>, steps: seq<P.Step>)
    requires Path(states) && |states| == |steps| + 1 && forall i | 0 <= i < |steps| :: steps[i] == P.Go(0)
    ensures P.IsRun(DOOMED, states, steps)
  {
    assert P.Limit(DOOMED, 0) == 0;
    forall i | 0 <= i < |steps|
      ensures |states[i].pcs| == 1 && P.Enabled(DOOMED, states[i], steps[i])
          && states[i + 1] == P.Apply(DOOMED, states[i], steps[i])
    {
      assert OneStep(states[i], states[i + 1]);
    }
  }

  /** The goroutine's next step. */
  lemma Extend(states: seq<P.State>, pc: P.Pc) returns (longer: seq<P.State>)
    requires Path(states) && |states[|states| - 1].pcs| == 1
    requires P.Enabled(DOOMED, states[|states| - 1], P.Go(0))
    requires P.Apply(DOOMED, states[|states| - 1], P.Go(0)).pcs == [pc]
    ensures Path(longer) && |longer| == |states| + 1
    ensures var s, t := states[|states| - 1], longer[|states|];
            && t.pcs == [pc] && t.parentDone == s.parentDone
            && t.reports == if s.pcs[0].Reporting? then s.reports + [s.pcs[0].report] else s.reports
  {
    var next := P.Apply(DOOMED, states[|states| - 1], P.Go(0));
    longer := states + [next];
    OneMore(states, next);
  }

  lemma OneMore(states: seq<P.State>, next: P.State)
    requires Path(states) && OneStep(states[|states| - 1], next)
    ensures Path(states + [next])
  {
    var longer := states + [next];
    forall i | 0 <= i < |longer| - 1 ensures OneStep(longer[i], longer[i + 1]) {
      if i < |states| - 1 { assert OneStep(states[i], states[i + 1]); }
    }
  }
}
