/** The executor: task records, the retry loop and the sequential runner. */
module Executor {
  import opened Types

  datatype TaskStatus = Pending | Running | Success | Failed | Canceled | Timeout

  datatype FailureStrategy = FailFast | Continue | RetryOnFailure

  datatype RetryPolicy = RetryPolicy(maxRetries: int, retryInterval: real, backoffFactor: real)

  datatype TaskConfig = TaskConfig(failure: Option<FailureStrategy>, retry: Option<RetryPolicy>)

  datatype Task = Task(id: string, name: string, config: TaskConfig)

  datatype JobConfig = JobConfig(strategy: FailureStrategy, defaults: TaskConfig)

  ghost predicate DistinctIds(tasks: seq<Task>) {
    forall i, j | 0 <= i < j < |tasks| :: tasks[i].id != tasks[j].id
  }

  /** Task settings override the job's defaults field by field. */
  function Effective(job: JobConfig, task: Task): TaskConfig {
    TaskConfig(if task.config.failure.Some? then task.config.failure else job.defaults.failure,
               if task.config.retry.Some? then task.config.retry else job.defaults.retry)
  }

  /** The strategy a failed task is to be judged by. */
  function StrategyFor(job: JobConfig, task: Task): FailureStrategy {
    var effective := Effective(job, task);
    if effective.failure.Some? then effective.failure.value else job.strategy
  }

  function PolicyOf(job: JobConfig, task: Task): RetryPolicy {
    var effective := Effective(job, task);
    if effective.retry.Some? then effective.retry.value else RetryPolicy(0, 0.0, 0.0)
  }

  /** What one call of a task function returns: nothing, or an error with the deadline passed or not. */
  datatype FnResult = Nil | Error(message: string, deadline: bool)

  datatype AttemptReport = AttemptReport(number: nat, status: TaskStatus, message: string)

  datatype TaskReport = TaskReport(taskId: string, taskName: string, attempts: seq<AttemptReport>,
      finalStatus: TaskStatus)

  /** Record keys stand for the generated ids: (occurrence, task) for a run, and its attempt numbers. */
  type RunKey = (string, string)
  type AttemptKey = (RunKey, nat)

  datatype RunRecord = RunRecord(status: TaskStatus, retryCount: nat, message: string)

  datatype AttemptRecord = AttemptRecord(number: nat, status: TaskStatus, message: string)

  /** What a task does and when its waits are cut short: the result of each attempt, and whether the wait
      after it is ended by the context instead of the timer. */
  datatype Script = Script(result: nat -> FnResult, canceled: nat -> bool)

  function ReportOf(number: nat, r: FnResult): AttemptReport {
    match r
    case Nil => AttemptReport(number, Success, "")
    case Error(message, deadline) =>
      if deadline then AttemptReport(number, Timeout, "task execution timeout")
        else AttemptReport(number, Failed, message)
  }

  function RecordOf(a: AttemptReport): AttemptRecord { AttemptRecord(a.number, a.status, a.message) }

  // ----- What the retry loop promises, stated on its report -----

  /** The report of a task under a script: attempts are numbered from 0 and carry their results; only the
      last may succeed, no earlier wait was cut short, and the final status says which way it ended. */
  ghost predicate IsReport(task: Task, maxRetries: int, script: Script, report: TaskReport) {
    report.taskId == task.id && report.taskName == task.name
      && Retried(maxRetries, script, report.attempts, report.finalStatus)
  }

  ghost predicate Retried(maxRetries: int, script: Script, attempts: seq<AttemptReport>, final: TaskStatus) {
    var n := |attempts|;
    && 1 <= n <= maxRetries + 1
    && (forall i | 0 <= i < n :: attempts[i] == ReportOf(i, script.result(i)))
    && (forall i | 0 <= i < n - 1 :: script.result(i) != Nil && !script.canceled(i))
    && (final == Success || final == Failed || final == Canceled)
    && (final == Success <==> script.result(n - 1) == Nil)
    && (final == Failed <==> script.result(n - 1) != Nil && n == maxRetries + 1)
    && (final == Canceled <==> script.result(n - 1) != Nil && n <= maxRetries && script.canceled(n - 1))
  }

  /** The report is determined by the task, its limit and its script. */
  lemma ReportUnique(task: Task, maxRetries: int, script: Script, a: TaskReport, b: TaskReport)
    requires IsReport(task, maxRetries, script, a) && IsReport(task, maxRetries, script, b)
    ensures a == b
  {
    var m, n := |a.attempts|, |b.attempts|;
    var endA, endB := script.result(m - 1), script.result(n - 1);
    var cutA, cutB := script.canceled(m - 1), script.canceled(n - 1);
    assert m == n;
    assert a.attempts == b.attempts;
  }

  /** What each attempt of such a report says, result by result. */
  lemma AttemptsSay(task: Task, maxRetries: int, script: Script, report: TaskReport, i: nat)
    requires IsReport(task, maxRetries, script, report) && i < |report.attempts|
    ensures var a, r := report.attempts[i], script.result(i);
            && a.number == i
            && (a.status == Success <==> r.Nil?)
            && (a.status == Timeout <==> r.Error? && r.deadline)
            && (a.status == Failed <==> r.Error? && !r.deadline)
            && (a.message == if r.Nil? then "" else if r.deadline then "task execution timeout" else r.message)
  {
  }

  /** The settings a task runs with: its own where it has one, else the job's default, else the job's strategy and
      no retries. */
  lemma SettingsResolve(job: JobConfig, task: Task)
    ensures task.config.failure.Some? ==> StrategyFor(job, task) == task.config.failure.value
    ensures task.config.failure.None? && job.defaults.failure.Some? ==>
              StrategyFor(job, task) == job.defaults.failure.value
    ensures task.config.failure.None? && job.defaults.failure.None? ==> StrategyFor(job, task) == job.strategy
    ensures task.config.retry.Some? ==> PolicyOf(job, task) == task.config.retry.value
    ensures task.config.retry.None? && job.defaults.retry.Some? ==> PolicyOf(job, task) == job.defaults.retry.value
    ensures task.config.retry.None? && job.defaults.retry.None? ==> PolicyOf(job, task).maxRetries == 0
  {
  }

  // ----- Waiting between attempts -----

  function Pow(base: real, n: nat): real { if n == 0 then 1.0 else base * Pow(base, n - 1) }

  /** The wait requested after attempt `n`. */
  function Backoff(policy: RetryPolicy, n: nat): real {
    if policy.backoffFactor > 1.0 then policy.retryInterval * Pow(policy.backoffFactor, n) else policy.retryInterval
  }

  function TotalWait(policy: RetryPolicy, waits: nat): real {
    if waits == 0 then 0.0 else TotalWait(policy, waits - 1) + Backoff(policy, waits - 1)
  }

  /** The waits requested, in order, are the first of the policy. */
  ghost predicate Backoffs(policy: RetryPolicy, waits: seq<real>) {
    forall i | 0 <= i < |waits| :: waits[i] == Backoff(policy, i)
  }

  function Total(waits: seq<real>): real {
    if waits == [] then 0.0 else Total(waits[..|waits| - 1]) + waits[|waits| - 1]
  }

  lemma {:induction false} TotalOfBackoffs(policy: RetryPolicy, waits: seq<real>)
    requires Backoffs(policy, waits)
    ensures Total(waits) == TotalWait(policy, |waits|)
  {
    if waits == [] {
    } else {
      TotalOfBackoffs(policy, waits[..|waits| - 1]);
    }
  }

  /** The waits requested by a report: one after each attempt but the last, and one more if canceled. */
  function Waits(report: TaskReport): nat
    requires report.attempts != []
  {
    if report.finalStatus == Canceled then |report.attempts| else |report.attempts| - 1
  }

  /** 1 + f + ... up to the power n - 1. */
  function GeometricSum(f: real, n: nat): real {
    if n == 0 then 0.0 else GeometricSum(f, n - 1) + Pow(f, n - 1)
  }

  lemma {:induction false} GeometricClosed(f: real, n: nat)
    ensures GeometricSum(f, n) * (f - 1.0) == Pow(f, n) - 1.0
  {
    if n == 0 {
    } else {
      GeometricClosed(f, n - 1);
      Expand(GeometricSum(f, n - 1), Pow(f, n - 1), f);
    }
  }

  lemma Expand(g: real, p: real, f: real)
    ensures (g + p) * (f - 1.0) == g * (f - 1.0) + f * p - p
  {
  }

  /** For factors above one the waiting requested is the interval times a geometric sum. */
  lemma {:induction false} WaitGeometric(policy: RetryPolicy, waits: nat)
    requires policy.backoffFactor > 1.0
    ensures TotalWait(policy, waits) == policy.retryInterval * GeometricSum(policy.backoffFactor, waits)
  {
    if waits == 0 {
    } else {
      WaitGeometric(policy, waits - 1);
      Distribute(policy.retryInterval, GeometricSum(policy.backoffFactor, waits - 1),
        Pow(policy.backoffFactor, waits - 1));
    }
  }

  lemma Distribute(x: real, g: real, p: real)
    ensures x * (g + p) == x * g + x * p
  {
  }

  /** For other factors every wait is the interval itself. */
  lemma {:induction false} WaitLinear(policy: RetryPolicy, waits: nat)
    requires policy.backoffFactor <= 1.0
    ensures TotalWait(policy, waits) == waits as real * policy.retryInterval
  {
    if waits == 0 {
    } else {
      WaitLinear(policy, waits - 1);
      LinearStep((waits - 1) as real, policy.retryInterval);
    }
  }

  lemma LinearStep(n: real, x: real)
    ensures n * x + x == (n + 1.0) * x
  {
  }

  lemma {:induction false} BackoffNonNegative(policy: RetryPolicy, n: nat)
    requires policy.retryInterval >= 0.0
    ensures Backoff(policy, n) >= 0.0
  {
    if policy.backoffFactor > 1.0 {
      PowPositive(policy.backoffFactor, n);
    }
  }

  lemma {:induction false} PowPositive(f: real, n: nat)
    requires f > 1.0
    ensures Pow(f, n) >= 1.0
  {
    if n == 0 {
    } else {
      PowPositive(f, n - 1);
      assert f * Pow(f, n - 1) >= 1.0 * Pow(f, n - 1);
    }
  }

  lemma {:induction false} TotalWaitMonotone(policy: RetryPolicy, m: nat, n: nat)
    requires policy.retryInterval >= 0.0 && m <= n
    ensures 0.0 <= TotalWait(policy, m) <= TotalWait(policy, n)
  {
    if n == 0 {
    } else {
      BackoffNonNegative(policy, n - 1);
      if m < n { TotalWaitMonotone(policy, m, n - 1); } else { TotalWaitMonotone(policy, m - 1, n - 1); }
    }
  }

  /** The waiting a policy's full run of retries requests: the interval times a geometric sum for factors
      above one, the interval times the retries otherwise. */
  function WaitLimit(policy: RetryPolicy): real
    requires policy.maxRetries >= 0
  {
    if policy.backoffFactor > 1.0 then policy.retryInterval * GeometricSum(policy.backoffFactor, policy.maxRetries)
    else policy.maxRetries as real * policy.retryInterval
  }

  lemma FullRunReachesLimit(policy: RetryPolicy)
    requires policy.maxRetries >= 0
    ensures TotalWait(policy, policy.maxRetries) == WaitLimit(policy)
  {
    if policy.backoffFactor > 1.0 {
      WaitGeometric(policy, policy.maxRetries);
    } else {
      WaitLinear(policy, policy.maxRetries);
    }
  }

  lemma WaitWithin(policy: RetryPolicy, waits: seq<real>, limit: nat)
    requires Backoffs(policy, waits) && |waits| <= limit && policy.retryInterval >= 0.0
    ensures 0.0 <= Total(waits) <= TotalWait(policy, limit)
  {
    TotalOfBackoffs(policy, waits);
    TotalWaitMonotone(policy, |waits|, limit);
  }

  /** No execution of a task requests more waiting than its policy's limit. */
  lemma WaitBounded(task: Task, policy: RetryPolicy, script: Script, report: TaskReport, waits: seq<real>)
    requires IsReport(task, policy.maxRetries, script, report) && policy.retryInterval >= 0.0
    requires Backoffs(policy, waits) && |waits| == Waits(report)
    ensures 0.0 <= Total(waits) <= WaitLimit(policy)
  {
    WaitWithin(policy, waits, policy.maxRetries);
    FullRunReachesLimit(policy);
  }

  // ----- Records -----

  function FinalRun(report: TaskReport): RunRecord {
    if report.finalStatus == Failed && report.attempts != [] then
      RunRecord(Failed, |report.attempts|, report.attempts[|report.attempts| - 1].message)
    else
      RunRecord(report.finalStatus, 0, "")
  }

  /** The audit trail of a run equals its report: exactly the attempts numbered 0..k-1 are stored, each with
      the reported status and message, and the stored run ends in the reported status. */
  ghost predicate Audited(runs: map<RunKey, RunRecord>, attempts: map<AttemptKey, AttemptRecord>, run: RunKey,
      report: TaskReport) {
    && report.attempts != []
    && run in runs && runs[run].status == report.finalStatus
    && (if report.finalStatus == Failed then
          runs[run].retryCount == |report.attempts|
          && runs[run].message == report.attempts[|report.attempts| - 1].message
        else runs[run].retryCount == 0 && runs[run].message == "")
    && AttemptsAre(attempts, run, report.attempts)
  }

  /** Exactly these attempts are stored for the run. */
  ghost predicate AttemptsAre(attempts: map<AttemptKey, AttemptRecord>, run: RunKey, reported: seq<AttemptReport>) {
    && (forall n: nat :: (run, n) in attempts <==> n < |reported|)
    && (forall n: nat | n < |reported| ::
          var a := attempts[(run, n)];
          a.number == reported[n].number && a.status == reported[n].status && a.message == reported[n].message)
  }

  /** The part of the audit trail that belongs to other runs is the same. */
  ghost predicate OthersKept(before: map<AttemptKey, AttemptRecord>, after: map<AttemptKey, AttemptRecord>,
      run: RunKey) {
    forall k: AttemptKey | k.0 != run :: (k in before <==> k in after) && (k in before ==> before[k] == after[k])
  }

  /** The attempt table after a run's attempts have been recorded in turn. */
  ghost function Recorded(before: map<AttemptKey, AttemptRecord>, run: RunKey, reports: seq<AttemptReport>)
    : map<AttemptKey, AttemptRecord>
  {
    if reports == [] then before
    else
      var last := |reports| - 1;
      Recorded(before, run, reports[..last])[(run, reports[last].number) := RecordOf(reports[last])]
  }

  lemma {:induction false} RecordedOthers(before: map<AttemptKey, AttemptRecord>, run: RunKey,
      reports: seq<AttemptReport>)
    ensures OthersKept(before, Recorded(before, run, reports), run)
  {
    if reports == [] {
    } else {
      RecordedOthers(before, run, reports[..|reports| - 1]);
    }
  }

  lemma {:induction false} RecordedFresh(before: map<AttemptKey, AttemptRecord>, run: RunKey,
      reports: seq<AttemptReport>)
    requires forall n: nat :: (run, n) !in before
    requires forall i | 0 <= i < |reports| :: reports[i].number == i
    ensures AttemptsAre(Recorded(before, run, reports), run, reports)
  {
    if reports == [] {
    } else {
      RecordedFresh(before, run, reports[..|reports| - 1]);
    }
  }

  /** What one task leaves behind: its run and attempts rewritten, everything else as it was. */
  ghost predicate TaskDone(runs: map<RunKey, RunRecord>, attempts: map<AttemptKey, AttemptRecord>,
                           runs': map<RunKey, RunRecord>, attempts': map<AttemptKey, AttemptRecord>,
                           run: RunKey, report: TaskReport) {
    && report.attempts != []
    && runs' == runs[run := FinalRun(report)]
    && attempts' == Recorded(attempts, run, report.attempts)
  }

  /** On a fresh run, what is left behind is the audit trail of the report. */
  lemma DoneIsAudited(runs: map<RunKey, RunRecord>, attempts: map<AttemptKey, AttemptRecord>,
                      runs': map<RunKey, RunRecord>, attempts': map<AttemptKey, AttemptRecord>,
                      run: RunKey, report: TaskReport, task: Task, maxRetries: int, script: Script)
    requires TaskDone(runs, attempts, runs', attempts', run, report) && IsReport(task, maxRetries, script, report)
    requires forall n: nat :: (run, n) !in attempts
    ensures Audited(runs', attempts', run, report)
    ensures run in runs' && runs'[run].status == report.finalStatus
    ensures forall n: nat | n < |report.attempts| ::
              (run, n) in attempts' && attempts'[(run, n)].number == n
              && attempts'[(run, n)].status == report.attempts[n].status
              && attempts'[(run, n)].message == report.attempts[n].message
  {
    RecordedFresh(attempts, run, report.attempts);
  }

  /** Every attempt so far failed, and no wait that may follow one was cut short. */
  ghost predicate AllFailed(reports: seq<AttemptReport>, maxRetries: int, script: Script) {
    forall i | 0 <= i < |reports| ::
      reports[i] == ReportOf(i, script.result(i)) && script.result(i) != Nil && (i < maxRetries ==> !script.canceled(i))
  }

  /** The three ways out of the retry loop after one more attempt, and the way on. */
  lemma OneMoreAttempt(earlier: seq<AttemptReport>, maxRetries: int, script: Script)
    requires AllFailed(earlier, maxRetries, script) && |earlier| <= maxRetries
    ensures var n := |earlier|;
            var all := earlier + [ReportOf(n, script.result(n))];
            && (all[n].status == Success <==> script.result(n) == Nil)
            && (script.result(n) == Nil ==> Retried(maxRetries, script, all, Success))
            && (script.result(n) != Nil && n == maxRetries ==> Retried(maxRetries, script, all, Failed))
            && (script.result(n) != Nil && n < maxRetries && script.canceled(n) ==>
                  Retried(maxRetries, script, all, Canceled))
            && (script.result(n) != Nil && (n < maxRetries ==> !script.canceled(n)) ==>
                  AllFailed(all, maxRetries, script))
  {
  }

  lemma RecordedNext(before: map<AttemptKey, AttemptRecord>, run: RunKey, earlier: seq<AttemptReport>,
      last: AttemptReport)
    ensures Recorded(before, run, earlier + [last])
            == Recorded(before, run, earlier)[(run, last.number) := RecordOf(last)]
  {
    assert (earlier + [last])[..|earlier|] == earlier;
  }

  /** The task-run and attempt tables, with create-if-absent and update-if-present; the executor ignores
      the errors of both. */
  class AuditStore {
    var runs: map<RunKey, RunRecord>
    var attempts: map<AttemptKey, AttemptRecord>

    constructor ()
      ensures runs == map[] && attempts == map[]
    {
      runs, attempts := map[], map[];
    }

    method CreateTaskRun(k: RunKey, r: RunRecord)
      modifies this
      ensures attempts == old(attempts)
      ensures runs == if k in old(runs) then old(runs) else old(runs)[k := r]
    {
      if k !in runs { runs := runs[k := r]; }
    }

    method UpdateTaskRun(k: RunKey, r: RunRecord)
      modifies this
      ensures attempts == old(attempts)
      ensures runs == if k in old(runs) then old(runs)[k := r] else old(runs)
    {
      if k in runs { runs := runs[k := r]; }
    }

    method CreateAttempt(k: AttemptKey, a: AttemptRecord)
      modifies this
      ensures runs == old(runs)
      ensures attempts == if k in old(attempts) then old(attempts) else old(attempts)[k := a]
    {
      if k !in attempts { attempts := attempts[k := a]; }
    }

    method UpdateAttempt(k: AttemptKey, a: AttemptRecord)
      modifies this
      ensures runs == old(runs)
      ensures attempts == if k in old(attempts) then old(attempts)[k := a] else old(attempts)
    {
      if k in attempts { attempts := attempts[k := a]; }
    }

    /** An attempt that is about to be made is stored as Running. */
    method StartAttempt(run: RunKey, number: nat)
      modifies this
      ensures runs == old(runs) && (run, number) in attempts
      ensures forall k | k != (run, number) :: (k in attempts <==> k in old(attempts))
      ensures forall k | k in old(attempts) :: attempts[k] == old(attempts)[k]
      ensures (run, number) !in old(attempts) ==>
                var a := attempts[(run, number)]; a.number == number && a.status == Running && a.message == ""
    {
      CreateAttempt((run, number), AttemptRecord(number, Running, ""));
    }

    /** One attempt: its record is created as Running and rewritten with the outcome. */
    method ExecuteAttempt(run: RunKey, number: nat, r: FnResult) returns (report: AttemptReport)
      modifies this
      ensures report == ReportOf(number, r)
      ensures runs == old(runs)
      ensures attempts == old(attempts)[(run, number) := RecordOf(report)]
    {
      StartAttempt(run, number);
      report := ReportOf(number, r);
      UpdateAttempt((run, number), RecordOf(report));
    }

    /** The next wait, growing with the number of waits so far. */
    method RequestWait(policy: RetryPolicy, waits: seq<real>) returns (longer: seq<real>)
      requires Backoffs(policy, waits)
      ensures Backoffs(policy, longer) && |longer| == |waits| + 1
    {
      longer := waits + [Backoff(policy, |waits|)];
    }

    /** The retry loop, for a limit that lets it run at all. */
    method Retry(run: RunKey, policy: RetryPolicy, script: Script)
      returns (reports: seq<AttemptReport>, status: TaskStatus, waits: seq<real>)
      requires policy.maxRetries >= 0
      modifies this
      ensures Retried(policy.maxRetries, script, reports, status)
      ensures Backoffs(policy, waits) && |waits| == if status == Canceled then |reports| else |reports| - 1
      ensures runs == old(runs) && attempts == Recorded(old(attempts), run, reports)
    {
      reports, waits := [], [];
      var attempt := 0;
      while attempt <= policy.maxRetries
        invariant 0 <= attempt == |reports| <= policy.maxRetries + 1
        invariant runs == old(runs) && attempts == Recorded(old(attempts), run, reports)
        invariant AllFailed(reports, policy.maxRetries, script)
        invariant attempt > policy.maxRetries ==> Retried(policy.maxRetries, script, reports, Failed)
        invariant Backoffs(policy, waits)
        invariant |waits| == if attempt <= policy.maxRetries then attempt else policy.maxRetries
      {
        var report := ExecuteAttempt(run, attempt, script.result(attempt));
        RecordedNext(old(attempts), run, reports, report);
        OneMoreAttempt(reports, policy.maxRetries, script);
        reports := reports + [report];
        if report.status == Success {
          return reports, Success, waits;
        }
        if attempt < policy.maxRetries {
          waits := RequestWait(policy, waits);
          if script.canceled(attempt) {
            return reports, Canceled, waits;
          }
        }
        attempt := attempt + 1;
      }
      status := Failed;
    }

    /** Runs one task. A negative retry limit runs no attempt, and building the failure message then
        dereferences the missing last error: the result is None for that panic. */
    method ExecuteTask(occurrenceId: string, job: JobConfig, task: Task, script: Script)
      returns (result: Option<TaskReport>, waits: seq<real>)
      modifies this
      ensures var policy, run := PolicyOf(job, task), (occurrenceId, task.id);
              && (result.None? <==> policy.maxRetries < 0)
              && (result.None? ==>
                    attempts == old(attempts)
                    && runs == if run in old(runs) then old(runs) else old(runs)[run := RunRecord(Pending, 0, "")])
              && (result.Some? ==>
                    && IsReport(task, policy.maxRetries, script, result.value)
                    && Backoffs(policy, waits) && |waits| == Waits(result.value)
                    && TaskDone(old(runs), old(attempts), runs, attempts, run, result.value))
    {
      var policy, run := PolicyOf(job, task), (occurrenceId, task.id);
      CreateTaskRun(run, RunRecord(Pending, 0, ""));
      if policy.maxRetries < 0 { return None, []; }
      var reports, status;
      reports, status, waits := Retry(run, policy, script);
      var final := TaskReport(task.id, task.name, reports, status);
      UpdateTaskRun(run, FinalRun(final));
      result := Some(final);
    }
  }
}
