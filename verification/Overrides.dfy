/** Per-task failure strategies in a sequential run: promised, not consulted, and exactly when that shows. */
module Overrides {
  import opened Types
  import opened Executor
  import opened Sequential

  /** The strategies that overrides give the tasks. */
  function Honoured(job: JobConfig, tasks: seq<Task>): nat -> FailureStrategy {
    (i: nat) => if i < |tasks| then StrategyFor(job, tasks[i]) else job.strategy
  }

  /** The sequential run that honours every task's override. */
  ghost predicate HonoursOverrides(job: JobConfig, tasks: seq<Task>, env: nat -> TaskEnv,
                                   reports: seq<TaskReport>, outcome: GroupOutcome) {
    Follows(job, tasks, env, Honoured(job, tasks), reports, outcome)
  }

  /** The task's override, if any, agrees with the job on whether a failure stops the run. */
  predicate Agrees(job: JobConfig, task: Task) { StrategyFor(job, task) == FailFast <==> job.strategy == FailFast }

  /** A sequential run honours the overrides exactly when every task that failed in it agrees with the job. */
  lemma HonouredIff(job: JobConfig, tasks: seq<Task>, env: nat -> TaskEnv, reports: seq<TaskReport>,
                    outcome: GroupOutcome)
    requires IsSequential(job, tasks, env, reports, outcome)
    ensures HonoursOverrides(job, tasks, env, reports, outcome)
            <==> forall i | 0 <= i < |reports| && reports[i].finalStatus == Failed :: Agrees(job, tasks[i])
  {
    var honoured := Honoured(job, tasks);
    forall i | 0 <= i < |reports|
      ensures Agrees(job, tasks[i]) || reports[i].finalStatus != Failed
              <==> (Stops(honoured(i), reports[i]) <==> Aborts(job, reports[i]))
    {
    }
    if HonoursOverrides(job, tasks, env, reports, outcome) {
      forall i | 0 <= i < |reports| && reports[i].finalStatus == Failed ensures Agrees(job, tasks[i]) {
        assert Stops(honoured(i), reports[i]) <==> Aborts(job, reports[i]);
      }
    }
  }

  // ----- What a caller can check -----

  /** The environment in which task `bad` always fails and every other task succeeds at once. */
  function OnlyFails(bad: nat): nat -> TaskEnv {
    (i: nat) => TaskEnv(Script((n: nat) => if i == bad then Error("no", false) else Nil, (n: nat) => false), false)
  }

  function ReportIn(job: JobConfig, tasks: seq<Task>, bad: nat, i: nat): TaskReport
    requires i < |tasks| && PolicyOf(job, tasks[i]).maxRetries >= 0
  {
    if i == bad then
      TaskReport(tasks[i].id, tasks[i].name,
                 seq(PolicyOf(job, tasks[i]).maxRetries + 1, n requires 0 <= n => ReportOf(n, Error("no", false))),
                 Failed)
    else TaskReport(tasks[i].id, tasks[i].name, [ReportOf(0, Nil)], Success)
  }

  lemma ReportInIs(job: JobConfig, tasks: seq<Task>, bad: nat, i: nat)
    requires i < |tasks| && PolicyOf(job, tasks[i]).maxRetries >= 0
    ensures IsReport(tasks[i], PolicyOf(job, tasks[i]).maxRetries, OnlyFails(bad)(i).script,
                     ReportIn(job, tasks, bad, i))
  {
  }

  /** Every retry loop makes an attempt. */
  ghost predicate Runnable(job: JobConfig, tasks: seq<Task>) {
    forall i | 0 <= i < |tasks| :: PolicyOf(job, tasks[i]).maxRetries >= 0
  }

  /** The run in that environment, for tasks judged by any strategies. */
  lemma RunIn(job: JobConfig, tasks: seq<Task>, bad: nat, strategy: nat -> FailureStrategy)
    returns (reports: seq<TaskReport>, outcome: GroupOutcome)
    requires Runnable(job, tasks) && bad < |tasks|
    ensures Follows(job, tasks, OnlyFails(bad), strategy, reports, outcome)
    ensures |reports| == if strategy(bad) == FailFast then bad + 1 else |tasks|
    ensures reports[bad].finalStatus == Failed
    ensures outcome == if strategy(bad) == FailFast then GroupFailed else AllCompleted
  {
    var stops := strategy(bad) == FailFast;
    var n := if stops then bad + 1 else |tasks|;
    reports := seq(n, i requires 0 <= i < n => ReportIn(job, tasks, bad, i));
    outcome := if stops then GroupFailed else AllCompleted;
    forall i | 0 <= i < n
      ensures IsReport(tasks[i], PolicyOf(job, tasks[i]).maxRetries, OnlyFails(bad)(i).script, reports[i])
    {
      ReportInIs(job, tasks, bad, i);
    }
  }

  /** The code's run in this environment is not the one that honours the overrides. */
  ghost predicate Differs(job: JobConfig, tasks: seq<Task>, env: nat -> TaskEnv) {
    exists reports, outcome ::
      IsSequential(job, tasks, env, reports, outcome) && !HonoursOverrides(job, tasks, env, reports, outcome)
  }

  /** Some behaviour of the tasks makes ignoring the overrides show exactly when some task's strategy disagrees with
      the job's on fail-fast. */
  lemma SomeRunDiffersIff(job: JobConfig, tasks: seq<Task>)
    requires Runnable(job, tasks)
    ensures (exists env :: Differs(job, tasks, env)) <==> exists i :: 0 <= i < |tasks| && !Agrees(job, tasks[i])
  {
    if env :| Differs(job, tasks, env) {
      var reports, outcome :|
        IsSequential(job, tasks, env, reports, outcome) && !HonoursOverrides(job, tasks, env, reports, outcome);
      HonouredIff(job, tasks, env, reports, outcome);
    }
    if bad :| 0 <= bad < |tasks| && !Agrees(job, tasks[bad]) {
      var reports, outcome := RunIn(job, tasks, bad, (i: nat) => job.strategy);
      HonouredIff(job, tasks, OnlyFails(bad), reports, outcome);
      assert Differs(job, tasks, OnlyFails(bad));
    }
  }

  /** A fail-fast job whose first task is to continue on failure: the code stops after it, though its second task
      should have run; and a job that continues, whose first task is to fail fast: the code runs on. */
  lemma OverridesIgnored(strategy: FailureStrategy)
    returns (job: JobConfig, tasks: seq<Task>, a: seq<TaskReport>, x: GroupOutcome, b: seq<TaskReport>, y: GroupOutcome)
    requires strategy == FailFast || strategy == Continue
    ensures job.strategy == strategy && |tasks| == 2 && tasks[0].config.failure.Some?
    ensures IsSequential(job, tasks, OnlyFails(0), a, x) && HonoursOverrides(job, tasks, OnlyFails(0), b, y)
    ensures strategy == FailFast ==> |a| == 1 && x == GroupFailed && |b| == 2 && y == AllCompleted
    ensures strategy == Continue ==> |a| == 2 && x == AllCompleted && |b| == 1 && y == GroupFailed
  {
    var override := if strategy == FailFast then Continue else FailFast;
    job := JobConfig(strategy, TaskConfig(None, None));
    tasks := [Task("a", "a", TaskConfig(Some(override), None)), Task("b", "b", TaskConfig(None, None))];
    a, x := RunIn(job, tasks, 0, (i: nat) => job.strategy);
    b, y := RunIn(job, tasks, 0, Honoured(job, tasks));
  }
}
