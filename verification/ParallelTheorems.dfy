/** What every interleaving of the parallel runner ends with. */
module ParallelTheorems {
  import opened Types
  import opened Executor
  import opened Sequential
  import P = Parallel

  ghost predicate AllDone(s: P.State) { forall i | 0 <= i < |s.pcs| :: s.pcs[i].Done? }

  /** A state in which some run of the group has finished. */
  ghost predicate EndsIn(setup: P.Setup, s: P.State) {
    AllDone(s) && exists states, steps :: P.IsRun(setup, states, steps) && states[|steps|] == s
  }

  /** The group outcome, read off the report list once every goroutine has finished. */
  ghost function Outcome(s: P.State): GroupOutcome {
    if s.parentDone then GroupCanceled
    else if exists j :: 0 <= j < |s.reports| && s.reports[j].finalStatus == Failed then GroupFailed
    else AllCompleted
  }

  /** `order` lists each of 0..n-1 exactly once. */
  ghost predicate Permutes(order: seq<nat>, n: nat) {
    && (forall j | 0 <= j < |order| :: order[j] < n)
    && (forall j, k | 0 <= j < k < |order| :: order[j] != order[k])
    && (forall i: nat | i < n :: i in order)
  }

  /** Reading a family of values in any order gives the same multiset as reading it in index order. */
  lemma {:induction false} PermutedReading<T>(order: seq<nat>, n: nat, value: seq<T>, read: seq<T>)
    requires Permutes(order, n) && |value| == n && |read| == |order|
    requires forall j | 0 <= j < |order| :: read[j] == value[order[j]]
    ensures |order| == n && multiset(read) == multiset(value)
  {
    if n == 0 {
      assert order == [];
    } else {
      var last: nat := n - 1;
      assert last in order;
      var p :| 0 <= p < |order| && order[p] == last;
      var rest, read' := Without(order, p), Without(read, p);
      WithoutPermutes(order, n, p);
      PermutedReading(rest, last, value[..last], read');
      WithoutMultiset(read, p);
      assert value == value[..last] + [value[last]];
    }
  }

  function Without<T>(s: seq<T>, p: nat): seq<T>
    requires p < |s|
  {
    s[..p] + s[p + 1..]
  }

  lemma WithoutMultiset<T>(s: seq<T>, p: nat)
    requires p < |s|
    ensures multiset(s) == multiset(Without(s, p)) + multiset{s[p]}
  {
    assert s == s[..p] + [s[p]] + s[p + 1..];
  }

  lemma WithoutPermutes(order: seq<nat>, n: nat, p: nat)
    requires Permutes(order, n) && p < |order| && n > 0 && order[p] == n - 1
    ensures Permutes(Without(order, p), n - 1)
  {
    var rest := Without(order, p);
    assert forall j | 0 <= j < |rest| :: rest[j] == order[if j < p then j else j + 1];
    forall i: nat | i < n - 1 ensures i in rest {
      assert i in order;
      var j :| 0 <= j < |order| && order[j] == i;
      assert rest[if j < p then j else j - 1] == i;
    }
  }

  /** The report each task ended with. */
  ghost function FinalReports(s: P.State): seq<TaskReport>
    requires AllDone(s)
  {
    seq(|s.pcs|, i requires 0 <= i < |s.pcs| && s.pcs[i].Done? => s.pcs[i].report)
  }

  lemma ListIsPermutation(setup: P.Setup, s: P.State)
    requires P.Inv(setup, s) && AllDone(s)
    ensures |s.reports| == |setup.tasks| && multiset(s.reports) == multiset(FinalReports(s))
  {
    var n := |s.pcs|;
    assert forall i: nat | i < n :: P.Listed(s.pcs[i]);
    PermutedReading(s.order, n, FinalReports(s), s.reports);
  }

  /** When all goroutines have finished there is exactly one report per task, each a possible outcome of its
      task's retry loop. */
  lemma OneReportPerTask(setup: P.Setup, states: seq<P.State>, steps: seq<P.Step>, i: nat)
    requires P.IsRun(setup, states, steps) && i < |states| && AllDone(states[i])
    ensures |states[i].reports| == |setup.tasks|
    ensures forall k: nat | k < |setup.tasks| :: HasOneReport(setup, states[i].reports, k)
  {
    var s := states[i];
    P.RunInv(setup, states, steps, i);
    ListIsPermutation(setup, s);
    forall k: nat | k < |setup.tasks| ensures HasOneReport(setup, s.reports, k) {
      var j := ReportOfTask(setup, s, k);
    }
  }

  ghost predicate HasOneReport(setup: P.Setup, reports: seq<TaskReport>, k: nat)
    requires k < |setup.tasks|
  {
    exists j: nat :: TheReport(setup, reports, k, j)
  }

  /** Report j is a possible outcome of task k's retry loop, and no other report is for that task. */
  ghost predicate TheReport(setup: P.Setup, reports: seq<TaskReport>, k: nat, j: nat)
    requires k < |setup.tasks|
  {
    && j < |reports| && P.ReportOk(setup, k, reports[j])
    && forall j' | 0 <= j' < |reports| && j' != j :: reports[j'].taskId != setup.tasks[k].id
  }

  lemma ReportOfTask(setup: P.Setup, s: P.State, k: nat) returns (j: nat)
    requires P.Inv(setup, s) && AllDone(s) && k < |setup.tasks|
    ensures TheReport(setup, s.reports, k, j)
  {
    assert P.Listed(s.pcs[k]);
    j :| 0 <= j < |s.order| && s.order[j] == k;
    assert P.TaskOk(setup, s.runs, s.attempts, k, s.pcs[k]);
    forall j' | 0 <= j' < |s.reports| && j' != j ensures s.reports[j'].taskId != setup.tasks[k].id {
      var m := s.order[j'];
      assert m != k && P.TaskOk(setup, s.runs, s.attempts, m, s.pcs[m]);
    }
  }

  /** The task is to fail the group: by its own strategy, else the job's default, else the job's. */
  predicate FailsGroup(job: JobConfig, task: Task) {
    match task.config.failure
    case Some(own) => own == FailFast
    case None =>
      match job.defaults.failure
      case Some(default) => default == FailFast
      case None => job.strategy == FailFast
  }

  /** Some goroutine has finished with a failed task that fails the group. */
  ghost predicate GroupFailedFast(setup: P.Setup, s: P.State) {
    exists m :: 0 <= m < |s.pcs| && m < |setup.tasks|
                && s.pcs[m].Done? && s.pcs[m].report.finalStatus == Failed && FailsGroup(setup.job, setup.tasks[m])
  }

  /** In every run, a task that waits to be tried again can be interrupted exactly when the parent context is done or
      some goroutine has finished with a failure that fails the group; it then ends as canceled with the attempts it
      has made. */
  lemma InterruptibleIff(setup: P.Setup, states: seq<P.State>, steps: seq<P.Step>, i: nat, k: nat)
    requires P.IsRun(setup, states, steps) && i < |states|
    requires k < |states[i].pcs| && states[i].pcs[k].Waiting?
    ensures |states[i].pcs| == |setup.tasks|
    ensures P.Enabled(setup, states[i], P.Interrupt(k)) <==> states[i].parentDone || GroupFailedFast(setup, states[i])
    ensures P.Enabled(setup, states[i], P.Interrupt(k)) ==>
              var pc := P.Apply(setup, states[i], P.Interrupt(k)).pcs[k];
              pc.Concluding? && pc.report.finalStatus == Canceled && pc.report.attempts == states[i].pcs[k].made
  {
    P.RunInv(setup, states, steps, i);
    var s := states[i];
    if m: nat :| P.FailedFast(setup, s, m) { SettingsResolve(setup.job, setup.tasks[m]); }
    if m :| 0 <= m < |s.pcs| && m < |setup.tasks| && s.pcs[m].Done? && s.pcs[m].report.finalStatus == Failed
            && FailsGroup(setup.job, setup.tasks[m]) {
      SettingsResolve(setup.job, setup.tasks[m]);
      assert P.FailedFast(setup, s, m);
    }
  }

  /** A canceled task means the parent context is done or some reported task failed under fail-fast. */
  lemma CanceledHasACause(setup: P.Setup, states: seq<P.State>, steps: seq<P.Step>, i: nat, j: nat)
    requires P.IsRun(setup, states, steps) && i < |states|
    requires j < |states[i].reports| && states[i].reports[j].finalStatus == Canceled
    ensures states[i].parentDone
            || exists m, k :: 0 <= m < |states[i].reports| && 0 <= k < |setup.tasks|
                              && states[i].reports[m].taskId == setup.tasks[k].id
                              && states[i].reports[m].finalStatus == Failed && P.StrategyOf(setup, k) == FailFast
  {
    var s := states[i];
    P.RunInv(setup, states, steps, i);
    assert P.HasReport(s.pcs[s.order[j]]);
    if !s.parentDone {
      var k: nat :| P.FailedFast(setup, s, k);
      FailedFastIsReported(setup, s, k);
    }
  }

  lemma FailedFastIsReported(setup: P.Setup, s: P.State, k: nat)
    requires P.Inv(setup, s) && P.FailedFast(setup, s, k)
    ensures exists m ::
        0 <= m < |s.reports| && s.reports[m].taskId == setup.tasks[k].id && s.reports[m].finalStatus == Failed
  {
    assert P.Listed(s.pcs[k]);
    var m :| 0 <= m < |s.order| && s.order[m] == k;
    assert P.TaskOk(setup, s.runs, s.attempts, k, s.pcs[k]);
    assert s.reports[m].finalStatus == Failed;
  }

  /** The outcome is "completed" exactly when the parent is not done and every task succeeded. */
  lemma CompletedMeansAllSucceeded(setup: P.Setup, states: seq<P.State>, steps: seq<P.Step>, i: nat)
    requires P.IsRun(setup, states, steps) && i < |states| && AllDone(states[i])
    ensures Outcome(states[i]) == AllCompleted <==>
              !states[i].parentDone && forall j | 0 <= j < |states[i].reports| ::
                states[i].reports[j].finalStatus == Success
  {
    var s := states[i];
    P.RunInv(setup, states, steps, i);
    if Outcome(s) == AllCompleted {
      forall j | 0 <= j < |s.reports| ensures s.reports[j].finalStatus == Success {
        var k := s.order[j];
        assert P.TaskOk(setup, s.runs, s.attempts, k, s.pcs[k]);
        if s.reports[j].finalStatus == Canceled { CanceledHasACause(setup, states, steps, i, j); }
      }
    }
  }

  /** In every run, until a task has ended its stored run says Pending, and an attempt being made is stored as
      Running after those already made. */
  lemma UnfinishedRecords(setup: P.Setup, states: seq<P.State>, steps: seq<P.Step>, i: nat, k: nat)
    requires P.IsRun(setup, states, steps) && i < |states| && k < |states[i].pcs| && k < |setup.tasks|
    ensures var s, run := states[i], (setup.occurrenceId, setup.tasks[k].id);
            && (s.pcs[k].Idle? ==> run !in s.runs && forall n: nat :: (run, n) !in s.attempts)
            && (s.pcs[k].Ready? || s.pcs[k].InAttempt? || s.pcs[k].Waiting? || s.pcs[k].Concluding? ==>
                  run in s.runs && s.runs[run].status == Pending)
            && (s.pcs[k].InAttempt? ==>
                  var n := |s.pcs[k].made|;
                  && (run, n) in s.attempts
                  && s.attempts[(run, n)].status == Running && s.attempts[(run, n)].number == n)
  {
    P.RunInv(setup, states, steps, i);
    assert P.TaskOk(setup, states[i].runs, states[i].attempts, k, states[i].pcs[k]);
  }

  /** The outcome in full: canceled exactly when the parent context is done, else failed exactly when some task
      failed, else completed. */
  lemma OutcomeMeans(s: P.State)
    ensures Outcome(s) == GroupCanceled <==> s.parentDone
    ensures Outcome(s) == GroupFailed <==>
              !s.parentDone && exists j :: 0 <= j < |s.reports| && s.reports[j].finalStatus == Failed
    ensures Outcome(s) == AllCompleted <==>
              !s.parentDone && forall j | 0 <= j < |s.reports| :: s.reports[j].finalStatus != Failed
  {
  }

  /** In every reachable state the stored records of a reported task are exactly its audit trail; at the end
      that holds for every task. */
  lemma AuditEqualsReport(setup: P.Setup, states: seq<P.State>, steps: seq<P.Step>, i: nat)
    requires P.IsRun(setup, states, steps) && i < |states|
    ensures forall j | 0 <= j < |states[i].reports| ::
              Audited(states[i].runs, states[i].attempts, (setup.occurrenceId, states[i].reports[j].taskId),
                states[i].reports[j])
    ensures forall j | 0 <= j < |states[i].reports| ::
              var report, run := states[i].reports[j], (setup.occurrenceId, states[i].reports[j].taskId);
              && run in states[i].runs && states[i].runs[run].status == report.finalStatus
              && forall n: nat | n < |report.attempts| ::
                   (run, n) in states[i].attempts && states[i].attempts[(run, n)].status == report.attempts[n].status
  {
    var s := states[i];
    P.RunInv(setup, states, steps, i);
    forall j | 0 <= j < |s.reports|
      ensures Audited(s.runs, s.attempts, (setup.occurrenceId, s.reports[j].taskId), s.reports[j])
    {
      var k := s.order[j];
      assert P.TaskOk(setup, s.runs, s.attempts, k, s.pcs[k]);
    }
  }

  /** The environment a sequential run sees when the context is never done. */
  function Undisturbed(setup: P.Setup): nat -> TaskEnv {
    (i: nat) => TaskEnv(Script((n: nat) => setup.result(i, n), (n: nat) => false), false)
  }

  /** With no fail-fast in force and a context that is never done, every interleaving of the parallel runner
      ends with a permutation of the reports of the sequential runner. */
  lemma ParallelPermutesSequential(setup: P.Setup, states: seq<P.State>, steps: seq<P.Step>, i: nat,
                                   reports: seq<TaskReport>, outcome: GroupOutcome)
    requires P.IsRun(setup, states, steps) && i < |states| && AllDone(states[i]) && !states[i].parentDone
    requires setup.job.strategy != FailFast
    requires forall k | 0 <= k < |setup.tasks| :: P.StrategyOf(setup, k) != FailFast
    requires IsSequential(setup.job, setup.tasks, Undisturbed(setup), reports, outcome)
    ensures outcome == AllCompleted && multiset(states[i].reports) == multiset(reports)
  {
    var s, env := states[i], Undisturbed(setup);
    P.RunInv(setup, states, steps, i);
    ListIsPermutation(setup, s);
    assert outcome == AllCompleted;
    forall k | 0 <= k < |reports| ensures reports[k] == FinalReports(s)[k] {
      assert P.TaskOk(setup, s.runs, s.attempts, k, s.pcs[k]);
      NeverCanceled(setup, s, k);
      SameReport(setup, k, FinalReports(s)[k], env);
      ReportUnique(setup.tasks[k], P.Limit(setup, k), env(k).script, reports[k], FinalReports(s)[k]);
    }
    assert reports == FinalReports(s);
  }

  lemma NeverCanceled(setup: P.Setup, s: P.State, k: nat)
    requires P.Inv(setup, s) && AllDone(s) && !s.parentDone && k < |s.pcs|
    requires forall k | 0 <= k < |setup.tasks| :: P.StrategyOf(setup, k) != FailFast
    ensures s.pcs[k].report.finalStatus != Canceled
  {
    assert P.HasReport(s.pcs[k]);
  }

  lemma SameReport(setup: P.Setup, k: nat, report: TaskReport, env: nat -> TaskEnv)
    requires k < |setup.tasks| && P.ReportOk(setup, k, report) && report.finalStatus != Canceled
        && env == Undisturbed(setup)
    ensures IsReport(setup.tasks[k], P.Limit(setup, k), env(k).script, report)
  {
    var a, b := P.ScriptOf(setup, k, report), env(k).script;
    assert forall n: nat :: a.result(n) == b.result(n) && a.canceled(n) == b.canceled(n);
  }
}
