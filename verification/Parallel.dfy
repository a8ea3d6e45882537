/** The parallel runner as a step relation: one goroutine per task, a shared report list under a mutex,
    a group context that a fail-fast failure cancels, and a parent context that may end at any time. */
module Parallel {
  import opened Types
  import opened Executor

  /** One execution: `result(i, n)` is what attempt `n` of task `i` returns, whenever it is made. */
  datatype Setup = Setup(occurrenceId: string, job: JobConfig, tasks: seq<Task>, result: (nat, nat) -> FnResult)

  /** Where one task's goroutine stands, and the attempts it has made. */
  datatype Pc =
    | Idle
    | Ready(made: seq<AttemptReport>)
    | InAttempt(made: seq<AttemptReport>)
    | Waiting(made: seq<AttemptReport>)
    | Concluding(report: TaskReport)
    | Reporting(report: TaskReport)
    | Reported(report: TaskReport)
    | Done(report: TaskReport)

  /** `order` is history: which task each entry of the report list came from. */
  datatype State = State(
    pcs: seq<Pc>, runs: map<RunKey, RunRecord>, attempts: map<AttemptKey, AttemptRecord>,
    reports: seq<TaskReport>, order: seq<nat>, groupCanceled: bool, parentDone: bool)

  datatype Step = Go(i: nat) | Timer(i: nat) | Interrupt(i: nat) | ParentEnds

  function RunOf(setup: Setup, i: nat): RunKey
    requires i < |setup.tasks|
  {
    (setup.occurrenceId, setup.tasks[i].id)
  }

  function Limit(setup: Setup, i: nat): int
    requires i < |setup.tasks|
  {
    PolicyOf(setup.job, setup.tasks[i]).maxRetries
  }

  /** The strategy a failed task is judged by in a parallel run. */
  function StrategyOf(setup: Setup, i: nat): FailureStrategy
    requires i < |setup.tasks|
  {
    StrategyFor(setup.job, setup.tasks[i])
  }

  ghost predicate Enabled(setup: Setup, s: State, a: Step)
    requires |s.pcs| == |setup.tasks|
  {
    match a
    case Go(i) => i < |s.pcs| && !s.pcs[i].Waiting? && !s.pcs[i].Done?
    case Timer(i) => i < |s.pcs| && s.pcs[i].Waiting?
    case Interrupt(i) => i < |s.pcs| && s.pcs[i].Waiting? && (s.groupCanceled || s.parentDone)
    case ParentEnds => true
  }

  function Conclude(setup: Setup, i: nat, made: seq<AttemptReport>, status: TaskStatus): Pc
    requires i < |setup.tasks|
  {
    Concluding(TaskReport(setup.tasks[i].id, setup.tasks[i].name, made, status))
  }

  /** The state of the task after its attempt returned. */
  function AfterAttempt(setup: Setup, i: nat, made: seq<AttemptReport>): Pc
    requires i < |setup.tasks| && made != []
  {
    if made[|made| - 1].status == Success then Conclude(setup, i, made, Success)
    else if |made| - 1 < Limit(setup, i) then Waiting(made)
    else Conclude(setup, i, made, Failed)
  }

  function Apply(setup: Setup, s: State, a: Step): State
    requires |s.pcs| == |setup.tasks|
    requires Enabled(setup, s, a)
  {
    match a
    case ParentEnds => s.(parentDone := true)
    case Timer(i) => s.(pcs := s.pcs[i := Ready(s.pcs[i].made)])
    case Interrupt(i) => s.(pcs := s.pcs[i := Conclude(setup, i, s.pcs[i].made, Canceled)])
    case Go(i) =>
      var run := RunOf(setup, i);
      match s.pcs[i]
      case Idle =>
        s.(pcs := s.pcs[i := Ready([])],
           runs := if run in s.runs then s.runs else s.runs[run := RunRecord(Pending, 0, "")])
      case Ready(made) =>
        var k := (run, |made|);
        s.(pcs := s.pcs[i := InAttempt(made)],
           attempts := if k in s.attempts then s.attempts else s.attempts[k := AttemptRecord(|made|, Running, "")])
      case InAttempt(made) =>
        var k, a := (run, |made|), ReportOf(|made|, setup.result(i, |made|));
        s.(pcs := s.pcs[i := AfterAttempt(setup, i, made + [a])],
           attempts := if k in s.attempts then s.attempts[k := RecordOf(a)] else s.attempts)
      case Concluding(report) =>
        s.(pcs := s.pcs[i := Reporting(report)],
           runs := if run in s.runs then s.runs[run := FinalRun(report)] else s.runs)
      case Reporting(report) =>
        s.(pcs := s.pcs[i := Reported(report)], reports := s.reports + [report], order := s.order + [i])
      case Reported(report) =>
        s.(pcs := s.pcs[i := Done(report)],
           groupCanceled := s.groupCanceled || (report.finalStatus == Failed && StrategyOf(setup, i) == FailFast))
      case Done(_) => s
      case Waiting(_) => s
  }

  /** Distinct task ids, and limits that let every retry loop make an attempt. */
  ghost predicate Runnable(setup: Setup) {
    DistinctIds(setup.tasks) && forall i | 0 <= i < |setup.tasks| :: Limit(setup, i) >= 0
  }

  /** A runnable setup, and no earlier records of the occurrence. */
  ghost predicate Init(setup: Setup, s: State) {
    && Runnable(setup)
    && s.pcs == seq(|setup.tasks|, _ => Idle)
    && (forall r | r in s.runs :: r.0 != setup.occurrenceId)
    && (forall k | k in s.attempts :: k.0.0 != setup.occurrenceId)
    && s.reports == [] && s.order == [] && !s.groupCanceled
  }

  // ----- The invariant -----

  /** The report ends the way the attempts and the interruption say. */
  function ScriptOf(setup: Setup, i: nat, report: TaskReport): Script {
    Script((n: nat) => setup.result(i, n), (n: nat) => report.finalStatus == Canceled && n + 1 == |report.attempts|)
  }

  ghost predicate ReportOk(setup: Setup, i: nat, report: TaskReport)
    requires i < |setup.tasks|
  {
    IsReport(setup.tasks[i], Limit(setup, i), ScriptOf(setup, i, report), report)
  }

  ghost predicate Tried(setup: Setup, i: nat, made: seq<AttemptReport>) {
    forall n | 0 <= n < |made| :: made[n] == ReportOf(n, setup.result(i, n)) && setup.result(i, n) != Nil
  }

  ghost predicate InFlight(attempts: map<AttemptKey, AttemptRecord>, run: RunKey, made: seq<AttemptReport>) {
    && (forall n: nat :: (run, n) in attempts <==> n <= |made|)
    && (forall n: nat | n < |made| ::
          var a := attempts[(run, n)];
          a.number == made[n].number && a.status == made[n].status && a.message == made[n].message)
    && attempts[(run, |made|)].number == |made| && attempts[(run, |made|)].status == Running
  }

  /** The run's record as it is until the task has ended. */
  ghost predicate PendingRun(runs: map<RunKey, RunRecord>, run: RunKey) {
    run in runs && runs[run].status == Pending && runs[run].retryCount == 0 && runs[run].message == ""
  }

  ghost predicate TaskOk(setup: Setup, runs: map<RunKey, RunRecord>, attempts: map<AttemptKey, AttemptRecord>, i: nat,
      pc: Pc)
    requires i < |setup.tasks|
  {
    var run := RunOf(setup, i);
    match pc
    case Idle => run !in runs && AttemptsAre(attempts, run, [])
    case Ready(made) => PendingRun(runs, run) && Tried(setup, i, made) && |made| <= Limit(setup, i)
      && AttemptsAre(attempts, run, made)
    case InAttempt(made) => PendingRun(runs, run) && Tried(setup, i, made) && |made| <= Limit(setup, i)
      && InFlight(attempts, run, made)
    case Waiting(made) =>
      PendingRun(runs, run) && Tried(setup, i, made) && 1 <= |made| <= Limit(setup, i)
      && AttemptsAre(attempts, run, made)
    case Concluding(report) =>
      PendingRun(runs, run) && ReportOk(setup, i, report) && AttemptsAre(attempts, run, report.attempts)
    case Reporting(report) => ReportOk(setup, i, report) && Audited(runs, attempts, run, report)
    case Reported(report) => ReportOk(setup, i, report) && Audited(runs, attempts, run, report)
    case Done(report) => ReportOk(setup, i, report) && Audited(runs, attempts, run, report)
  }

  predicate Listed(pc: Pc) { pc.Reported? || pc.Done? }

  predicate HasReport(pc: Pc) { pc.Concluding? || pc.Reporting? || pc.Reported? || pc.Done? }

  ghost predicate TasksOk(setup: Setup, s: State) {
    |s.pcs| == |setup.tasks| && forall i | 0 <= i < |s.pcs| :: TaskOk(setup, s.runs, s.attempts, i, s.pcs[i])
  }

  /** The report list holds the reports of exactly the tasks that have added theirs, once each. */
  ghost predicate ListOk(s: State) {
    && |s.order| == |s.reports|
    && (forall j | 0 <= j < |s.order| ::
         s.order[j] < |s.pcs| && Listed(s.pcs[s.order[j]]) && s.reports[j] == s.pcs[s.order[j]].report)
    && (forall j, k | 0 <= j < k < |s.order| :: s.order[j] != s.order[k])
    && (forall i | 0 <= i < |s.pcs| && Listed(s.pcs[i]) :: i in s.order)
  }

  ghost predicate FailedFast(setup: Setup, s: State, i: nat) {
    i < |s.pcs| && i < |setup.tasks| && s.pcs[i].Done? && s.pcs[i].report.finalStatus == Failed
      && StrategyOf(setup, i) == FailFast
  }

  /** The group is canceled exactly by a reported fail-fast failure, and tasks only by the group or the parent. */
  ghost predicate CancelOk(setup: Setup, s: State) {
    && (s.groupCanceled <==> exists i: nat :: FailedFast(setup, s, i))
    && (forall i | 0 <= i < |s.pcs| && HasReport(s.pcs[i]) && s.pcs[i].report.finalStatus == Canceled ::
          s.groupCanceled || s.parentDone)
  }

  ghost predicate Inv(setup: Setup, s: State) {
    Runnable(setup) && TasksOk(setup, s) && ListOk(s) && CancelOk(setup, s)
  }

  /** A task's records do not depend on writes under other runs. */
  lemma TaskFrame(setup: Setup, s: State, runs: map<RunKey, RunRecord>, attempts: map<AttemptKey, AttemptRecord>,
      i: nat, j: nat)
    requires Runnable(setup) && i < |setup.tasks| && j < |setup.tasks| && i != j && j < |s.pcs|
    requires TaskOk(setup, s.runs, s.attempts, j, s.pcs[j])
    requires forall r | r != RunOf(setup, i) :: (r in s.runs <==> r in runs) && (r in runs ==> runs[r] == s.runs[r])
    requires OthersKept(s.attempts, attempts, RunOf(setup, i))
    ensures TaskOk(setup, runs, attempts, j, s.pcs[j])
  {
    var r := RunOf(setup, j);
    assert r != RunOf(setup, i);
    assert forall n: nat :: (r, n).0 == r;
    assert forall n: nat :: (r, n) in s.attempts <==> (r, n) in attempts;
  }

  /** The task that moves keeps its own part of the invariant. */
  lemma TaskMoves(setup: Setup, s: State, a: Step)
    requires Inv(setup, s) && Enabled(setup, s, a) && !a.ParentEnds?
    ensures var s' := Apply(setup, s, a); TaskOk(setup, s'.runs, s'.attempts, a.i, s'.pcs[a.i])
  {
    var i := a.i;
    assert TaskOk(setup, s.runs, s.attempts, i, s.pcs[i]);
    if a.Go? {
      match s.pcs[i]
      case InAttempt(made) => AttemptReturns(setup, s, i);
      case Ready(made) => AttemptStarts(setup, s, i);
      case _ =>
    } else if a.Interrupt? {
      InterruptReport(setup, i, s.pcs[i].made);
    }
  }

  lemma InterruptReport(setup: Setup, i: nat, made: seq<AttemptReport>)
    requires i < |setup.tasks| && Tried(setup, i, made) && 1 <= |made| <= Limit(setup, i)
    ensures ReportOk(setup, i, Conclude(setup, i, made, Canceled).report)
  {
  }

  lemma AttemptStarts(setup: Setup, s: State, i: nat)
    requires Inv(setup, s) && i < |s.pcs| && s.pcs[i].Ready?
    ensures var s' := Apply(setup, s, Go(i)); TaskOk(setup, s'.runs, s'.attempts, i, s'.pcs[i])
  {
    assert TaskOk(setup, s.runs, s.attempts, i, s.pcs[i]);
    assert AttemptsAre(s.attempts, RunOf(setup, i), s.pcs[i].made);
  }

  lemma AttemptReturns(setup: Setup, s: State, i: nat)
    requires Inv(setup, s) && i < |s.pcs| && s.pcs[i].InAttempt?
    ensures var s' := Apply(setup, s, Go(i)); TaskOk(setup, s'.runs, s'.attempts, i, s'.pcs[i])
  {
    var made, run := s.pcs[i].made, RunOf(setup, i);
    assert TaskOk(setup, s.runs, s.attempts, i, s.pcs[i]);
    var r := ReportOf(|made|, setup.result(i, |made|));
    var attempts := s.attempts[(run, |made|) := RecordOf(r)];
    assert AttemptsAre(attempts, run, made + [r]);
    AttemptReport(setup, i, made);
  }

  lemma AttemptReport(setup: Setup, i: nat, made: seq<AttemptReport>)
    requires i < |setup.tasks| && Tried(setup, i, made) && |made| <= Limit(setup, i)
    ensures var all := made + [ReportOf(|made|, setup.result(i, |made|))];
            var pc := AfterAttempt(setup, i, all);
            && (pc.Concluding? ==>
                 ReportOk(setup, i, pc.report) && pc.report.attempts == all && pc.report.finalStatus != Canceled)
            && (pc.Waiting? ==> pc.made == all && Tried(setup, i, all) && 1 <= |all| <= Limit(setup, i))
            && (pc.Concluding? || pc.Waiting?)
  {
  }

  /** A step of a task changes that task's program counter and that task's records, and no others. */
  lemma PcFrame(setup: Setup, s: State, a: Step)
    requires |s.pcs| == |setup.tasks| && Enabled(setup, s, a) && !a.ParentEnds?
    ensures var s' := Apply(setup, s, a); |s'.pcs| == |s.pcs| && s'.pcs == s.pcs[a.i := s'.pcs[a.i]]
  {
  }

  lemma RunFrame(setup: Setup, s: State, a: Step)
    requires |s.pcs| == |setup.tasks| && Enabled(setup, s, a) && !a.ParentEnds?
    ensures var s' := Apply(setup, s, a);
            forall r | r != RunOf(setup, a.i) :: (r in s.runs <==> r in s'.runs)
              && (r in s'.runs ==> s'.runs[r] == s.runs[r])
  {
  }

  lemma AttemptFrame(setup: Setup, s: State, a: Step)
    requires |s.pcs| == |setup.tasks| && Enabled(setup, s, a) && !a.ParentEnds?
    ensures OthersKept(s.attempts, Apply(setup, s, a).attempts, RunOf(setup, a.i))
  {
  }

  lemma InvStep(setup: Setup, s: State, a: Step)
    requires Inv(setup, s) && Enabled(setup, s, a)
    ensures Inv(setup, Apply(setup, s, a))
  {
    if !a.ParentEnds? { TasksStep(setup, s, a); }
    ListStep(setup, s, a);
    CancelStep(setup, s, a);
  }

  lemma TasksStep(setup: Setup, s: State, a: Step)
    requires Inv(setup, s) && Enabled(setup, s, a) && !a.ParentEnds?
    ensures TasksOk(setup, Apply(setup, s, a))
  {
    var s' := Apply(setup, s, a);
    TaskMoves(setup, s, a);
    PcFrame(setup, s, a);
    RunFrame(setup, s, a);
    AttemptFrame(setup, s, a);
    forall j | 0 <= j < |s.pcs| && j != a.i ensures TaskOk(setup, s'.runs, s'.attempts, j, s'.pcs[j]) {
      TaskFrame(setup, s, s'.runs, s'.attempts, a.i, j);
    }
  }

  lemma ListStep(setup: Setup, s: State, a: Step)
    requires Inv(setup, s) && Enabled(setup, s, a)
    ensures ListOk(Apply(setup, s, a))
  {
    var s' := Apply(setup, s, a);
    if a.Go? && s.pcs[a.i].Reporting? {
      ListGrows(s, s', a.i);
    } else if !a.ParentEnds? {
      PcFrame(setup, s, a);
      ListUntouched(setup, s, a);
      ListStays(s, s', a.i);
    }
  }

  lemma ListUntouched(setup: Setup, s: State, a: Step)
    requires |s.pcs| == |setup.tasks| && Enabled(setup, s, a) && !a.ParentEnds?
    requires !(a.Go? && s.pcs[a.i].Reporting?)
    ensures var s' := Apply(setup, s, a);
            && s'.reports == s.reports && s'.order == s.order
            && (Listed(s.pcs[a.i]) <==> Listed(s'.pcs[a.i]))
            && (Listed(s.pcs[a.i]) ==> s'.pcs[a.i].report == s.pcs[a.i].report)
  {
  }

  lemma ListGrows(s: State, s': State, i: nat)
    requires ListOk(s) && i < |s.pcs| && s.pcs[i].Reporting?
    requires s'.pcs == s.pcs[i := Reported(s.pcs[i].report)]
    requires s'.reports == s.reports + [s.pcs[i].report] && s'.order == s.order + [i]
    ensures ListOk(s')
  {
    assert i !in s.order;
    forall j | 0 <= j < |s'.pcs| && Listed(s'.pcs[j]) ensures j in s'.order {
      if j != i { assert Listed(s.pcs[j]) && j in s.order; }
    }
  }

  lemma ListStays(s: State, s': State, i: nat)
    requires ListOk(s) && i < |s.pcs| && |s'.pcs| == |s.pcs| && s'.pcs == s.pcs[i := s'.pcs[i]]
    requires s'.reports == s.reports && s'.order == s.order
    requires Listed(s.pcs[i]) <==> Listed(s'.pcs[i])
    requires Listed(s.pcs[i]) ==> s'.pcs[i].report == s.pcs[i].report
    ensures ListOk(s')
  {
    forall j | 0 <= j < |s'.pcs| && Listed(s'.pcs[j]) ensures j in s'.order { assert Listed(s.pcs[j]); }
  }

  lemma CancelStep(setup: Setup, s: State, a: Step)
    requires Inv(setup, s) && Enabled(setup, s, a)
    ensures CancelOk(setup, Apply(setup, s, a))
  {
    var s' := Apply(setup, s, a);
    if s.groupCanceled {
      var i: nat :| FailedFast(setup, s, i);
      assert FailedFast(setup, s', i);
    } else if s'.groupCanceled {
      assert FailedFast(setup, s', a.i);
    }
    if i: nat :| FailedFast(setup, s', i) && !s.groupCanceled {
      NewlyFailedFast(setup, s, a, i);
    }
    if a.Go? && s.pcs[a.i].InAttempt? {
      assert TaskOk(setup, s.runs, s.attempts, a.i, s.pcs[a.i]);
      AttemptReport(setup, a.i, s.pcs[a.i].made);
    }
  }

  lemma NewlyFailedFast(setup: Setup, s: State, a: Step, i: nat)
    requires |s.pcs| == |setup.tasks| && Enabled(setup, s, a) && i < |s.pcs| && FailedFast(setup, Apply(setup, s, a), i)
    ensures FailedFast(setup, s, i) || Apply(setup, s, a).groupCanceled
  {
    if !a.ParentEnds? { PcFrame(setup, s, a); }
  }

  ghost predicate IsRun(setup: Setup, states: seq<State>, steps: seq<Step>) {
    && |states| == |steps| + 1 && Init(setup, states[0])
    && forall i | 0 <= i < |steps| ::
         && |states[i].pcs| == |setup.tasks| && Enabled(setup, states[i], steps[i])
         && states[i + 1] == Apply(setup, states[i], steps[i])
  }

  lemma {:induction false} RunInv(setup: Setup, states: seq<State>, steps: seq<Step>, i: nat)
    requires IsRun(setup, states, steps) && i < |states|
    ensures Inv(setup, states[i])
  {
    if i == 0 {
    } else {
      RunInv(setup, states, steps, i - 1);
      assert Enabled(setup, states[i - 1], steps[i - 1]);
      InvStep(setup, states[i - 1], steps[i - 1]);
    }
  }
}
