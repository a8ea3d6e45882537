/** One scheduler's life with its worker pool as a step relation: recovery run synchronously before the
    pool starts, one watcher goroutine per job submitting closures, workers, and shutdown. */
module Pool {
  import opened Types

  /** Closures are numbered; each submission is a new number. */
  type Task = nat

  /** A watcher waits for a tick, has a closure to submit, is about to enter the submit select, is parked in it,
      runs the closure itself because it read that the pool is not started, or has left. */
  datatype Watcher =
    Idle | Handling(task: Task) | Sending(task: Task) | Parked(task: Task) | Inline(task: Task) | Exited

  datatype Worker = Free | Busy(task: Task) | Gone

  datatype Branch = Open | AllLeft | TimedOut

  datatype State = State(
    max: nat, serving: bool, recovering: Option<Task>, started: bool, stopping: bool,
    stopClosed: bool, queueClosed: bool, queue: seq<Task>, workers: seq<Worker>, watchers: seq<Watcher>,
    canceled: bool, branch: Branch, panicked: bool,
    submitted: seq<Task>, ran: seq<Task>, finished: seq<Task>, dropped: seq<Task>)

  /** A non-positive setting means ten workers. */
  function Workers(config: int): (max: nat)
    ensures max > 0 && (config > 0 ==> max == config) && (config <= 0 ==> max == 10)
  {
    if config <= 0 then 10 else config
  }

  /** What the watcher of one job does. */
  datatype WatcherAct = Trigger(task: Task) | ReadStarted | Park | Send | SendOnClosed | SeeStop | InlineDone | Leave

  /** What one pool worker does. */
  datatype WorkerAct = Take | Finish | Quit

  /** What the goroutine that starts the scheduler and shuts it down does. */
  datatype OwnerAct =
    Recover(task: Task) | RecoveryDone | Launch(jobs: nat) | Cancel | SeeAllLeft | SeeTimeout
    | CloseStop | CloseQueue | StopReturns

  datatype Step = Watch(w: nat, watcher: WatcherAct) | Work(k: nat, worker: WorkerAct) | Own(owner: OwnerAct)

  predicate Init(s: State, config: int) {
    s == State(Workers(config), false, None, false, false, false, false, [], [], [], false, Open, false, [], [], [], [])
  }

  /** Closing the stop channel releases a parked watcher to its stop case; one that enters the select later still
      chooses among the cases that are ready. */
  predicate MaySend(s: State, w: Watcher) {
    (w.Sending? && !s.queueClosed) || (w.Parked? && !s.stopClosed)
  }

  predicate WatcherCan(s: State, w: nat, act: WatcherAct) {
    w < |s.watchers| &&
    match act
    case Trigger(task) => s.watchers[w].Idle? && task !in s.submitted
    case ReadStarted => s.watchers[w].Handling? && !s.stopping
    case Park => s.watchers[w].Sending? && !s.stopClosed && !s.queueClosed && |s.queue| == 2 * s.max
    case Send => MaySend(s, s.watchers[w]) && |s.queue| < 2 * s.max
    case SendOnClosed => s.watchers[w].Sending? && s.queueClosed
    case SeeStop => (s.watchers[w].Sending? || s.watchers[w].Parked?) && s.stopClosed
    case InlineDone => s.watchers[w].Inline?
    case Leave => s.watchers[w].Idle? && s.canceled
  }

  function WatcherDoes(s: State, w: nat, act: WatcherAct): State
    requires WatcherCan(s, w, act)
  {
    match act
    case Trigger(task) => s.(watchers := s.watchers[w := Handling(task)], submitted := s.submitted + [task])
    case ReadStarted =>
      var task := s.watchers[w].task;
      if s.started then s.(watchers := s.watchers[w := Sending(task)])
      else s.(watchers := s.watchers[w := Inline(task)], ran := s.ran + [task])
    case Park => s.(watchers := s.watchers[w := Parked(s.watchers[w].task)])
    case Send => s.(watchers := s.watchers[w := Idle], queue := s.queue + [s.watchers[w].task])
    case SendOnClosed => s.(panicked := true)
    case SeeStop => s.(watchers := s.watchers[w := Idle], dropped := s.dropped + [s.watchers[w].task])
    case InlineDone => s.(watchers := s.watchers[w := Idle], finished := s.finished + [s.watchers[w].task])
    case Leave => s.(watchers := s.watchers[w := Exited])
  }

  predicate WorkerCan(s: State, k: nat, act: WorkerAct) {
    k < |s.workers| &&
    match act
    case Take => s.workers[k].Free? && s.queue != []
    case Finish => s.workers[k].Busy?
    case Quit => s.workers[k].Free? && (s.stopClosed || (s.queueClosed && s.queue == []))
  }

  function WorkerDoes(s: State, k: nat, act: WorkerAct): State
    requires WorkerCan(s, k, act)
  {
    match act
    case Take => s.(workers := s.workers[k := Busy(s.queue[0])], queue := s.queue[1..], ran := s.ran + [s.queue[0]])
    case Finish => s.(workers := s.workers[k := Free], finished := s.finished + [s.workers[k].task])
    case Quit => s.(workers := s.workers[k := Gone])
  }

  predicate OwnerCan(s: State, act: OwnerAct) {
    match act
    case Recover(task) => !s.serving && s.recovering.None? && task !in s.submitted
    case RecoveryDone => s.recovering.Some?
    case Launch(_) => !s.serving && s.recovering.None?
    case Cancel => s.serving && !s.canceled
    case SeeAllLeft => s.canceled && s.branch == Open && forall w | 0 <= w < |s.watchers| :: s.watchers[w].Exited?
    case SeeTimeout => s.canceled && s.branch == Open
    case CloseStop => s.branch != Open && s.started && !s.stopping
    case CloseQueue => s.stopping && !s.queueClosed
    case StopReturns => s.stopping && s.queueClosed && AllGone(s)
  }

  function OwnerDoes(s: State, act: OwnerAct): State
    requires OwnerCan(s, act)
  {
    match act
    case Recover(task) => s.(recovering := Some(task), submitted := s.submitted + [task], ran := s.ran + [task])
    case RecoveryDone => s.(recovering := None, finished := s.finished + [s.recovering.value])
    case Launch(jobs) => s.(serving := true, started := true, workers := seq(s.max, _ => Free),
      watchers := seq(jobs, _ => Idle))
    case Cancel => s.(canceled := true)
    case SeeAllLeft => s.(branch := AllLeft)
    case SeeTimeout => s.(branch := TimedOut)
    case CloseStop => s.(stopping := true, stopClosed := true)
    case CloseQueue => s.(queueClosed := true)
    case StopReturns => s.(stopping := false, started := false, dropped := s.dropped + s.queue, queue := [])
  }

  predicate Enabled(s: State, a: Step) {
    !s.panicked &&
    match a
    case Watch(w, act) => WatcherCan(s, w, act)
    case Work(k, act) => WorkerCan(s, k, act)
    case Own(act) => OwnerCan(s, act)
  }

  function Apply(s: State, a: Step): State
    requires Enabled(s, a)
  {
    match a
    case Watch(w, act) => WatcherDoes(s, w, act)
    case Work(k, act) => WorkerDoes(s, k, act)
    case Own(act) => OwnerDoes(s, act)
  }

  ghost predicate IsRun(config: int, states: seq<State>, steps: seq<Step>) {
    && |states| == |steps| + 1 && Init(states[0], config)
    && forall i | 0 <= i < |steps| :: Enabled(states[i], steps[i]) && states[i + 1] == Apply(states[i], steps[i])
  }

  // ----- Where closures are -----

  function OptionTask(t: Option<Task>): multiset<Task> { if t.Some? then multiset{t.value} else multiset{} }

  function Waiting(w: Watcher): multiset<Task> {
    if w.Handling? || w.Sending? || w.Parked? then multiset{w.task} else multiset{}
  }

  function RunningInline(w: Watcher): multiset<Task> { if w.Inline? then multiset{w.task} else multiset{} }

  function RunningOn(k: Worker): multiset<Task> { if k.Busy? then multiset{k.task} else multiset{} }

  function SumOver<T>(xs: seq<T>, f: T -> multiset<Task>): multiset<Task> {
    if xs == [] then multiset{} else SumOver(xs[..|xs| - 1], f) + f(xs[|xs| - 1])
  }

  function Submitting(s: State): multiset<Task> { SumOver(s.watchers, Waiting) }

  /** Everything executing now: recovery, workers, and watchers that run their closure themselves. */
  function Executing(s: State): multiset<Task> {
    OptionTask(s.recovering) + SumOver(s.workers, RunningOn) + SumOver(s.watchers, RunningInline)
  }

  lemma {:induction false} SumReplace<T>(xs: seq<T>, i: nat, x: T, f: T -> multiset<Task>)
    requires i < |xs|
    ensures SumOver(xs[i := x], f) + f(xs[i]) == SumOver(xs, f) + f(x)
  {
    var last, ys := |xs| - 1, xs[i := x];
    assert SumOver(ys, f) == SumOver(ys[..last], f) + f(ys[last]);
    assert SumOver(xs, f) == SumOver(xs[..last], f) + f(xs[last]);
    if i == last {
      assert ys[..last] == xs[..last];
    } else {
      SumReplace(xs[..last], i, x, f);
      assert ys[..last] == xs[..last][i := x];
      AddLast(SumOver(ys[..last], f), f(xs[i]), SumOver(xs[..last], f), f(x), f(xs[last]));
    }
  }

  lemma SumReplaceAt<T>(xs: seq<T>, i: nat, x: T, f: T -> multiset<Task>, t: Task)
    requires i < |xs|
    ensures SumOver(xs[i := x], f)[t] + f(xs[i])[t] == SumOver(xs, f)[t] + f(x)[t]
  {
    SumReplace(xs, i, x, f);
    assert (SumOver(xs[i := x], f) + f(xs[i]))[t] == (SumOver(xs, f) + f(x))[t];
  }

  lemma AddLast(a: multiset<Task>, b: multiset<Task>, c: multiset<Task>, d: multiset<Task>, e: multiset<Task>)
    requires a + b == c + d
    ensures (a + e) + b == (c + e) + d
  {
    assert (a + e) + b == (a + b) + e;
    assert (c + e) + d == (c + d) + e;
  }

  lemma {:induction false} SumOfNothing<T>(xs: seq<T>, f: T -> multiset<Task>)
    requires forall i | 0 <= i < |xs| :: f(xs[i]) == multiset{}
    ensures SumOver(xs, f) == multiset{}
  {
    if xs == [] {
    } else {
      SumOfNothing(xs[..|xs| - 1], f);
    }
  }

  lemma {:induction false} SumAtMostOneEach<T>(xs: seq<T>, f: T -> multiset<Task>)
    requires forall x :: |f(x)| <= 1
    ensures |SumOver(xs, f)| <= |xs|
  {
    if xs == [] {
    } else {
      SumAtMostOneEach(xs[..|xs| - 1], f);
    }
  }

  // ----- Invariants -----

  predicate NoDuplicates(xs: seq<Task>) { forall i, j | 0 <= i < j < |xs| :: xs[i] != xs[j] }

  /** Every submitted closure is in exactly one place. */
  ghost predicate Conserved(s: State) {
    && NoDuplicates(s.submitted)
    && forall t: Task :: BalancedAt(s, t)
  }

  predicate AllGone(s: State) { forall k | 0 <= k < |s.workers| :: s.workers[k].Gone? }

  ghost predicate PhasesOk(s: State) {
    && |s.queue| <= 2 * s.max && s.max > 0
    && (!s.serving ==> s.workers == [] && s.watchers == [] && !s.started && !s.canceled)
    && (s.serving ==> s.recovering.None? && |s.workers| == s.max)
    && (s.branch != Open ==> s.canceled)
    && (s.serving && (!s.started || s.stopping || s.stopClosed || s.queueClosed) ==> s.branch != Open)
    && (s.queueClosed ==> s.stopClosed) && (s.stopping ==> s.started && s.stopClosed)
    && (s.branch == AllLeft ==> forall w | 0 <= w < |s.watchers| :: s.watchers[w].Exited?)
    && (s.branch != TimedOut ==> !s.panicked && forall w | 0 <= w < |s.watchers| :: !s.watchers[w].Inline?)
    && (s.serving && !s.started ==> AllGone(s) && s.queueClosed && s.queue == [])
    && (forall w | 0 <= w < |s.watchers| && s.watchers[w].Inline? :: !s.started)
    && (!s.serving ==> !s.stopping && !s.stopClosed && !s.queueClosed && s.branch == Open)
  }

  lemma WatcherKeepsPhases(s: State, w: nat, act: WatcherAct)
    requires PhasesOk(s) && WatcherCan(s, w, act)
    ensures PhasesOk(WatcherDoes(s, w, act))
  {
  }

  lemma WorkerKeepsPhases(s: State, k: nat, act: WorkerAct)
    requires PhasesOk(s) && WorkerCan(s, k, act)
    ensures PhasesOk(WorkerDoes(s, k, act))
  {
  }

  lemma OwnerKeepsPhases(s: State, act: OwnerAct)
    requires PhasesOk(s) && !s.panicked && OwnerCan(s, act)
    ensures PhasesOk(OwnerDoes(s, act))
  {
  }

  lemma PhasesStep(s: State, a: Step)
    requires PhasesOk(s) && Enabled(s, a)
    ensures PhasesOk(Apply(s, a))
  {
    match a
    case Watch(w, act) => WatcherKeepsPhases(s, w, act);
    case Work(k, act) => WorkerKeepsPhases(s, k, act);
    case Own(act) => OwnerKeepsPhases(s, act);
  }

  /** A submitted closure is in exactly one of the five places; it has started exactly when it is executing
      or finished. */
  ghost predicate BalancedAt(s: State, t: Task) {
    && multiset(s.submitted)[t]
       == Submitting(s)[t] + multiset(s.queue)[t] + Executing(s)[t] + multiset(s.finished)[t] + multiset(s.dropped)[t]
    && multiset(s.ran)[t] == Executing(s)[t] + multiset(s.finished)[t]
  }

  lemma Appended(xs: seq<Task>, x: Task, t: Task)
    ensures multiset(xs + [x])[t] == multiset(xs)[t] + if x == t then 1 else 0
  {
  }

  lemma ExecutingAt(s: State, t: Task)
    ensures Executing(s)[t]
            == OptionTask(s.recovering)[t] + SumOver(s.workers, RunningOn)[t] + SumOver(s.watchers, RunningInline)[t]
  {
  }

  /** What a watcher held moves to what it holds as x. */
  lemma WatcherBecomes(s: State, s': State, w: nat, x: Watcher, t: Task)
    requires w < |s.watchers|
    requires s'.watchers == s.watchers[w := x] && s'.workers == s.workers && s'.recovering == s.recovering
    ensures Submitting(s')[t] + Waiting(s.watchers[w])[t] == Submitting(s)[t] + Waiting(x)[t]
    ensures Executing(s')[t] + RunningInline(s.watchers[w])[t] == Executing(s)[t] + RunningInline(x)[t]
  {
    SumReplaceAt(s.watchers, w, x, Waiting, t);
    SumReplaceAt(s.watchers, w, x, RunningInline, t);
    ExecutingAt(s, t);
    ExecutingAt(s', t);
  }

  lemma WorkerBecomes(s: State, s': State, k: nat, x: Worker, t: Task)
    requires k < |s.workers|
    requires s'.workers == s.workers[k := x] && s'.watchers == s.watchers && s'.recovering == s.recovering
    ensures Submitting(s')[t] == Submitting(s)[t]
    ensures Executing(s')[t] + RunningOn(s.workers[k])[t] == Executing(s)[t] + RunningOn(x)[t]
  {
    SumReplaceAt(s.workers, k, x, RunningOn, t);
    ExecutingAt(s, t);
    ExecutingAt(s', t);
  }

  lemma TriggerBalanced(s: State, w: nat, task: Task, t: Task)
    requires BalancedAt(s, t) && WatcherCan(s, w, Trigger(task))
    ensures BalancedAt(WatcherDoes(s, w, Trigger(task)), t)
  {
    WatcherBecomes(s, WatcherDoes(s, w, Trigger(task)), w, Handling(task), t);
    Appended(s.submitted, task, t);
  }

  lemma ReadStartedBalanced(s: State, w: nat, t: Task)
    requires BalancedAt(s, t) && WatcherCan(s, w, ReadStarted)
    ensures BalancedAt(WatcherDoes(s, w, ReadStarted), t)
  {
    var s', task := WatcherDoes(s, w, ReadStarted), s.watchers[w].task;
    WatcherBecomes(s, s', w, if s.started then Sending(task) else Inline(task), t);
    Appended(s.ran, task, t);
  }

  lemma ParkBalanced(s: State, w: nat, t: Task)
    requires BalancedAt(s, t) && WatcherCan(s, w, Park)
    ensures BalancedAt(WatcherDoes(s, w, Park), t)
  {
    WatcherBecomes(s, WatcherDoes(s, w, Park), w, Parked(s.watchers[w].task), t);
  }

  lemma SendBalanced(s: State, w: nat, t: Task)
    requires BalancedAt(s, t) && WatcherCan(s, w, Send)
    ensures BalancedAt(WatcherDoes(s, w, Send), t)
  {
    WatcherBecomes(s, WatcherDoes(s, w, Send), w, Idle, t);
    Appended(s.queue, s.watchers[w].task, t);
  }

  lemma SeeStopBalanced(s: State, w: nat, t: Task)
    requires BalancedAt(s, t) && WatcherCan(s, w, SeeStop)
    ensures BalancedAt(WatcherDoes(s, w, SeeStop), t)
  {
    WatcherBecomes(s, WatcherDoes(s, w, SeeStop), w, Idle, t);
    Appended(s.dropped, s.watchers[w].task, t);
  }

  lemma InlineDoneBalanced(s: State, w: nat, t: Task)
    requires BalancedAt(s, t) && WatcherCan(s, w, InlineDone)
    ensures BalancedAt(WatcherDoes(s, w, InlineDone), t)
  {
    WatcherBecomes(s, WatcherDoes(s, w, InlineDone), w, Idle, t);
    Appended(s.finished, s.watchers[w].task, t);
  }

  lemma LeaveBalanced(s: State, w: nat, t: Task)
    requires BalancedAt(s, t) && WatcherCan(s, w, Leave)
    ensures BalancedAt(WatcherDoes(s, w, Leave), t)
  {
    WatcherBecomes(s, WatcherDoes(s, w, Leave), w, Exited, t);
  }

  lemma WatcherKeepsBalance(s: State, w: nat, act: WatcherAct, t: Task)
    requires BalancedAt(s, t) && WatcherCan(s, w, act)
    ensures BalancedAt(WatcherDoes(s, w, act), t)
  {
    match act
    case Trigger(task) => TriggerBalanced(s, w, task, t);
    case ReadStarted => ReadStartedBalanced(s, w, t);
    case Park => ParkBalanced(s, w, t);
    case Send => SendBalanced(s, w, t);
    case SendOnClosed =>
    case SeeStop => SeeStopBalanced(s, w, t);
    case InlineDone => InlineDoneBalanced(s, w, t);
    case Leave => LeaveBalanced(s, w, t);
  }

  lemma TakeBalanced(s: State, k: nat, t: Task)
    requires BalancedAt(s, t) && WorkerCan(s, k, Take)
    ensures BalancedAt(WorkerDoes(s, k, Take), t)
  {
    WorkerBecomes(s, WorkerDoes(s, k, Take), k, Busy(s.queue[0]), t);
    assert s.queue == [s.queue[0]] + s.queue[1..];
    Appended(s.ran, s.queue[0], t);
  }

  lemma FinishBalanced(s: State, k: nat, t: Task)
    requires BalancedAt(s, t) && WorkerCan(s, k, Finish)
    ensures BalancedAt(WorkerDoes(s, k, Finish), t)
  {
    WorkerBecomes(s, WorkerDoes(s, k, Finish), k, Free, t);
    Appended(s.finished, s.workers[k].task, t);
  }

  lemma WorkerKeepsBalance(s: State, k: nat, act: WorkerAct, t: Task)
    requires BalancedAt(s, t) && WorkerCan(s, k, act)
    ensures BalancedAt(WorkerDoes(s, k, act), t)
  {
    match act
    case Take => TakeBalanced(s, k, t);
    case Finish => FinishBalanced(s, k, t);
    case Quit => WorkerBecomes(s, WorkerDoes(s, k, Quit), k, Gone, t);
  }

  lemma RecoverBalanced(s: State, task: Task, t: Task)
    requires BalancedAt(s, t) && OwnerCan(s, Recover(task))
    ensures BalancedAt(OwnerDoes(s, Recover(task)), t)
  {
    ExecutingAt(s, t);
    ExecutingAt(OwnerDoes(s, Recover(task)), t);
    Appended(s.submitted, task, t);
    Appended(s.ran, task, t);
  }

  lemma RecoveryDoneBalanced(s: State, t: Task)
    requires BalancedAt(s, t) && OwnerCan(s, RecoveryDone)
    ensures BalancedAt(OwnerDoes(s, RecoveryDone), t)
  {
    ExecutingAt(s, t);
    ExecutingAt(OwnerDoes(s, RecoveryDone), t);
    Appended(s.finished, s.recovering.value, t);
  }

  lemma LaunchBalanced(s: State, jobs: nat, t: Task)
    requires BalancedAt(s, t) && PhasesOk(s) && OwnerCan(s, Launch(jobs))
    ensures BalancedAt(OwnerDoes(s, Launch(jobs)), t)
  {
    NobodyYet(s);
    LaunchedHoldNothing(s, jobs);
    ExecutingAt(s, t);
    ExecutingAt(OwnerDoes(s, Launch(jobs)), t);
  }

  lemma LaunchedHoldNothing(s: State, jobs: nat)
    requires OwnerCan(s, Launch(jobs))
    ensures var s' := OwnerDoes(s, Launch(jobs));
            Submitting(s') == SumOver(s'.workers, RunningOn) == SumOver(s'.watchers, RunningInline) == multiset{}
  {
    var s' := OwnerDoes(s, Launch(jobs));
    SumOfNothing(s'.watchers, Waiting);
    SumOfNothing(s'.watchers, RunningInline);
    SumOfNothing(s'.workers, RunningOn);
  }

  lemma NobodyYet(s: State)
    requires s.workers == [] && s.watchers == []
    ensures Submitting(s) == SumOver(s.workers, RunningOn) == SumOver(s.watchers, RunningInline) == multiset{}
  {
  }

  lemma OwnerKeepsBalance(s: State, act: OwnerAct, t: Task)
    requires BalancedAt(s, t) && PhasesOk(s) && OwnerCan(s, act)
    ensures BalancedAt(OwnerDoes(s, act), t)
  {
    match act
    case Recover(task) => RecoverBalanced(s, task, t);
    case RecoveryDone => RecoveryDoneBalanced(s, t);
    case Launch(jobs) => LaunchBalanced(s, jobs, t);
    case _ =>
  }

  lemma BalancedStep(s: State, a: Step, t: Task)
    requires BalancedAt(s, t) && PhasesOk(s) && Enabled(s, a)
    ensures BalancedAt(Apply(s, a), t)
  {
    match a
    case Watch(w, act) => WatcherKeepsBalance(s, w, act, t);
    case Work(k, act) => WorkerKeepsBalance(s, k, act, t);
    case Own(act) => OwnerKeepsBalance(s, act, t);
  }

  /** The closure a step submits, if any. */
  function Submits(a: Step): Option<Task> {
    if a.Watch? && a.watcher.Trigger? then Some(a.watcher.task)
    else if a.Own? && a.owner.Recover? then Some(a.owner.task)
    else None
  }

  lemma WatcherSubmits(s: State, w: nat, act: WatcherAct)
    requires WatcherCan(s, w, act)
    ensures WatcherDoes(s, w, act).submitted == if act.Trigger? then s.submitted + [act.task] else s.submitted
  {
  }

  lemma OwnerSubmits(s: State, act: OwnerAct)
    requires OwnerCan(s, act)
    ensures OwnerDoes(s, act).submitted == if act.Recover? then s.submitted + [act.task] else s.submitted
  {
  }

  lemma SubmittedGrows(s: State, a: Step)
    requires Enabled(s, a)
    ensures match Submits(a) {
              case None => Apply(s, a).submitted == s.submitted
              case Some(t) => t !in s.submitted && Apply(s, a).submitted == s.submitted + [t]
            }
  {
    match a
    case Watch(w, act) => WatcherSubmits(s, w, act);
    case Work(k, act) => assert WorkerDoes(s, k, act).submitted == s.submitted;
    case Own(act) => OwnerSubmits(s, act);
  }

  lemma ConservedStep(s: State, a: Step)
    requires Conserved(s) && PhasesOk(s) && Enabled(s, a)
    ensures Conserved(Apply(s, a))
  {
    forall t: Task ensures BalancedAt(Apply(s, a), t) { BalancedStep(s, a, t); }
    SubmittedGrows(s, a);
  }

  lemma SameMax(s: State, a: Step)
    requires Enabled(s, a)
    ensures Apply(s, a).max == s.max
  {
    match a
    case Watch(w, act) => assert WatcherDoes(s, w, act).max == s.max;
    case Work(k, act) => assert WorkerDoes(s, k, act).max == s.max;
    case Own(act) => assert OwnerDoes(s, act).max == s.max;
  }

  ghost predicate Sound(s: State, config: int) { PhasesOk(s) && Conserved(s) && s.max == Workers(config) }

  lemma SoundStep(s: State, a: Step, config: int)
    requires Sound(s, config) && Enabled(s, a)
    ensures Sound(Apply(s, a), config)
  {
    PhasesStep(s, a);
    ConservedStep(s, a);
    SameMax(s, a);
  }

  lemma {:induction false} RunSound(config: int, states: seq<State>, steps: seq<Step>, i: nat)
    requires IsRun(config, states, steps) && i < |states|
    ensures Sound(states[i], config)
  {
    if i == 0 {
    } else {
      RunSound(config, states, steps, i - 1);
      assert Enabled(states[i - 1], steps[i - 1]);
      SoundStep(states[i - 1], steps[i - 1], config);
    }
  }

  lemma RunInv(config: int, states: seq<State>, steps: seq<Step>, i: nat)
    requires IsRun(config, states, steps) && i < |states|
    ensures PhasesOk(states[i]) && Conserved(states[i]) && states[i].max == Workers(config)
  {
    RunSound(config, states, steps, i);
  }

  // ----- Guarantees over every run -----

  lemma {:induction false} DistinctCounts(xs: seq<Task>, t: Task)
    requires NoDuplicates(xs)
    ensures multiset(xs)[t] <= 1
  {
    if xs == [] {
    } else {
      var last := |xs| - 1;
      DistinctCounts(xs[..last], t);
      assert xs == xs[..last] + [xs[last]];
      if xs[last] == t { assert t !in xs[..last]; }
    }
  }

  /** Submitted closures partition into waiting to be queued, queued, executing, finished and dropped: each
      one is in exactly one of the five, and the queue keeps within its buffer. */
  lemma ClosuresPartition(config: int, states: seq<State>, steps: seq<Step>, i: nat, t: Task)
    requires IsRun(config, states, steps) && i < |states|
    ensures var s := states[i];
            && |s.queue| <= 2 * Workers(config) && (s.serving && !s.started ==> s.queue == [])
            && (Submitting(s)[t] + multiset(s.queue)[t] + Executing(s)[t] + multiset(s.finished)[t]
              + multiset(s.dropped)[t]
                == if t in s.submitted then 1 else 0)
  {
    RunInv(config, states, steps, i);
    var s := states[i];
    DistinctCounts(s.submitted, t);
    assert BalancedAt(s, t);
    assert t in s.submitted <==> t in multiset(s.submitted);
  }

  /** No closure runs twice, wherever it runs. */
  lemma NoClosureRunsTwice(config: int, states: seq<State>, steps: seq<Step>, i: nat, t: Task)
    requires IsRun(config, states, steps) && i < |states|
    ensures multiset(states[i].ran)[t] <= 1
  {
    RunInv(config, states, steps, i);
    var s := states[i];
    DistinctCounts(s.submitted, t);
    assert BalancedAt(s, t);
  }

  /** Executions never exceed the worker limit, counting those that recovery runs itself before the pool starts,
      until Stop has returned after a timeout; from then on they never exceed the jobs' watchers. */
  lemma ConcurrencyBound(config: int, states: seq<State>, steps: seq<Step>, i: nat)
    requires IsRun(config, states, steps) && i < |states|
    ensures !states[i].serving || states[i].started ==> |Executing(states[i])| <= Workers(config)
    ensures states[i].branch != TimedOut ==> |Executing(states[i])| <= Workers(config)
    ensures states[i].serving && !states[i].started ==> |Executing(states[i])| <= |states[i].watchers|
  {
    RunInv(config, states, steps, i);
    var s := states[i];
    if !s.serving || s.started || s.branch != TimedOut { WorkersBound(s); }
    if s.serving && !s.started { WatchersBound(s); }
  }

  lemma WorkersBound(s: State)
    requires PhasesOk(s) && (!s.serving || s.started || s.branch != TimedOut)
    ensures |Executing(s)| <= s.max
  {
    SumOfNothing(s.watchers, RunningInline);
    SumAtMostOneEach(s.workers, RunningOn);
  }

  lemma WatchersBound(s: State)
    requires PhasesOk(s) && s.serving && !s.started
    ensures |Executing(s)| <= |s.watchers|
  {
    SumOfNothing(s.workers, RunningOn);
    SumAtMostOneEach(s.watchers, RunningInline);
  }

  /** If shutdown sees all watchers gone, nothing is ever sent on the closed queue. */
  lemma {:induction false} DoneBranchNeverPanics(config: int, states: seq<State>, steps: seq<Step>, i: nat)
    requires IsRun(config, states, steps) && i < |steps| && states[i].branch == AllLeft
    ensures !(steps[i].Watch? && steps[i].watcher.SendOnClosed?) && !states[i + 1].panicked
        && states[i + 1].branch == AllLeft
  {
    RunInv(config, states, steps, i);
    assert Enabled(states[i], steps[i]);
  }

  /** The panic is there exactly when a watcher is still in its submit select after the queue was closed, and
      that takes the timeout branch. */
  lemma PanicPossibleIff(config: int, states: seq<State>, steps: seq<Step>, i: nat)
    requires IsRun(config, states, steps) && i < |states| && !states[i].panicked
    ensures (exists w :: Enabled(states[i], Watch(w, SendOnClosed)))
            <==> states[i].queueClosed && exists w :: 0 <= w < |states[i].watchers| && states[i].watchers[w].Sending?
    ensures (exists w :: Enabled(states[i], Watch(w, SendOnClosed))) ==> states[i].branch == TimedOut
  {
    RunInv(config, states, steps, i);
    CanSendOnClosed(states[i]);
  }

  lemma CanSendOnClosed(s: State)
    requires PhasesOk(s) && !s.panicked
    ensures (exists w :: Enabled(s, Watch(w, SendOnClosed)))
            <==> s.queueClosed && exists w :: 0 <= w < |s.watchers| && s.watchers[w].Sending?
    ensures (exists w :: Enabled(s, Watch(w, SendOnClosed))) ==> s.branch == TimedOut
  {
    if w :| 0 <= w < |s.watchers| && s.watchers[w].Sending? && s.queueClosed {
      assert Enabled(s, Watch(w, SendOnClosed));
    }
  }

  // ----- Who has to wait -----

  lemma UnusedTask(tasks: seq<Task>) returns (t: Task)
    ensures forall x | x in tasks :: x < t
  {
    t := 0;
    for i := 0 to |tasks|
      invariant forall j | 0 <= j < i :: tasks[j] < t
    {
      if tasks[i] >= t { t := tasks[i] + 1; }
    }
  }

  /** A watcher cannot go on exactly when it has left, waits for Stop to return before it may read whether the pool is
      started, or is parked at a full queue whose pool is not being stopped. */
  lemma WatcherBlockedIff(s: State, w: nat)
    requires PhasesOk(s) && w < |s.watchers|
    ensures !(exists act :: WatcherCan(s, w, act))
            <==> s.watchers[w].Exited? || (s.watchers[w].Handling? && s.stopping)
                 || (s.watchers[w].Parked? && !s.stopClosed && |s.queue| == 2 * s.max)
  {
    match s.watchers[w]
    case Idle =>
      var t := UnusedTask(s.submitted);
      assert WatcherCan(s, w, Trigger(t));
    case Handling(_) => assert !s.stopping ==> WatcherCan(s, w, ReadStarted);
    case Sending(_) =>
      assert s.queueClosed ==> WatcherCan(s, w, SendOnClosed);
      assert !s.queueClosed && |s.queue| < 2 * s.max ==> WatcherCan(s, w, Send);
      assert s.stopClosed ==> WatcherCan(s, w, SeeStop);
      assert !s.stopClosed && !s.queueClosed && |s.queue| == 2 * s.max ==> WatcherCan(s, w, Park);
    case Parked(_) =>
      assert s.stopClosed ==> WatcherCan(s, w, SeeStop);
      assert !s.stopClosed && |s.queue| < 2 * s.max ==> WatcherCan(s, w, Send);
    case Inline(_) => assert WatcherCan(s, w, InlineDone);
    case Exited =>
  }

  /** A worker cannot go on exactly when it is gone, or free with nothing queued and no stop in sight. */
  lemma WorkerBlockedIff(s: State, k: nat)
    requires PhasesOk(s) && k < |s.workers|
    ensures !(exists act :: WorkerCan(s, k, act))
            <==> s.workers[k].Gone? || (s.workers[k].Free? && s.queue == [] && !s.stopClosed)
  {
    match s.workers[k]
    case Free =>
      assert s.queue != [] ==> WorkerCan(s, k, Take);
      assert s.stopClosed ==> WorkerCan(s, k, Quit);
    case Busy(_) => assert WorkerCan(s, k, Finish);
    case Gone =>
  }
}
