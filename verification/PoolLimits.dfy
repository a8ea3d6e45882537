/** Shutdowns that time out: runs in which the pool's guarantees are lost. */
module PoolLimits {
  import opened Types
  import opened Pool

  /** The scheduler is launched with this many jobs. */
  predicate Launches(steps: seq<Step>, jobs: nat) {
    forall a | a in steps && a.Own? && a.owner.Launch? :: a.owner.jobs == jobs
  }

  /** A state of some run of a scheduler with these jobs. */
  ghost predicate Reaches(config: int, jobs: nat, s: State) {
    exists states, steps :: IsRun(config, states, steps) && Launches(steps, jobs) && states[|steps|] == s
  }

  lemma Reach(config: int, jobs: nat, s: State, a: Step, s': State)
    requires Reaches(config, jobs, s) && Enabled(s, a) && s' == Apply(s, a)
    requires a.Own? && a.owner.Launch? ==> a.owner.jobs == jobs
    ensures Reaches(config, jobs, s')
  {
    var states, steps :| IsRun(config, states, steps) && Launches(steps, jobs) && states[|steps|] == s;
    var longer, more := states + [s'], steps + [a];
    forall i | 0 <= i < |more| ensures Enabled(longer[i], more[i]) && longer[i + 1] == Apply(longer[i], more[i]) {
      if i < |steps| { assert Enabled(states[i], steps[i]); }
    }
    assert IsRun(config, longer, more) && Launches(more, jobs) && longer[|more|] == s';
  }

  // ----- Exactly when executions can exceed the limit -----

  ghost predicate OverLimitRun(config: int, jobs: nat, states: seq<State>, steps: seq<Step>, i: nat) {
    && IsRun(config, states, steps) && Launches(steps, jobs) && i < |states|
    && |Executing(states[i])| > Workers(config)
  }

  lemma {:induction false} WatchersAreJobs(config: int, jobs: nat, states: seq<State>, steps: seq<Step>, i: nat)
    requires IsRun(config, states, steps) && Launches(steps, jobs) && i < |states|
    ensures |states[i].watchers| <= jobs
  {
    if i == 0 {
    } else {
      WatchersAreJobs(config, jobs, states, steps, i - 1);
      assert Enabled(states[i - 1], steps[i - 1]) && steps[i - 1] in steps;
      WatchersKept(states[i - 1], steps[i - 1]);
    }
  }

  lemma WatchersKept(s: State, a: Step)
    requires Enabled(s, a)
    ensures |Apply(s, a).watchers| == if a.Own? && a.owner.Launch? then a.owner.jobs else |s.watchers|
  {
    match a
    case Watch(w, act) => SameWatchers(s, w, act);
    case Work(k, act) => assert WorkerDoes(s, k, act).watchers == s.watchers;
    case Own(act) => OwnerWatchers(s, act);
  }

  lemma SameWatchers(s: State, w: nat, act: WatcherAct)
    requires WatcherCan(s, w, act)
    ensures |WatcherDoes(s, w, act).watchers| == |s.watchers|
  {
    match act
    case Trigger(_) =>
    case ReadStarted =>
    case SendOnClosed =>
    case _ =>
  }

  lemma OwnerWatchers(s: State, act: OwnerAct)
    requires OwnerCan(s, act)
    ensures |OwnerDoes(s, act).watchers| == if act.Launch? then act.jobs else |s.watchers|
  {
  }

  /** Some run of a scheduler with these jobs executes more closures at once than there are workers exactly when
      there are more jobs than workers. */
  lemma OverLimitIff(config: int, jobs: nat)
    ensures (exists states, steps, i :: OverLimitRun(config, jobs, states, steps, i)) <==> jobs > Workers(config)
  {
    if states, steps, i :| OverLimitRun(config, jobs, states, steps, i) {
      ConcurrencyBound(config, states, steps, i);
      WatchersAreJobs(config, jobs, states, steps, i);
    }
    if jobs > Workers(config) {
      var s := AllInline(config, jobs);
      var states, steps :| IsRun(config, states, steps) && Launches(steps, jobs) && states[|steps|] == s;
      assert OverLimitRun(config, jobs, states, steps, |steps|);
    }
  }

  /** The first k of n hold x(i), the others y(i). */
  function Split<T>(n: nat, k: nat, x: nat -> T, y: nat -> T): seq<T> {
    seq(n, i requires 0 <= i => if i < k then x(i) else y(i))
  }

  lemma SplitNext<T>(n: nat, k: nat, x: nat -> T, y: nat -> T)
    requires k < n
    ensures Split(n, k, x, y)[k := x(k)] == Split(n, k + 1, x, y)
  {
  }

  function FirstTasks(k: nat): seq<Task> { seq(k, i requires 0 <= i => i) }

  const IDLE: nat -> Watcher := (i: nat) => Idle
  const HANDLING: nat -> Watcher := (i: nat) => Handling(i)
  const INLINE: nat -> Watcher := (i: nat) => Inline(i)
  const FREE: nat -> Worker := (i: nat) => Free
  const GONE: nat -> Worker := (i: nat) => Gone

  /** A serving scheduler of which k watchers got a tick. */
  function Ticked(max: nat, jobs: nat, k: nat): State {
    State(max, true, None, true, false, false, false, [], Split(max, 0, GONE, FREE), Split(jobs, k, HANDLING, IDLE),
          false, Open, false, FirstTasks(k), [], [], [])
  }

  lemma {:induction false} AllTicked(config: int, jobs: nat, k: nat)
    requires k <= jobs
    ensures Reaches(config, jobs, Ticked(Workers(config), jobs, k))
  {
    var max := Workers(config);
    if k == 0 {
      var s0 := State(max, false, None, false, false, false, false, [], [], [], false, Open, false, [], [], [], []);
      assert Init(s0, config) && IsRun(config, [s0], []) && Launches([], jobs);
      var s1 := Apply(s0, Own(Launch(jobs)));
      assert s1.workers == Split(max, 0, GONE, FREE) && s1.watchers == Split(jobs, 0, HANDLING, IDLE);
      assert Reaches(config, jobs, s0);
      Reach(config, jobs, s0, Own(Launch(jobs)), Ticked(max, jobs, 0));
    } else {
      AllTicked(config, jobs, k - 1);
      SplitNext(jobs, k - 1, HANDLING, IDLE);
      assert FirstTasks(k - 1) + [k - 1] == FirstTasks(k);
      Reach(config, jobs, Ticked(max, jobs, k - 1), Watch(k - 1, Trigger(k - 1)), Ticked(max, jobs, k));
    }
  }

  /** Shutdown timed out, both channels are closed, and k workers saw it. */
  function Stopping(max: nat, jobs: nat, k: nat): State {
    Ticked(max, jobs, jobs).(canceled := true, branch := TimedOut, stopping := true, stopClosed := true,
                             queueClosed := true, workers := Split(max, k, GONE, FREE))
  }

  lemma {:induction false} AllStopped(config: int, jobs: nat, k: nat)
    requires k <= Workers(config)
    ensures Reaches(config, jobs, Stopping(Workers(config), jobs, k))
  {
    var max := Workers(config);
    if k == 0 {
      AllTicked(config, jobs, jobs);
      var s := ClosedAround(config, jobs, Ticked(max, jobs, jobs));
    } else {
      AllStopped(config, jobs, k - 1);
      SplitNext(max, k - 1, GONE, FREE);
      Reach(config, jobs, Stopping(max, jobs, k - 1), Work(k - 1, Quit), Stopping(max, jobs, k));
    }
  }

  /** Stop returned, and k watchers run their closures themselves. */
  function Late(max: nat, jobs: nat, k: nat): State {
    Stopping(max, jobs, max).(stopping := false, started := false, watchers := Split(jobs, k, INLINE, HANDLING),
      ran := FirstTasks(k))
  }

  lemma {:induction false} LateReached(config: int, jobs: nat, k: nat)
    requires k <= jobs
    ensures Reaches(config, jobs, Late(Workers(config), jobs, k))
  {
    var max := Workers(config);
    if k == 0 {
      AllStopped(config, jobs, max);
      assert Split(jobs, jobs, HANDLING, IDLE) == Split(jobs, 0, INLINE, HANDLING);
      Reach(config, jobs, Stopping(max, jobs, max), Own(StopReturns), Late(max, jobs, 0));
    } else {
      LateReached(config, jobs, k - 1);
      SplitNext(jobs, k - 1, INLINE, HANDLING);
      assert FirstTasks(k - 1) + [k - 1] == FirstTasks(k);
      Reach(config, jobs, Late(max, jobs, k - 1), Watch(k - 1, ReadStarted), Late(max, jobs, k));
    }
  }

  /** Every watcher executes a closure at once. */
  lemma AllInline(config: int, jobs: nat) returns (s: State)
    ensures Reaches(config, jobs, s) && |Executing(s)| == jobs
  {
    LateReached(config, jobs, jobs);
    s := Late(Workers(config), jobs, jobs);
    SumOfNothing(s.workers, RunningOn);
    SumOfInline(s.watchers);
  }

  lemma {:induction false} SumOfInline(ws: seq<Watcher>)
    requires forall i | 0 <= i < |ws| :: ws[i].Inline?
    ensures |SumOver(ws, RunningInline)| == |ws|
  {
    if ws == [] {
    } else {
      SumOfInline(ws[..|ws| - 1]);
    }
  }

  // ----- Exactly when a send on the closed queue can panic -----

  /** One watcher read that the pool was started and is about to enter its submit select. */
  function AboutToSelect(max: nat, jobs: nat): State
    requires jobs > 0
  {
    var s := Ticked(max, jobs, 1);
    s.(watchers := s.watchers[0 := Sending(0)])
  }

  /** With any job at all, a shutdown that times out can close the queue before that watcher selects; the select may
      then pick the send, which panics. */
  lemma TimeoutCanPanic(config: int, jobs: nat) returns (s: State)
    requires jobs > 0
    ensures Reaches(config, jobs, s) && s.panicked && s.branch == TimedOut
  {
    var s0 := Ticked(Workers(config), jobs, 1);
    AllTicked(config, jobs, 1);
    var s1 := AboutToSelect(Workers(config), jobs);
    Reach(config, jobs, s0, Watch(0, ReadStarted), s1);
    var s2 := ClosedAround(config, jobs, s1);
    s := s2.(panicked := true);
    Reach(config, jobs, s2, Watch(0, SendOnClosed), s);
  }

  /** Shutdown times out and closes both channels, whatever the watchers do meanwhile. */
  lemma ClosedAround(config: int, jobs: nat, s: State) returns (t: State)
    requires Reaches(config, jobs, s) && s.serving && s.started && !s.canceled && s.branch == Open && !s.panicked
    requires !s.stopping && !s.queueClosed
    ensures Reaches(config, jobs, t)
    ensures t == s.(canceled := true, branch := TimedOut, stopping := true, stopClosed := true, queueClosed := true)
  {
    var s1 := s.(canceled := true);
    Reach(config, jobs, s, Own(Cancel), s1);
    var s2 := s1.(branch := TimedOut);
    Reach(config, jobs, s1, Own(SeeTimeout), s2);
    var s3 := s2.(stopping := true, stopClosed := true);
    Reach(config, jobs, s2, Own(CloseStop), s3);
    t := s3.(queueClosed := true);
    Reach(config, jobs, s3, Own(CloseQueue), t);
  }

  lemma {:induction false} NobodyToPanic(config: int, states: seq<State>, steps: seq<Step>, i: nat)
    requires IsRun(config, states, steps) && Launches(steps, 0) && i < |states|
    ensures !states[i].panicked
  {
    if i == 0 {
    } else {
      NobodyToPanic(config, states, steps, i - 1);
      WatchersAreJobs(config, 0, states, steps, i - 1);
      assert Enabled(states[i - 1], steps[i - 1]);
      PanicNeedsAWatcher(states[i - 1], steps[i - 1]);
    }
  }

  lemma PanicNeedsAWatcher(s: State, a: Step)
    requires Enabled(s, a) && s.watchers == []
    ensures Apply(s, a).panicked == s.panicked
  {
  }

  /** Some run of a scheduler panics on the closed queue exactly when it has a job. */
  lemma PanicIff(config: int, jobs: nat)
    ensures (exists s :: Reaches(config, jobs, s) && s.panicked) <==> jobs > 0
  {
    if jobs > 0 {
      var s := TimeoutCanPanic(config, jobs);
    } else if s :| Reaches(config, jobs, s) && s.panicked {
      var states, steps :| IsRun(config, states, steps) && Launches(steps, jobs) && states[|steps|] == s;
      NobodyToPanic(config, states, steps, |steps|);
    }
  }

  // ----- The bounds are reached -----

  /** A serving scheduler whose only busy part is its queue. */
  function Queued(max: nat, jobs: nat, n: nat): State {
    Ticked(max, jobs, 0).(queue := FirstTasks(n), submitted := FirstTasks(n))
  }

  lemma {:induction false} QueueFills(config: int, jobs: nat, n: nat)
    requires jobs > 0 && n <= 2 * Workers(config)
    ensures Reaches(config, jobs, Queued(Workers(config), jobs, n))
  {
    var max := Workers(config);
    if n == 0 {
      AllTicked(config, jobs, 0);
      assert Queued(max, jobs, 0) == Ticked(max, jobs, 0);
    } else {
      QueueFills(config, jobs, n - 1);
      var s := Queued(max, jobs, n - 1);
      var t: Task := n - 1;
      assert FirstTasks(n - 1) + [t] == FirstTasks(n);
      var s1 := s.(watchers := s.watchers[0 := Handling(t)], submitted := FirstTasks(n));
      Reach(config, jobs, s, Watch(0, Trigger(t)), s1);
      var s2 := s1.(watchers := s.watchers[0 := Sending(t)]);
      Reach(config, jobs, s1, Watch(0, ReadStarted), s2);
      assert s.watchers[0 := Sending(t)][0 := Idle] == s.watchers;
      Reach(config, jobs, s2, Watch(0, Send), Queued(max, jobs, n));
    }
  }

  /** The queue of a scheduler with jobs can hold n closures exactly when n is at most twice the workers. */
  lemma QueueHoldsIff(config: int, jobs: nat, n: nat)
    requires jobs > 0
    ensures (exists s :: Reaches(config, jobs, s) && |s.queue| == n) <==> n <= 2 * Workers(config)
  {
    if n <= 2 * Workers(config) {
      QueueFills(config, jobs, n);
      assert |Queued(Workers(config), jobs, n).queue| == n;
    }
    if s :| Reaches(config, jobs, s) && |s.queue| == n {
      var states, steps :| IsRun(config, states, steps) && Launches(steps, jobs) && states[|steps|] == s;
      RunInv(config, states, steps, |steps|);
    }
  }

  const BUSY: nat -> Worker := (i: nat) => Busy(i)

  /** The first k workers took the first k closures off a queue of as many as there are workers. */
  function Taken(max: nat, jobs: nat, k: nat): State
    requires k <= max
  {
    Queued(max, jobs, max).(queue := FirstTasks(max)[k..], workers := Split(max, k, BUSY, FREE), ran := FirstTasks(k))
  }

  lemma {:induction false} WorkersFill(config: int, jobs: nat, k: nat)
    requires jobs > 0 && k <= Workers(config)
    ensures Reaches(config, jobs, Taken(Workers(config), jobs, k))
  {
    var max := Workers(config);
    if k == 0 {
      QueueFills(config, jobs, max);
      assert Split(max, 0, BUSY, FREE) == Split(max, 0, GONE, FREE);
      assert FirstTasks(max)[0..] == FirstTasks(max);
      assert Taken(max, jobs, 0) == Queued(max, jobs, max);
    } else {
      WorkersFill(config, jobs, k - 1);
      SplitNext(max, k - 1, BUSY, FREE);
      assert FirstTasks(max)[k - 1..][0] == k - 1 && FirstTasks(max)[k - 1..][1..] == FirstTasks(max)[k..];
      assert FirstTasks(k - 1) + [k - 1] == FirstTasks(k);
      Reach(config, jobs, Taken(max, jobs, k - 1), Work(k - 1, Take), Taken(max, jobs, k));
    }
  }

  /** A running scheduler with any job can have every worker executing at once: its bound is reached. */
  lemma AllWorkersBusy(config: int, jobs: nat) returns (s: State)
    requires jobs > 0
    ensures Reaches(config, jobs, s) && s.started && |Executing(s)| == Workers(config)
  {
    var max := Workers(config);
    WorkersFill(config, jobs, max);
    s := Taken(max, jobs, max);
    SumOfBusy(s.workers);
    SumOfNothing(s.watchers, RunningInline);
  }

  lemma {:induction false} SumOfBusy(ws: seq<Worker>)
    requires forall i | 0 <= i < |ws| :: ws[i].Busy?
    ensures |SumOver(ws, RunningOn)| == |ws|
  {
    if ws == [] {
    } else {
      SumOfBusy(ws[..|ws| - 1]);
    }
  }

  // ----- A shutdown that waits -----

  const EXITED: nat -> Watcher := (i: nat) => Exited

  /** Shutdown canceled the context and k idle watchers have left. */
  function Leaving(max: nat, jobs: nat, k: nat): State {
    Ticked(max, jobs, 0).(canceled := true, watchers := Split(jobs, k, EXITED, IDLE))
  }

  lemma {:induction false} AllLeave(config: int, jobs: nat, k: nat)
    requires k <= jobs
    ensures Reaches(config, jobs, Leaving(Workers(config), jobs, k))
  {
    var max := Workers(config);
    if k == 0 {
      AllTicked(config, jobs, 0);
      assert Split(jobs, 0, EXITED, IDLE) == Split(jobs, 0, HANDLING, IDLE);
      Reach(config, jobs, Ticked(max, jobs, 0), Own(Cancel), Leaving(max, jobs, 0));
    } else {
      AllLeave(config, jobs, k - 1);
      SplitNext(jobs, k - 1, EXITED, IDLE);
      Reach(config, jobs, Leaving(max, jobs, k - 1), Watch(k - 1, Leave), Leaving(max, jobs, k));
    }
  }

  /** The channels are closed after all watchers left, and k workers saw it. */
  function Closing(max: nat, jobs: nat, k: nat): State {
    Leaving(max, jobs, jobs).(branch := AllLeft, stopping := true, stopClosed := true, queueClosed := true,
                              workers := Split(max, k, GONE, FREE))
  }

  lemma {:induction false} AllQuit(config: int, jobs: nat, k: nat)
    requires k <= Workers(config)
    ensures Reaches(config, jobs, Closing(Workers(config), jobs, k))
  {
    var max := Workers(config);
    if k == 0 {
      AllLeave(config, jobs, jobs);
      var s0 := Leaving(max, jobs, jobs);
      var s1 := s0.(branch := AllLeft);
      Reach(config, jobs, s0, Own(SeeAllLeft), s1);
      var s2 := s1.(stopping := true, stopClosed := true);
      Reach(config, jobs, s1, Own(CloseStop), s2);
      Reach(config, jobs, s2, Own(CloseQueue), Closing(max, jobs, 0));
    } else {
      AllQuit(config, jobs, k - 1);
      SplitNext(max, k - 1, GONE, FREE);
      Reach(config, jobs, Closing(max, jobs, k - 1), Work(k - 1, Quit), Closing(max, jobs, k));
    }
  }

  /** Every scheduler can shut down on the done branch: all watchers and workers gone, the pool stopped, nothing sent on
      the closed queue. */
  lemma GracefulShutdown(config: int, jobs: nat) returns (s: State)
    ensures Reaches(config, jobs, s) && s.branch == AllLeft && s.serving && !s.started && !s.panicked && AllGone(s)
    ensures |s.watchers| == jobs && forall w | 0 <= w < jobs :: s.watchers[w].Exited?
  {
    var max := Workers(config);
    AllQuit(config, jobs, max);
    var closed := Closing(max, jobs, max);
    s := closed.(stopping := false, started := false);
    assert closed.dropped + closed.queue == closed.dropped;
    Reach(config, jobs, closed, Own(StopReturns), s);
  }
}
