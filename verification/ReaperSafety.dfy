/** What the reaper may overwrite: nothing that a timely executor finishes, and anything an overdue one does. */
module ReaperSafety {
  import opened Types
  import opened Records
  import opened Protocol
  import opened ProtocolTheorems
  import opened ProtocolLimits

  predicate Executes(p: Proc, k: Key) { Executing(p) && KeyOf(p.local) == k }

  /** Every execution of the occurrence in progress is at most one hour old. */
  ghost predicate Timed(s: State, k: Key) {
    forall pid | pid in s.procs && Executes(s.procs[pid], k) && s.procs[pid].local.startTime.Some? ::
      s.now <= s.procs[pid].local.startTime.value + HOUR
  }

  ghost predicate TimedRun(states: seq<State>, k: Key) { forall i | 0 <= i < |states| :: Timed(states[i], k) }

  predicate Terminal(status: JobStatus) { status == Completed || status == Failed || status == FailedStale }

  /** The process is a reaper that still has this record to write. */
  predicate Lists(p: Proc, o: Occurrence) { p.Reaping? && o in p.todo }

  ghost predicate Unlisted(s: State, k: Key) {
    forall q, o | q in s.procs && Lists(s.procs[q], o) :: KeyOf(o) != k
  }

  ghost predicate ExecutionSafe(s: State, k: Key) {
    (k in s.store ==> !Terminal(s.store[k].status)) && Unlisted(s, k)
  }

  /** While the occurrence is executing, its record is not in a terminal status and no reaper holds it; and what a
      reaper still has to write was not finished by its executor. */
  ghost predicate Safe(s: State, k: Key) {
    && (forall pid | pid in s.procs && Executes(s.procs[pid], k) :: ExecutionSafe(s, k))
    && (k in s.store && (s.store[k].status == Completed || s.store[k].status == Failed) ==> Unlisted(s, k))
  }

  // ----- Where executions and listings come from -----

  lemma ExecutionComesFrom(gen: IdGen, s: State, a: Step, pid: nat, k: Key)
    requires Enabled(s, a) && pid in Apply(gen, s, a).procs && Executes(Apply(gen, s, a).procs[pid], k)
    ensures pid in s.procs && Holds(s.procs[pid]) && KeyOf(s.procs[pid].local) == k
    ensures Executing(s.procs[pid]) ==> s.procs[pid].local.startTime == Apply(gen, s, a).procs[pid].local.startTime
    ensures !Executing(s.procs[pid]) ==> a == Begin(pid)
  {
    if !Moves(a, pid) {
      OthersUnmoved(gen, s, a, pid);
    } else {
      assert !Local(a) || a.FinishTasks?;
    }
  }

  lemma ListingComesFrom(gen: IdGen, s: State, a: Step, q: nat, o: Occurrence)
    requires Enabled(s, a) && q in Apply(gen, s, a).procs && Lists(Apply(gen, s, a).procs[q], o)
    ensures (q in s.procs && Lists(s.procs[q], o)) || (a.ReapSnapshot? && a.pid == q && o in a.stale)
  {
    if !Moves(a, q) {
      OthersUnmoved(gen, s, a, q);
    } else {
      assert !Local(a) || a.ReapSnapshot?;
    }
  }

  lemma TokenIsUnlisted(gen: IdGen, s: State, pid: nat)
    requires Inv(gen, s) && pid in s.procs && (s.procs[pid].Won? || s.procs[pid].Queued? || s.procs[pid].Starting?)
    ensures ExecutionSafe(s, KeyOf(s.procs[pid].local)) && KeyOf(s.procs[pid].local) !in s.ran
  {
    var k := KeyOf(s.procs[pid].local);
    assert ProcOk(gen, s, s.procs[pid]);
    forall q, o | q in s.procs && Lists(s.procs[q], o) ensures KeyOf(o) != k { assert ProcOk(gen, s, s.procs[q]); }
  }

  /** A snapshot lists a live execution exactly when it is overdue. */
  lemma ListedIffOverdue(gen: IdGen, s: State, pid: nat, readNow: Time)
    requires Inv(gen, s) && pid in s.procs && Executing(s.procs[pid])
    requires s.store[KeyOf(s.procs[pid].local)].status == Running
    ensures IsStale(s.store[KeyOf(s.procs[pid].local)], readNow - HOUR)
            <==> s.procs[pid].local.startTime.value + HOUR < readNow
  {
    assert ProcOk(gen, s, s.procs[pid]);
  }

  // ----- Timely executions -----

  lemma TimelyUnlisted(gen: IdGen, s: State, a: Step, pid: nat, k: Key)
    requires Inv(gen, s) && Timed(s, k) && Safe(s, k) && Enabled(s, a)
    requires pid in Apply(gen, s, a).procs && Executes(Apply(gen, s, a).procs[pid], k)
    ensures Unlisted(Apply(gen, s, a), k)
  {
    var s' := Apply(gen, s, a);
    ExecutionComesFrom(gen, s, a, pid, k);
    if !Executing(s.procs[pid]) { TokenIsUnlisted(gen, s, pid); }
    forall q, o | q in s'.procs && Lists(s'.procs[q], o) ensures KeyOf(o) != k {
      ListingComesFrom(gen, s, a, q, o);
      if KeyOf(o) == k && a.ReapSnapshot? && o in a.stale { ListedIffOverdue(gen, s, pid, a.readNow); }
    }
  }

  /** The record of a live execution is not given a terminal status. */
  lemma LiveNotTerminal(gen: IdGen, s: State, a: Step, pid: nat, k: Key)
    requires Inv(gen, s) && Safe(s, k) && Enabled(s, a)
    requires pid in Apply(gen, s, a).procs && Executes(Apply(gen, s, a).procs[pid], k)
    ensures var store := Apply(gen, s, a).store; k in store ==> !Terminal(store[k].status)
  {
    ExecutionComesFrom(gen, s, a, pid, k);
    if !Writes(a) {
      OnlyWritesWrite(gen, s, a);
      if !Executing(s.procs[pid]) { TokenIsUnlisted(gen, s, pid); }
    } else {
      StoreAfterWrite(gen, s, a);
      if KeyOf(Written(s, a)) == k { LiveWrite(gen, s, a, pid, k); }
    }
  }

  lemma LiveWrite(gen: IdGen, s: State, a: Step, pid: nat, k: Key)
    requires Inv(gen, s) && Safe(s, k) && Enabled(s, a) && Writes(a) && KeyOf(Written(s, a)) == k
    requires pid in s.procs && Executes(s.procs[pid], k)
    requires pid in Apply(gen, s, a).procs && Executes(Apply(gen, s, a).procs[pid], k)
    ensures a.Create? || !Terminal(Written(s, a).status)
  {
    if a.WriteRunning? {
      assert ProcOk(gen, s, s.procs[a.pid]);
    } else if a.WriteFinal? {
      OneExecutor(gen, s, pid, a.pid, k);
    } else if a.ReapWrite? {
      ReaperHolds(s, a);
    }
  }

  lemma OneExecutor(gen: IdGen, s: State, p: nat, q: nat, k: Key)
    requires Inv(gen, s) && p in s.procs && q in s.procs && Executes(s.procs[p], k) && Executes(s.procs[q], k)
    ensures p == q
  {
  }

  /** A record that an executor finished is held by no reaper. */
  lemma FinishedUnlisted(gen: IdGen, s: State, a: Step, k: Key)
    requires Inv(gen, s) && Safe(s, k) && Enabled(s, a)
    requires var store := Apply(gen, s, a).store;
             k in store && (store[k].status == Completed || store[k].status == Failed)
    ensures Unlisted(Apply(gen, s, a), k)
  {
    var s' := Apply(gen, s, a);
    if !Writes(a) {
      OnlyWritesWrite(gen, s, a);
    } else {
      StoreAfterWrite(gen, s, a);
      if s'.store != s.store && KeyOf(Written(s, a)) == k { FinalWriteUnlisted(gen, s, a, k); }
    }
    forall q, o | q in s'.procs && Lists(s'.procs[q], o) ensures KeyOf(o) != k { ListingComesFrom(gen, s, a, q, o); }
  }

  lemma FinalWriteUnlisted(gen: IdGen, s: State, a: Step, k: Key)
    requires Inv(gen, s) && Safe(s, k) && Enabled(s, a) && Writes(a) && KeyOf(Written(s, a)) == k
    requires Written(s, a).status == Completed || Written(s, a).status == Failed
    ensures Unlisted(s, k)
  {
    var p := s.procs[a.pid];
    assert ProcOk(gen, s, p);
    if a.WriteFinal? { assert Executes(p, k); }
  }

  lemma SafeStep(gen: IdGen, s: State, a: Step, k: Key)
    requires Inv(gen, s) && Timed(s, k) && Safe(s, k) && Enabled(s, a)
    ensures Safe(Apply(gen, s, a), k)
  {
    var s' := Apply(gen, s, a);
    forall pid | pid in s'.procs && Executes(s'.procs[pid], k) ensures ExecutionSafe(s', k) {
      TimelyUnlisted(gen, s, a, pid, k);
      LiveNotTerminal(gen, s, a, pid, k);
    }
    if k in s'.store && (s'.store[k].status == Completed || s'.store[k].status == Failed) {
      FinishedUnlisted(gen, s, a, k);
    }
  }

  lemma {:induction false} RunSafe(gen: IdGen, states: seq<State>, steps: seq<Step>, i: nat, k: Key)
    requires IsRun(gen, states, steps) && TimedRun(states, k) && i < |states|
    ensures Safe(states[i], k)
  {
    if i == 0 {
    } else {
      RunSafe(gen, states, steps, i - 1, k);
      RunInv(gen, states, steps, i - 1);
      assert Timed(states[i - 1], k) && Enabled(states[i - 1], steps[i - 1]);
      SafeStep(gen, states[i - 1], steps[i - 1], k);
    }
  }

  /** If the executions of one occurrence make their last write within the hour, a reaper only ever marks it once it
      began executing and its executor is gone, and never when its executor finished it, however long other
      executions take. */
  lemma TimedReaperSafety(gen: IdGen, states: seq<State>, steps: seq<Step>, i: nat, k: Key)
    requires IsRun(gen, states, steps) && TimedRun(states, k) && i < |steps| && steps[i].ReapWrite?
    requires KeyOf(Written(states[i], steps[i])) == k
    ensures var s := states[i];
            && k in s.store && s.store[k].status != Completed && s.store[k].status != Failed
            && k in StartedKeys(s)
            && forall pid | pid in s.procs && Holds(s.procs[pid]) :: KeyOf(s.procs[pid].local) != k
  {
    var s := states[i];
    RunInv(gen, states, steps, i);
    RunSafe(gen, states, steps, i, k);
    assert Enabled(s, steps[i]);
    var p := s.procs[steps[i].pid];
    assert ProcOk(gen, s, p) && p.todo[0] in p.todo;
    ReaperHolds(s, steps[i]);
    forall pid | pid in s.procs && Holds(s.procs[pid]) ensures KeyOf(s.procs[pid].local) != k {
      if KeyOf(s.procs[pid].local) == k { HolderIsUnlisted(gen, s, pid, k); }
    }
  }

  lemma HolderIsUnlisted(gen: IdGen, s: State, pid: nat, k: Key)
    requires Inv(gen, s) && Safe(s, k) && pid in s.procs && Holds(s.procs[pid]) && KeyOf(s.procs[pid].local) == k
    ensures Unlisted(s, k)
  {
    if Executing(s.procs[pid]) { assert Executes(s.procs[pid], k); } else { TokenIsUnlisted(gen, s, pid); }
  }

  lemma TerminalStep(gen: IdGen, s: State, a: Step, k: Key)
    requires Inv(gen, s) && Timed(s, k) && Safe(s, k) && NoCancel(s, k.0) && Enabled(s, a)
    requires k in s.store && Terminal(s.store[k].status)
    ensures k in Apply(gen, s, a).store && Apply(gen, s, a).store[k].status == s.store[k].status
  {
    if !Writes(a) {
      OnlyWritesWrite(gen, s, a);
    } else {
      StoreAfterWrite(gen, s, a);
      if KeyOf(Written(s, a)) == k { TerminalWrite(gen, s, a, k); }
    }
  }

  lemma TerminalWrite(gen: IdGen, s: State, a: Step, k: Key)
    requires Inv(gen, s) && Safe(s, k) && NoCancel(s, k.0) && Enabled(s, a) && Writes(a)
    requires k in s.store && Terminal(s.store[k].status) && KeyOf(Written(s, a)) == k
    ensures Apply(gen, s, a).store == s.store || Written(s, a).status == s.store[k].status
  {
    var p := s.procs[a.pid];
    var live := Executes(p, k);
    if a.UpdateCancel? {
      CancelsOtherJobs(s, a, k.0);
    } else if a.ReapWrite? {
      ReaperHolds(s, a);
    }
  }

  lemma CancelsOtherJobs(s: State, a: Step, jobId: string)
    requires Enabled(s, a) && a.UpdateCancel? && NoCancel(s, jobId)
    ensures Written(s, a).jobId != jobId
  {
    var p := s.procs[a.pid];
    assert p.todo[0] in p.todo;
  }

  lemma ReaperHolds(s: State, a: Step)
    requires Enabled(s, a) && a.ReapWrite?
    ensures !Unlisted(s, KeyOf(Written(s, a)))
  {
    var p := s.procs[a.pid];
    var o := p.todo[0];
    assert Lists(p, o) && KeyOf(o) == KeyOf(Written(s, a));
  }

  /** For an occurrence with timely executions, of a job whose updates are atomic, a terminal status is final. */
  lemma {:induction false} TerminalIsFinal(gen: IdGen, states: seq<State>, steps: seq<Step>, i: nat, j: nat, k: Key)
    requires IsRun(gen, states, steps) && TimedRun(states, k) && AtomicRun(states, steps, k.0)
    requires i <= j < |states| && k in states[i].store && Terminal(states[i].store[k].status)
    ensures k in states[j].store && states[j].store[k].status == states[i].store[k].status
  {
    if i == j {
    } else {
      TerminalIsFinal(gen, states, steps, i, j - 1, k);
      TerminalNext(gen, states, steps, j - 1, k);
    }
  }

  lemma TerminalNext(gen: IdGen, states: seq<State>, steps: seq<Step>, i: nat, k: Key)
    requires IsRun(gen, states, steps) && TimedRun(states, k) && AtomicRun(states, steps, k.0)
    requires i < |steps| && k in states[i].store && Terminal(states[i].store[k].status)
    ensures k in states[i + 1].store && states[i + 1].store[k].status == states[i].store[k].status
  {
    RunInv(gen, states, steps, i);
    RunSafe(gen, states, steps, i, k);
    AtomicUpdatesNeverCancel(gen, states, steps, k.0, i);
    assert Timed(states[i], k) && Enabled(states[i], steps[i]);
    TerminalStep(gen, states[i], steps[i], k);
  }

  /** The store shows Running for such an occurrence between its executor's first and last write. */
  lemma StoreShowsLiveExecution(gen: IdGen, states: seq<State>, steps: seq<Step>, i: nat, pid: nat, k: Key)
    requires IsRun(gen, states, steps) && TimedRun(states, k) && AtomicRun(states, steps, k.0) && i < |states|
    requires pid in states[i].procs && (states[i].procs[pid].Working? || states[i].procs[pid].Finishing?)
    requires KeyOf(states[i].procs[pid].local) == k
    ensures k in states[i].store && states[i].store[k].status == Running
  {
    var s := states[i];
    RunInv(gen, states, steps, i);
    RunSafe(gen, states, steps, i, k);
    AtomicUpdatesNeverCancel(gen, states, steps, k.0, i);
    assert Executes(s.procs[pid], k) && ProcOk(gen, s, s.procs[pid]);
    assert Settled(s, k, s.store[k].status);
  }

  // ----- Overdue executions -----

  /** A reaper only holds the record of a live execution that is overdue. */
  ghost predicate ListedLate(s: State, k: Key) {
    forall pid, q, o
      | pid in s.procs && q in s.procs && Executes(s.procs[pid], k) && Lists(s.procs[q], o) && KeyOf(o) == k ::
      s.procs[pid].local.startTime.Some? && s.procs[pid].local.startTime.value + HOUR < s.now
  }

  lemma ListedLateStep(gen: IdGen, s: State, a: Step, k: Key)
    requires Inv(gen, s) && Enabled(s, a) && ListedLate(s, k)
    ensures ListedLate(Apply(gen, s, a), k)
  {
    var s' := Apply(gen, s, a);
    forall pid, q, o
      | pid in s'.procs && q in s'.procs && Executes(s'.procs[pid], k) && Lists(s'.procs[q], o) && KeyOf(o) == k
      ensures s'.procs[pid].local.startTime.Some? && s'.procs[pid].local.startTime.value + HOUR < s'.now
    {
      ListedLateAfter(gen, s, a, k, pid, q, o);
    }
  }

  lemma ListedLateAfter(gen: IdGen, s: State, a: Step, k: Key, pid: nat, q: nat, o: Occurrence)
    requires Inv(gen, s) && Enabled(s, a) && ListedLate(s, k)
    requires pid in Apply(gen, s, a).procs && Executes(Apply(gen, s, a).procs[pid], k)
    requires q in Apply(gen, s, a).procs && Lists(Apply(gen, s, a).procs[q], o) && KeyOf(o) == k
    ensures var p := Apply(gen, s, a).procs[pid];
            p.local.startTime.Some? && p.local.startTime.value + HOUR < Apply(gen, s, a).now
  {
    ExecutionComesFrom(gen, s, a, pid, k);
    ListingComesFrom(gen, s, a, q, o);
    TimeAdvances(gen, s, a);
    if !Executing(s.procs[pid]) {
      TokenIsUnlisted(gen, s, pid);
    } else if !(q in s.procs && Lists(s.procs[q], o)) {
      assert s.store[k] == o;
      assert ProcOk(gen, s, s.procs[pid]);
      ListedIffOverdue(gen, s, pid, a.readNow);
    }
  }

  lemma TimeAdvances(gen: IdGen, s: State, a: Step)
    requires Enabled(s, a)
    ensures s.now <= Apply(gen, s, a).now && (!a.Advance? ==> Apply(gen, s, a).now == s.now)
  {
  }

  lemma {:induction false} RunListedLate(gen: IdGen, states: seq<State>, steps: seq<Step>, i: nat, k: Key)
    requires IsRun(gen, states, steps) && i < |states|
    ensures ListedLate(states[i], k)
  {
    if i == 0 {
    } else {
      RunListedLate(gen, states, steps, i - 1, k);
      RunInv(gen, states, steps, i - 1);
      assert Enabled(states[i - 1], steps[i - 1]);
      ListedLateStep(gen, states[i - 1], steps[i - 1], k);
    }
  }

  predicate NoAdvance(steps: seq<Step>) { forall a | a in steps :: !a.Advance? }

  /** Without any time passing, the steps lead to a finished record of the occurrence that a reaper then marks. */
  ghost predicate Overwrites(gen: IdGen, s: State, k: Key, steps: seq<Step>, t: State, reap: Step) {
    && Leads(gen, s, steps, t) && NoAdvance(steps)
    && k in t.store && (t.store[k].status == Completed || t.store[k].status == Failed)
    && reap.ReapWrite? && Enabled(t, reap)
    && k in Apply(gen, t, reap).store && Apply(gen, t, reap).store[k].status == FailedStale
  }

  /** In every reachable state, an execution at work whose record shows Running can, without any time passing, be
      finished by its executor and then overwritten as stale exactly when it is more than an hour old. */
  lemma OverwritePossibleIff(gen: IdGen, states: seq<State>, steps: seq<Step>, i: nat, pid: nat)
    requires IsRun(gen, states, steps) && i < |states| && pid in states[i].procs && states[i].procs[pid].Working?
    requires var k := KeyOf(states[i].procs[pid].local); k in states[i].store && states[i].store[k].status == Running
    ensures states[i].procs[pid].local.startTime.Some?
    ensures var s, k := states[i], KeyOf(states[i].procs[pid].local);
            (exists more, t, reap :: Overwrites(gen, s, k, more, t, reap))
            <==> s.procs[pid].local.startTime.value + HOUR < s.now
  {
    var s := states[i];
    var k := KeyOf(s.procs[pid].local);
    RunInv(gen, states, steps, i);
    RunListedLate(gen, states, steps, i, k);
    assert ProcOk(gen, s, s.procs[pid]);
    if s.procs[pid].local.startTime.value + HOUR < s.now {
      var more, t, reap := OverdueIsOverwritten(gen, s, pid);
    } else if more, t, reap :| Overwrites(gen, s, k, more, t, reap) {
      TimelyIsKept(gen, s, pid, more, t, reap);
    }
  }

  // The half for timely executions: nothing on the way makes a reaper hold the record.

  /** The occurrence was begun, and whoever executes it started then. */
  ghost predicate StartedAt(s: State, k: Key, start: Time) {
    && k in StartedKeys(s)
    && forall pid | pid in s.procs && Executes(s.procs[pid], k) :: s.procs[pid].local.startTime == Some(start)
  }

  lemma StartedAtStep(gen: IdGen, s: State, a: Step, k: Key, start: Time)
    requires Inv(gen, s) && Enabled(s, a) && StartedAt(s, k, start)
    ensures StartedAt(Apply(gen, s, a), k, start)
  {
    var s' := Apply(gen, s, a);
    if a.Begin? { StartedGrows(s, s', s'.procs[a.pid].local); } else { assert s'.started == s.started; }
    forall pid | pid in s'.procs && Executes(s'.procs[pid], k) ensures s'.procs[pid].local.startTime == Some(start) {
      ExecutionComesFrom(gen, s, a, pid, k);
      assert ProcOk(gen, s, s.procs[pid]);
    }
  }

  lemma {:induction false} PathKeepsSafe(
    gen: IdGen, states: seq<State>, steps: seq<Step>, i: nat, k: Key, start: Time)
    requires IsPath(gen, states, steps) && Inv(gen, states[0]) && NoAdvance(steps) && i < |states|
    requires Safe(states[0], k) && StartedAt(states[0], k, start) && states[0].now <= start + HOUR
    ensures Safe(states[i], k) && StartedAt(states[i], k, start) && states[i].now == states[0].now
  {
    if i == 0 {
    } else {
      PathKeepsSafe(gen, states, steps, i - 1, k, start);
      PathInv(gen, states, steps, i - 1);
      PathStep(gen, states, steps, i - 1);
      var s, a := states[i - 1], steps[i - 1];
      assert a in steps && Timed(s, k);
      SafeStep(gen, s, a, k);
      StartedAtStep(gen, s, a, k, start);
      TimeAdvances(gen, s, a);
    }
  }

  lemma TimelyIsKept(gen: IdGen, s: State, pid: nat, steps: seq<Step>, t: State, reap: Step)
    requires Inv(gen, s) && pid in s.procs && s.procs[pid].Working? && s.procs[pid].local.startTime.Some?
    requires s.now <= s.procs[pid].local.startTime.value + HOUR && ListedLate(s, KeyOf(s.procs[pid].local))
    requires KeyOf(s.procs[pid].local) in s.store && s.store[KeyOf(s.procs[pid].local)].status == Running
    ensures !Overwrites(gen, s, KeyOf(s.procs[pid].local), steps, t, reap)
  {
    var k := KeyOf(s.procs[pid].local);
    var start := s.procs[pid].local.startTime.value;
    assert ProcOk(gen, s, s.procs[pid]) && Executes(s.procs[pid], k);
    if Overwrites(gen, s, k, steps, t, reap) {
      TimelyIsSafe(gen, s, pid, k);
      LeadKeepsSafe(gen, s, steps, t, k, start);
      ReaperWritesListed(gen, t, reap, k);
    }
  }

  lemma TimelyIsSafe(gen: IdGen, s: State, pid: nat, k: Key)
    requires Inv(gen, s) && pid in s.procs && Executes(s.procs[pid], k) && s.procs[pid].local.startTime.Some?
    requires s.now <= s.procs[pid].local.startTime.value + HOUR && ListedLate(s, k)
    requires k in s.store && s.store[k].status == Running
    ensures Safe(s, k) && StartedAt(s, k, s.procs[pid].local.startTime.value)
  {
    assert ProcOk(gen, s, s.procs[pid]);
    forall p | p in s.procs && Executes(s.procs[p], k) ensures p == pid { OneExecutor(gen, s, p, pid, k); }
  }

  lemma LeadKeepsSafe(gen: IdGen, s: State, steps: seq<Step>, t: State, k: Key, start: Time)
    requires Leads(gen, s, steps, t) && Inv(gen, s) && NoAdvance(steps)
    requires Safe(s, k) && StartedAt(s, k, start) && s.now <= start + HOUR
    ensures Safe(t, k)
  {
    var states :| IsPath(gen, states, steps) && states[0] == s && states[|steps|] == t;
    PathKeepsSafe(gen, states, steps, |steps|, k, start);
  }

  lemma ReaperWritesListed(gen: IdGen, s: State, a: Step, k: Key)
    requires a.ReapWrite? && Enabled(s, a) && k in s.store
    ensures Apply(gen, s, a).store[k] == s.store[k] || !Unlisted(s, k)
  {
    StoreAfterWrite(gen, s, a);
    ReaperHolds(s, a);
  }

  // The half for overdue executions: a reaper lists the record, the executor finishes, the reaper writes.

  lemma UnusedPid(ids: set<nat>) returns (n: nat)
    ensures forall x | x in ids :: x < n
  {
    if ids == {} {
      n := 0;
    } else {
      var x :| x in ids;
      var m := UnusedPid(ids - {x});
      n := if x < m then m else x + 1;
      assert forall y | y in ids :: y in ids - {x} || y == x;
    }
  }

  /** A listing of the stale records with these keys. */
  lemma ListingOf(store: map<Key, Occurrence>, cutoff: Time, keys: set<Key>) returns (stale: seq<Occurrence>)
    requires keys <= store.Keys && forall k | k in store :: KeyOf(store[k]) == k
    ensures forall o | o in stale :: KeyOf(o) in store && store[KeyOf(o)] == o && IsStale(o, cutoff)
    ensures forall k | k in keys && IsStale(store[k], cutoff) :: store[k] in stale
  {
    if keys == {} {
      stale := [];
    } else {
      var k :| k in keys;
      var rest := ListingOf(store, cutoff, keys - {k});
      stale := if IsStale(store[k], cutoff) then [store[k]] + rest else rest;
      assert forall o :: o in stale <==> o in rest || (o == store[k] && IsStale(o, cutoff));
    }
  }

  lemma ListingFrom(store: map<Key, Occurrence>, cutoff: Time, k: Key) returns (stale: seq<Occurrence>)
    requires k in store && IsStale(store[k], cutoff) && forall x | x in store :: KeyOf(store[x]) == x
    ensures ListsStale(store, cutoff, stale) && stale != [] && stale[0] == store[k]
  {
    var rest := ListingOf(store, cutoff, store.Keys);
    stale := [store[k]] + rest;
    assert forall o :: o in stale <==> o in rest || o == store[k];
  }

  lemma OverdueIsOverwritten(gen: IdGen, s: State, pid: nat) returns (steps: seq<Step>, t: State, reap: Step)
    requires Inv(gen, s) && pid in s.procs && s.procs[pid].Working? && s.procs[pid].local.startTime.Some?
    requires KeyOf(s.procs[pid].local) in s.store && s.store[KeyOf(s.procs[pid].local)].status == Running
    requires s.procs[pid].local.startTime.value + HOUR < s.now
    ensures Overwrites(gen, s, KeyOf(s.procs[pid].local), steps, t, reap)
  {
    var k := KeyOf(s.procs[pid].local);
    assert ProcOk(gen, s, s.procs[pid]);
    ListedIffOverdue(gen, s, pid, s.now);
    var snap, q, listed := ListsFirst(gen, s, k);
    var more;
    more, t := FinishesListed(gen, listed, pid, q, k);
    LeadsOn(gen, s, [snap], listed, more, t);
    steps, reap := [snap] + more, ReapWrite(q, true);
    ReapsAtLast(gen, s, k, steps, t, q);
  }

  lemma ReapsAtLast(gen: IdGen, s: State, k: Key, steps: seq<Step>, t: State, q: nat)
    requires Leads(gen, s, steps, t) && NoAdvance(steps) && k in t.store && t.store[k].status == Completed
    requires q in t.procs && t.procs[q].Reaping? && t.procs[q].todo != [] && KeyOf(t.procs[q].todo[0]) == k
    ensures Overwrites(gen, s, k, steps, t, ReapWrite(q, true))
  {
  }

  /** A new reaper lists the record first. */
  lemma ListsFirst(gen: IdGen, s: State, k: Key) returns (snap: Step, q: nat, listed: State)
    requires k in s.store && IsStale(s.store[k], s.now - HOUR) && forall x | x in s.store :: KeyOf(s.store[x]) == x
    ensures Leads(gen, s, [snap], listed) && !snap.Advance? && listed.store == s.store && q !in s.procs
    ensures q in listed.procs && listed.procs[q].Reaping? && listed.procs[q].todo != []
    ensures listed.procs[q].todo[0] == s.store[k]
    ensures forall p | p in s.procs :: p in listed.procs && listed.procs[p] == s.procs[p]
  {
    var stale := ListingFrom(s.store, s.now - HOUR, k);
    q := UnusedPid(s.procs.Keys);
    snap := ReapSnapshot(q, "", s.now, stale);
    listed := Apply(gen, s, snap);
    LeadsOne(gen, s, snap);
  }

  lemma FinishesListed(gen: IdGen, s: State, pid: nat, q: nat, k: Key) returns (steps: seq<Step>, t: State)
    requires pid in s.procs && s.procs[pid].Working? && KeyOf(s.procs[pid].local) == k && k in s.store
    requires q in s.procs && s.procs[q].Reaping? && s.procs[q].todo != [] && KeyOf(s.procs[q].todo[0]) == k
    ensures Leads(gen, s, steps, t) && NoAdvance(steps) && k in t.store && t.store[k].status == Completed
    ensures q in t.procs && t.procs[q] == s.procs[q]
  {
    var done := Apply(gen, s, FinishTasks(pid, false));
    t := Apply(gen, done, WriteFinal(pid, true));
    LeadsTwo(gen, s, FinishTasks(pid, false), done, WriteFinal(pid, true), t);
    steps := [FinishTasks(pid, false), WriteFinal(pid, true)];
  }
}
