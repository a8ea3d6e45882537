/** What the steps of the occurrence protocol leave behind, read off the records and over whole runs. */
module ProtocolLaws {
  import opened Types
  import opened Records
  import opened Protocol
  import opened ProtocolTheorems

  // ----- Where records come from -----

  /** The record of one of the first n steps: a tick's or a recovery pass's, for its job, version and time. */
  ghost predicate FromTrigger(steps: seq<Step>, n: nat, o: Occurrence)
    requires n <= |steps|
  {
    && o.scheduledTime <= o.createdAt
    && exists m | 0 <= m < n ::
         if o.isRecovery then
           && steps[m].Recover? && steps[m].jobId == o.jobId
           && steps[m].jobVersion == o.jobVersion && steps[m].at == o.scheduledTime
         else
           && steps[m].Tick? && steps[m].jobId == o.jobId
           && steps[m].jobVersion == o.jobVersion && steps[m].at == o.scheduledTime
  }

  ghost predicate TickedFrom(steps: seq<Step>, n: nat, p: Proc)
    requires n <= |steps| && p.Ticked?
  {
    exists m | 0 <= m < n ::
      && steps[m].Tick? && steps[m].jobId == p.jobId && steps[m].jobVersion == p.jobVersion && steps[m].at == p.at
      && steps[m].node == p.node && steps[m].overlap == p.overlap && steps[m].config == p.config
  }

  ghost predicate ProcFrom(steps: seq<Step>, n: nat, p: Proc)
    requires n <= |steps|
  {
    (p.Ticked? ==> TickedFrom(steps, n, p)) && (p.Creating? ==> FromTrigger(steps, n, p.stored))
  }

  ghost predicate AllFrom(steps: seq<Step>, n: nat, s: State)
    requires n <= |steps|
  {
    && (forall k | k in s.store :: FromTrigger(steps, n, s.store[k]))
    && (forall pid | pid in s.procs :: ProcFrom(steps, n, s.procs[pid]))
  }

  lemma LaterFromTrigger(steps: seq<Step>, m: nat, n: nat, o: Occurrence)
    requires m <= n <= |steps| && FromTrigger(steps, m, o)
    ensures FromTrigger(steps, n, o)
  {
  }

  lemma SameIdentityFrom(steps: seq<Step>, n: nat, o: Occurrence, other: Occurrence)
    requires n <= |steps| && FromTrigger(steps, n, o) && SameIdentity(o, other)
    ensures FromTrigger(steps, n, other)
  {
  }

  /** A check that passes turns the tick into the record to store, with owner and configuration, and the executor's
      copy, without. */
  lemma CheckMakesRecord(gen: IdGen, s: State, pid: nat)
    requires Enabled(s, CheckOverlap(pid)) && pid in Apply(gen, s, CheckOverlap(pid)).procs
    ensures var p, q := s.procs[pid], Apply(gen, s, CheckOverlap(pid)).procs[pid];
            && q.Creating? && q.node == p.node
            && q.stored.id == q.local.id == gen(p.jobId, Second(p.at))
            && q.stored.jobId == p.jobId && q.stored.jobVersion == p.jobVersion && q.stored.scheduledTime == p.at
            && q.stored.status == Pending && !q.stored.isRecovery && q.stored.createdAt == s.now
            && q.stored.owner == p.node && q.stored.config == Some(p.config)
            && SameIdentity(q.stored, q.local) && q.local.status == Pending
            && q.local.owner == "" && q.local.config.None?
  {
  }

  lemma ProcsFrom(gen: IdGen, s: State, steps: seq<Step>, n: nat, pid: nat)
    requires n < |steps| && Inv(gen, s) && AllFrom(steps, n, s) && Enabled(s, steps[n])
    requires pid in Apply(gen, s, steps[n]).procs
    ensures ProcFrom(steps, n + 1, Apply(gen, s, steps[n]).procs[pid])
  {
    var a, p := steps[n], Apply(gen, s, steps[n]).procs[pid];
    if !Moves(a, pid) {
      OthersUnmoved(gen, s, a, pid);
      assert ProcFrom(steps, n, p);
    } else if a.CheckOverlap? {
      CheckMakesRecord(gen, s, pid);
      assert ProcOk(gen, s, s.procs[pid]) && ProcFrom(steps, n, s.procs[pid]);
    } else {
      assert p.Ticked? ==> a.Tick?;
      assert p.Creating? ==> a.Recover?;
    }
  }

  lemma StoreFrom(gen: IdGen, s: State, steps: seq<Step>, n: nat, k: Key)
    requires n < |steps| && Inv(gen, s) && AllFrom(steps, n, s) && Enabled(s, steps[n])
    requires k in Apply(gen, s, steps[n]).store
    ensures FromTrigger(steps, n + 1, Apply(gen, s, steps[n]).store[k])
  {
    var a := steps[n];
    IdentityStep(gen, s, a);
    if k in s.store {
      SameIdentityFrom(steps, n, s.store[k], Apply(gen, s, a).store[k]);
      LaterFromTrigger(steps, n, n + 1, Apply(gen, s, a).store[k]);
    } else {
      NewRecordIsCreated(gen, s, a, k);
      assert ProcFrom(steps, n, s.procs[a.pid]);
    }
  }

  lemma NewRecordIsCreated(gen: IdGen, s: State, a: Step, k: Key)
    requires Inv(gen, s) && Enabled(s, a) && k in Apply(gen, s, a).store && k !in s.store
    ensures a.Create? && s.procs[a.pid].Creating? && Apply(gen, s, a).store[k] == s.procs[a.pid].stored
  {
    if !Writes(a) { OnlyWritesWrite(gen, s, a); }
  }

  /** In every run each stored record is that of a tick or a recovery pass that happened, with its job, version and
      scheduled time, created no earlier than it was due. */
  lemma {:induction false} RecordsComeFromTriggers(gen: IdGen, states: seq<State>, steps: seq<Step>, i: nat)
    requires IsRun(gen, states, steps) && i < |states|
    ensures AllFrom(steps, i, states[i])
  {
    if i == 0 {
    } else {
      RecordsComeFromTriggers(gen, states, steps, i - 1);
      RunInv(gen, states, steps, i - 1);
      assert Enabled(states[i - 1], steps[i - 1]);
      AllFromNext(gen, states[i - 1], steps, i - 1);
    }
  }

  lemma AllFromNext(gen: IdGen, s: State, steps: seq<Step>, n: nat)
    requires n < |steps| && Inv(gen, s) && AllFrom(steps, n, s) && Enabled(s, steps[n])
    ensures AllFrom(steps, n + 1, Apply(gen, s, steps[n]))
  {
    var s' := Apply(gen, s, steps[n]);
    forall k | k in s'.store ensures FromTrigger(steps, n + 1, s'.store[k]) { StoreFrom(gen, s, steps, n, k); }
    forall pid | pid in s'.procs ensures ProcFrom(steps, n + 1, s'.procs[pid]) { ProcsFrom(gen, s, steps, n, pid); }
  }

  // ----- What an execution stores -----

  lemma {:induction false} UnmovedBetween(gen: IdGen, states: seq<State>, steps: seq<Step>, i: nat, j: nat, pid: nat)
    requires IsRun(gen, states, steps) && i <= j < |states| && pid in states[j].procs
    requires forall m | i <= m < j :: !Moves(steps[m], pid)
    ensures pid in states[i].procs && states[i].procs[pid] == states[j].procs[pid]
  {
    if i == j {
    } else {
      assert Enabled(states[j - 1], steps[j - 1]);
      OthersUnmoved(gen, states[j - 1], steps[j - 1], pid);
      UnmovedBetween(gen, states, steps, i, j - 1, pid);
    }
  }

  /** Where one execution's own steps lie in a run, with no other step of its process between them. */
  ghost predicate Execution(steps: seq<Step>, pid: nat, b: nat, r: nat, f: nat, w: nat, failed: bool) {
    && b < r < f < w < |steps|
    && steps[b] == Begin(pid) && steps[r] == WriteRunning(pid, true)
    && steps[f] == FinishTasks(pid, failed) && steps[w] == WriteFinal(pid, true)
    && forall m | b < m < w && m != r && m != f :: !Moves(steps[m], pid)
  }

  /** In every run an execution first stores Running with the time it began, and last stores Failed or Completed, as its
      tasks ended, with both times; all on the record it held when it began. */
  lemma ExecutionStores(
    gen: IdGen, states: seq<State>, steps: seq<Step>, pid: nat, b: nat, r: nat, f: nat, w: nat, failed: bool)
    requires IsRun(gen, states, steps) && Execution(steps, pid, b, r, f, w, failed)
    ensures pid in states[b].procs && Holds(states[b].procs[pid])
    ensures var o := states[b].procs[pid].local;
            && KeyOf(o) in states[r + 1].store && KeyOf(o) in states[w + 1].store
            && states[r + 1].store[KeyOf(o)] == o.(status := Running, startTime := Some(states[b].now))
            && states[w + 1].store[KeyOf(o)].status == (if failed then Failed else Completed)
            && states[w + 1].store[KeyOf(o)].startTime == Some(states[b].now)
            && states[w + 1].store[KeyOf(o)].endTime == Some(states[f].now)
            && SameIdentity(states[w + 1].store[KeyOf(o)], o)
  {
    assert Enabled(states[f], steps[f]) && Enabled(states[w], steps[w]);
    UnmovedBetween(gen, states, steps, f + 1, w, pid);
    UnmovedBetween(gen, states, steps, r + 1, f, pid);
    FirstWrite(gen, states, steps, pid, b, r);
    RunInv(gen, states, steps, w);
    FinalWriteIs(gen, states[w], pid);
  }

  lemma FirstWrite(gen: IdGen, states: seq<State>, steps: seq<Step>, pid: nat, b: nat, r: nat)
    requires IsRun(gen, states, steps) && b < r < |steps|
    requires steps[b] == Begin(pid) && steps[r] == WriteRunning(pid, true)
    requires pid in states[r + 1].procs && forall m | b < m < r :: !Moves(steps[m], pid)
    ensures pid in states[b].procs && Holds(states[b].procs[pid])
    ensures var o := states[b].procs[pid].local;
            && states[r + 1].procs[pid].Working?
            && states[r + 1].procs[pid].local == o.(status := Running, startTime := Some(states[b].now))
            && KeyOf(o) in states[r + 1].store && states[r + 1].store[KeyOf(o)] == states[r + 1].procs[pid].local
  {
    assert Enabled(states[b], steps[b]) && Enabled(states[r], steps[r]);
    UnmovedBetween(gen, states, steps, b + 1, r, pid);
  }

  lemma FinalWriteIs(gen: IdGen, s: State, pid: nat)
    requires Inv(gen, s) && pid in s.procs && s.procs[pid].Finishing?
    ensures Enabled(s, WriteFinal(pid, true))
    ensures var o := s.procs[pid].local;
            KeyOf(o) in s.store && Apply(gen, s, WriteFinal(pid, true)).store == s.store[KeyOf(o) := o]
  {
    assert ProcOk(gen, s, s.procs[pid]);
  }

  // ----- Single steps -----

  /** A check drops its trigger exactly when the policy is Skip and some record of that very job shows Running. */
  lemma SkipDropsIff(gen: IdGen, s: State, pid: nat)
    requires Inv(gen, s) && Enabled(s, CheckOverlap(pid))
    ensures var s', p := Apply(gen, s, CheckOverlap(pid)), s.procs[pid];
            && s'.store == s.store
            && (pid !in s'.procs <==>
                  p.overlap == Skip && exists k :: k in s.store && k.0 == p.jobId && s.store[k].status == Running)
  {
  }

  /** Creation succeeds exactly when the key is new; the loser stops, and nothing else is written. */
  lemma CreateWinsIff(gen: IdGen, s: State, pid: nat)
    requires Enabled(s, Create(pid))
    ensures var s', p := Apply(gen, s, Create(pid)), s.procs[pid];
            && (pid in s'.procs <==> KeyOf(p.stored) !in s.store)
            && (pid in s'.procs ==>
                  s'.procs[pid] == Won(p.node, p.local) && s'.store == s.store[KeyOf(p.stored) := p.stored])
            && (pid !in s'.procs ==> s'.store == s.store)
  {
  }

  /** A crash takes exactly the node's processes, and no record. */
  lemma CrashTakes(gen: IdGen, s: State, node: string, pid: nat)
    ensures var s' := Apply(gen, s, Crash(node));
            && s'.store == s.store && s'.now == s.now
            && (pid in s'.procs <==> pid in s.procs && s.procs[pid].node != node)
            && (pid in s'.procs ==> s'.procs[pid] == s.procs[pid])
  {
  }

  /** A reaper marks the record it holds as stale at its own clock, and goes on to the next even if that write fails. */
  lemma ReaperMarks(gen: IdGen, s: State, pid: nat, ok: bool)
    requires Inv(gen, s) && Enabled(s, ReapWrite(pid, ok))
    ensures var s', p := Apply(gen, s, ReapWrite(pid, ok)), s.procs[pid];
            var k := KeyOf(p.todo[0]);
            && pid in s'.procs && s'.procs[pid].Reaping? && s'.procs[pid].todo == p.todo[1..]
            && k in s.store && k in s'.store
            && (ok ==> s'.store[k].status == FailedStale && s'.store[k].endTime == Some(s.now)
                       && s'.store[k].startTime == p.todo[0].startTime)
            && (!ok ==> s'.store == s.store)
  {
    assert ProcOk(gen, s, s.procs[pid]) && s.procs[pid].todo[0] in s.procs[pid].todo;
  }

  /** An update cancels the record it holds and goes on, but stops at the first write that fails. */
  lemma UpdateCancels(gen: IdGen, s: State, pid: nat, ok: bool)
    requires Inv(gen, s) && Enabled(s, UpdateCancel(pid, ok))
    ensures var s', p := Apply(gen, s, UpdateCancel(pid, ok)), s.procs[pid];
            var k := KeyOf(p.todo[0]);
            && (ok ==> pid in s'.procs && s'.procs[pid].Updating? && s'.procs[pid].todo == p.todo[1..]
                       && k in s'.store && s'.store[k] == p.todo[0].(status := JobStatus.Canceled))
            && (!ok ==> pid !in s'.procs && s'.store == s.store)
  {
    assert ProcOk(gen, s, s.procs[pid]) && s.procs[pid].todo[0] in s.procs[pid].todo;
  }

  /** An execution whose first write fails is over; one whose last write fails leaves its record as it was. */
  lemma FailingExecutorWrites(gen: IdGen, s: State, pid: nat)
    requires pid in s.procs
    ensures s.procs[pid].Starting? ==>
              var t := Apply(gen, s, WriteRunning(pid, false)); pid !in t.procs && t.store == s.store
    ensures s.procs[pid].Finishing? ==>
              var t := Apply(gen, s, WriteFinal(pid, false)); pid !in t.procs && t.store == s.store
  {
  }

  /** A won occurrence is begun from the worker pool's queue or right away, and either way with the same record. */
  lemma QueuedOrInline(gen: IdGen, s: State, pid: nat)
    requires pid in s.procs && s.procs[pid].Won?
    ensures Enabled(s, Enqueue(pid)) && Enabled(s, Begin(pid))
    ensures var t := Apply(gen, s, Enqueue(pid));
            && Enabled(t, Begin(pid)) && t.store == s.store && t.started == s.started
            && Apply(gen, t, Begin(pid)).procs[pid] == Apply(gen, s, Begin(pid)).procs[pid]
            && Apply(gen, t, Begin(pid)).started == Apply(gen, s, Begin(pid)).started
  {
  }
}
