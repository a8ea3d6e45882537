/** What every run of the occurrence protocol guarantees, and where the guarantees stop. */
module ProtocolTheorems {
  import opened Types
  import opened Records
  import opened Protocol
  import UpdatePolicies

  lemma {:induction false} RunInv(gen: IdGen, states: seq<State>, steps: seq<Step>, i: nat)
    requires IsRun(gen, states, steps) && i < |states|
    ensures Inv(gen, states[i])
  {
    if i > 0 {
      RunInv(gen, states, steps, i - 1);
      assert Enabled(states[i - 1], steps[i - 1]);
      InvStep(gen, states[i - 1], steps[i - 1]);
    } else {
      assert StartedKeys(states[0]) == {};
    }
  }

  // ----- At most once, never early, fixed identity -----

  /** Whatever nodes tick, recover, crash and restart, and however ids are generated, no two
      executions ever begin for one job and one UTC second. */
  lemma AtMostOnce(gen: IdGen, states: seq<State>, steps: seq<Step>, i: nat, a: nat, b: nat)
    requires IsRun(gen, states, steps) && i < |states|
    requires a < b < |states[i].started|
    ensures var x, y := states[i].started[a], states[i].started[b];
            !(x.jobId == y.jobId && Second(x.scheduledTime) == Second(y.scheduledTime))
  {
    RunInv(gen, states, steps, i);
    var x, y := states[i].started[a], states[i].started[b];
    assert x in states[i].started && y in states[i].started;
    assert KeyOf(x) != KeyOf(y);
  }

  /** Every stored occurrence is due, and every execution that began was stored first. */
  lemma NeverEarly(gen: IdGen, states: seq<State>, steps: seq<Step>, i: nat)
    requires IsRun(gen, states, steps) && i < |states|
    ensures forall k | k in states[i].store :: states[i].store[k].scheduledTime <= states[i].now
    ensures forall o | o in states[i].started :: o.scheduledTime <= states[i].now && KeyOf(o) in states[i].store
  {
    RunInv(gen, states, steps, i);
  }

  lemma IdentityStep(gen: IdGen, s: State, a: Step)
    requires Inv(gen, s) && Enabled(s, a)
    ensures s.store.Keys <= Apply(gen, s, a).store.Keys
    ensures forall k | k in s.store :: SameIdentity(Apply(gen, s, a).store[k], s.store[k])
  {
    if !Writes(a) {
      OnlyWritesWrite(gen, s, a);
    } else {
      StoreAfterWrite(gen, s, a);
      WrittenMirrors(gen, s, a);
    }
  }

  /** What is written is new, or agrees with the stored record on everything fixed at creation. */
  lemma WrittenMirrors(gen: IdGen, s: State, a: Step)
    requires Inv(gen, s) && Enabled(s, a) && Writes(a)
    ensures Mirrors(s.store, Written(s, a)) || (a.Create? && Apply(gen, s, a).store == s.store)
        || KeyOf(Written(s, a)) !in s.store
  {
    var p := s.procs[a.pid];
    assert ProcOk(gen, s, p);
    if a.ReapWrite? || a.UpdateCancel? { assert p.todo[0] in p.todo; }
  }

  /** Records never disappear, and whole-record writes from executors and from stale reaper and update
      snapshots never change the fields fixed at creation. */
  lemma {:induction false} IdentityFixed(gen: IdGen, states: seq<State>, steps: seq<Step>, i: nat, j: nat, k: Key)
    requires IsRun(gen, states, steps) && i <= j < |states| && k in states[i].store
    ensures k in states[j].store && SameIdentity(states[j].store[k], states[i].store[k])
  {
    if i < j {
      IdentityFixed(gen, states, steps, i, j - 1, k);
      RunInv(gen, states, steps, j - 1);
      assert Enabled(states[j - 1], steps[j - 1]);
      IdentityStep(gen, states[j - 1], steps[j - 1]);
    }
  }

  // ----- What a crash loses -----

  /** A stored occurrence that never began, with nobody left who may begin it. */
  ghost predicate Orphaned(s: State, k: Key) {
    k in s.store && k !in StartedKeys(s) && forall pid | pid in s.procs && Holds(s.procs[pid]) ::
      KeyOf(s.procs[pid].local) != k
  }

  lemma OrphanStep(gen: IdGen, s: State, a: Step, k: Key)
    requires Inv(gen, s) && Enabled(s, a) && Orphaned(s, k)
    ensures Orphaned(Apply(gen, s, a), k)
  {
    var s' := Apply(gen, s, a);
    IdentityStep(gen, s, a);
    NoNewHolder(gen, s, a, k);
    if a.Begin? {
      StartedGrows(s, s', s'.procs[a.pid].local);
    } else {
      assert s'.started == s.started;
      assert StartedKeys(s') == StartedKeys(s);
    }
  }

  /** A stored key gains no holder. */
  lemma NoNewHolder(gen: IdGen, s: State, a: Step, k: Key)
    requires Enabled(s, a) && k in s.store && Inv(gen, s)
    requires forall pid | pid in s.procs && Holds(s.procs[pid]) :: KeyOf(s.procs[pid].local) != k
    ensures var s' := Apply(gen, s, a); forall pid | pid in s'.procs && Holds(s'.procs[pid]) ::
        KeyOf(s'.procs[pid].local) != k
  {
    var s' := Apply(gen, s, a);
    forall pid | pid in s'.procs && Holds(s'.procs[pid]) ensures KeyOf(s'.procs[pid].local) != k {
      HoldersComeFrom(gen, s, a, pid);
    }
  }

  /** A holder held the same key before the step, or just won the creation of an unstored one. */
  lemma HoldersComeFrom(gen: IdGen, s: State, a: Step, pid: nat)
    requires Enabled(s, a) && Inv(gen, s) && pid in Apply(gen, s, a).procs && Holds(Apply(gen, s, a).procs[pid])
    ensures pid in s.procs
    ensures var k := KeyOf(Apply(gen, s, a).procs[pid].local);
            (Holds(s.procs[pid]) && KeyOf(s.procs[pid].local) == k) || k !in s.store
  {
    if !Moves(a, pid) {
      OthersUnmoved(gen, s, a, pid);
    } else if a.Create? {
      assert ProcOk(gen, s, s.procs[pid]);
    } else {
      HolderMoves(gen, s, a, pid);
    }
  }

  lemma HolderMoves(gen: IdGen, s: State, a: Step, pid: nat)
    requires Enabled(s, a) && Moves(a, pid) && !a.Create?
    requires pid in Apply(gen, s, a).procs && Holds(Apply(gen, s, a).procs[pid])
    ensures pid in s.procs && Holds(s.procs[pid])
    ensures KeyOf(s.procs[pid].local) == KeyOf(Apply(gen, s, a).procs[pid].local)
  {
    assert !Local(a) || a.Enqueue? || a.FinishTasks?;
  }

  /** An occurrence whose creator crashed before beginning it is never executed: every later recovery pass or
      tick for that second loses to the stored record. */
  lemma {:induction false} OrphanNeverRuns(gen: IdGen, states: seq<State>, steps: seq<Step>, i: nat, j: nat, k: Key)
    requires IsRun(gen, states, steps) && i <= j < |states| && Orphaned(states[i], k)
    ensures Orphaned(states[j], k)
  {
    if i < j {
      OrphanNeverRuns(gen, states, steps, i, j - 1, k);
      RunInv(gen, states, steps, j - 1);
      assert Enabled(states[j - 1], steps[j - 1]);
      OrphanStep(gen, states[j - 1], steps[j - 1], k);
    }
  }

  /** A crash orphans exactly the stored, unbegun occurrences whose right to begin lay on the crashed node. */
  lemma CrashOrphans(gen: IdGen, s: State, node: string, pid: nat)
    requires Inv(gen, s) && pid in s.procs && (s.procs[pid].Won? || s.procs[pid].Queued?)
    ensures Orphaned(Apply(gen, s, Crash(node)), KeyOf(s.procs[pid].local)) <==> s.procs[pid].node == node
  {
    var s' := Apply(gen, s, Crash(node));
    assert StartedKeys(s') == StartedKeys(s);
    assert ProcOk(gen, s, s.procs[pid]);
    if s.procs[pid].node != node { assert pid in s'.procs && s'.procs[pid] == s.procs[pid]; }
  }

  /** A stored occurrence for which Running was never written and that nobody holds: never begun, or begun by an
      executor that stopped before its first write. */
  ghost predicate Lost(s: State, k: Key) {
    k in s.store && k !in s.ran && forall pid | pid in s.procs && Holds(s.procs[pid]) :: KeyOf(s.procs[pid].local) != k
  }

  lemma OrphansAreLost(gen: IdGen, s: State, k: Key)
    requires Inv(gen, s) && Orphaned(s, k)
    ensures Lost(s, k)
  {
  }

  lemma LostStep(gen: IdGen, s: State, a: Step, k: Key)
    requires Inv(gen, s) && Enabled(s, a) && Lost(s, k)
    ensures Lost(Apply(gen, s, a), k)
  {
    IdentityStep(gen, s, a);
    NoNewHolder(gen, s, a, k);
    OnlyHoldersRun(gen, s, a, k);
  }

  lemma OnlyHoldersRun(gen: IdGen, s: State, a: Step, k: Key)
    requires Enabled(s, a) && Lost(s, k)
    ensures k !in Apply(gen, s, a).ran
  {
    if a.WriteRunning? { assert Holds(s.procs[a.pid]); }
  }

  /** A lost occurrence stays so in every run: it keeps its first status, or the one an update's cancellation gives it,
      no reaper ever lists it, and nothing executes it. */
  lemma {:induction false} LostForever(gen: IdGen, states: seq<State>, steps: seq<Step>, i: nat, j: nat, k: Key)
    requires IsRun(gen, states, steps) && i <= j < |states| && Lost(states[i], k)
    ensures Lost(states[j], k)
    ensures states[j].store[k].status == Pending || states[j].store[k].status == JobStatus.Canceled
    ensures forall cutoff :: !IsStale(states[j].store[k], cutoff)
  {
    if i == j {
    } else {
      LostForever(gen, states, steps, i, j - 1, k);
      RunInv(gen, states, steps, j - 1);
      assert Enabled(states[j - 1], steps[j - 1]);
      LostStep(gen, states[j - 1], steps[j - 1], k);
    }
    RunInv(gen, states, steps, j);
    LostIsUntouched(gen, states[j], k);
  }

  lemma LostIsUntouched(gen: IdGen, s: State, k: Key)
    requires Inv(gen, s) && Lost(s, k)
    ensures Untouched(s.store[k].status)
  {
  }

  /** A crash loses exactly the occurrences that the crashed node held before its write of Running. */
  lemma CrashLoses(gen: IdGen, s: State, node: string, pid: nat)
    requires Inv(gen, s) && pid in s.procs && (s.procs[pid].Won? || s.procs[pid].Queued? || s.procs[pid].Starting?)
    ensures Lost(Apply(gen, s, Crash(node)), KeyOf(s.procs[pid].local)) <==> s.procs[pid].node == node
  {
    var s' := Apply(gen, s, Crash(node));
    assert ProcOk(gen, s, s.procs[pid]);
    if s.procs[pid].node != node { assert pid in s'.procs && s'.procs[pid] == s.procs[pid]; }
  }

  // ----- Schedule updates -----

  /** An update of the job reads its clock and lists the pending records, once or twice, at the same instant. */
  ghost predicate AtomicUpdate(s: State, a: Step, jobId: string) {
    && (a.UpdateSnapshot? && a.jobId == jobId ==> a.readNow == s.now)
    && (a.Relist? && a.pid in s.procs && s.procs[a.pid].Relisting? && s.procs[a.pid].jobId == jobId ==>
          s.procs[a.pid].readNow == s.now)
  }

  ghost predicate AtomicRun(states: seq<State>, steps: seq<Step>, jobId: string) {
    |states| == |steps| + 1 && forall i | 0 <= i < |steps| :: AtomicUpdate(states[i], steps[i], jobId)
  }

  /** What an update's listing selected under one clock reading: exactly the policy's set over the store, all of
      which fell due between that reading and the listing. */
  ghost predicate RaceOnly(s: State, how: UpdatePolicy, jobId: string, readNow: Time, todo: seq<Occurrence>) {
    && (set o | o in todo :: KeyOf(o)) == UpdatePolicies.CancelSet(how, s.store, jobId, readNow)
    && (forall o | o in todo :: readNow < o.scheduledTime <= s.now)
    && (readNow == s.now ==> todo == [])
  }

  lemma ListingSelectsOnlyTheRace(gen: IdGen, s: State, how: UpdatePolicy, jobId: string, readNow: Time,
                                  pending: seq<Occurrence>)
    requires Inv(gen, s) && UpdatePolicies.ListsPending(s.store, jobId, pending)
    ensures RaceOnly(s, how, jobId, readNow, UpdatePolicies.CancelList(how, pending, readNow))
  {
    UpdatePolicies.CancelListKeys(how, s.store, jobId, pending, readNow);
    var todo := UpdatePolicies.CancelList(how, pending, readNow);
    forall o | o in todo ensures readNow < o.scheduledTime <= s.now { assert o in pending; }
    if todo != [] { assert todo[0] in todo; }
  }

  /** An update selects exactly what its policy promises over the store it listed, and everything selected fell
      due after its clock reading. A graceful one lists again exactly when nothing lay ahead at its first. */
  lemma UpdateCancelsOnlyTheRace(gen: IdGen, s: State, a: Step)
    requires Inv(gen, s) && a.UpdateSnapshot? && Enabled(s, a)
    ensures var p := Apply(gen, s, a).procs[a.pid];
            && (p.Updating? || p == Relisting(a.node, a.jobId, a.readNow))
            && (p.Relisting? <==> a.how == Graceful && UpdatePolicies.PendingFuture(s.store, a.jobId, a.readNow) == {})
            && (p.Updating? ==> RaceOnly(s, a.how, a.jobId, a.readNow, p.todo))
  {
    ListingSelectsOnlyTheRace(gen, s, a.how, a.jobId, a.readNow, a.pending);
    var future := UpdatePolicies.PendingFuture(s.store, a.jobId, a.readNow);
    if i :| 0 <= i < |a.pending| && a.readNow < a.pending[i].scheduledTime { assert KeyOf(a.pending[i]) in future; }
    if k :| k in future {
      assert s.store[k] in a.pending;
      var i :| 0 <= i < |a.pending| && a.pending[i] == s.store[k];
    }
  }

  /** The second listing selects by the immediate policy, so a graceful update may cancel the earliest slot too. */
  lemma RelistCancelsOnlyTheRace(gen: IdGen, s: State, a: Step)
    requires Inv(gen, s) && a.Relist? && Enabled(s, a)
    ensures var p, q := s.procs[a.pid], Apply(gen, s, a).procs[a.pid];
            q.Updating? && RaceOnly(s, Immediate, p.jobId, p.readNow, q.todo)
  {
    ListingSelectsOnlyTheRace(gen, s, Immediate, s.procs[a.pid].jobId, s.procs[a.pid].readNow, a.pending);
  }

  /** No update is about to cancel a record of the job, and none of them is canceled. */
  ghost predicate NoCancel(s: State, jobId: string) {
    && (forall pid, o | pid in s.procs && s.procs[pid].Updating? && o in s.procs[pid].todo :: o.jobId != jobId)
    && (forall k | k in s.store && k.0 == jobId :: s.store[k].status != JobStatus.Canceled)
  }

  lemma NoCancelStep(gen: IdGen, s: State, a: Step, jobId: string)
    requires Inv(gen, s) && NoCancel(s, jobId) && Enabled(s, a) && AtomicUpdate(s, a, jobId)
    ensures NoCancel(Apply(gen, s, a), jobId)
  {
    NoCancelWritten(gen, s, a, jobId);
    var s' := Apply(gen, s, a);
    forall pid, o | pid in s'.procs && s'.procs[pid].Updating? && o in s'.procs[pid].todo ensures o.jobId != jobId {
      NothingListed(gen, s, a, jobId, pid, o);
    }
  }

  lemma NothingListed(gen: IdGen, s: State, a: Step, jobId: string, pid: nat, o: Occurrence)
    requires Inv(gen, s) && NoCancel(s, jobId) && Enabled(s, a) && AtomicUpdate(s, a, jobId)
    requires pid in Apply(gen, s, a).procs && Apply(gen, s, a).procs[pid].Updating?
    requires o in Apply(gen, s, a).procs[pid].todo
    ensures o.jobId != jobId
  {
    if !Moves(a, pid) {
      OthersUnmoved(gen, s, a, pid);
    } else if a.UpdateSnapshot? {
      UpdateCancelsOnlyTheRace(gen, s, a);
      assert o in a.pending;
    } else if a.Relist? {
      RelistCancelsOnlyTheRace(gen, s, a);
      assert o in a.pending;
    } else {
      assert a.UpdateCancel? && o in s.procs[pid].todo;
    }
  }

  lemma NoCancelWritten(gen: IdGen, s: State, a: Step, jobId: string)
    requires Inv(gen, s) && NoCancel(s, jobId) && Enabled(s, a)
    ensures var store := Apply(gen, s, a).store;
            forall k | k in store && k.0 == jobId :: store[k].status != JobStatus.Canceled
  {
    if !Writes(a) {
      OnlyWritesWrite(gen, s, a);
    } else {
      StoreAfterWrite(gen, s, a);
      WrittenNotCanceled(gen, s, a, jobId);
    }
  }

  lemma WrittenNotCanceled(gen: IdGen, s: State, a: Step, jobId: string)
    requires Inv(gen, s) && NoCancel(s, jobId) && Enabled(s, a) && Writes(a)
    ensures Written(s, a).jobId == jobId ==> Written(s, a).status != JobStatus.Canceled
  {
    var p := s.procs[a.pid];
    if a.UpdateCancel? { assert p.todo[0] in p.todo; } else { assert ProcOk(gen, s, p); }
  }

  /** When a job's updates read clock and records at one instant, no policy ever cancels an occurrence of it:
      nothing is pending in the future. */
  lemma {:induction false} AtomicUpdatesNeverCancel(
    gen: IdGen, states: seq<State>, steps: seq<Step>, jobId: string, i: nat)
    requires IsRun(gen, states, steps) && AtomicRun(states, steps, jobId) && i < |states|
    ensures NoCancel(states[i], jobId)
  {
    if i == 0 {
    } else {
      AtomicUpdatesNeverCancel(gen, states, steps, jobId, i - 1);
      RunInv(gen, states, steps, i - 1);
      assert Enabled(states[i - 1], steps[i - 1]) && AtomicUpdate(states[i - 1], steps[i - 1], jobId);
      NoCancelStep(gen, states[i - 1], steps[i - 1], jobId);
    }
  }

  /** So when that holds of every job, no step of any update ever writes the occurrence table. */
  lemma NoUpdateEverWrites(gen: IdGen, states: seq<State>, steps: seq<Step>, i: nat)
    requires IsRun(gen, states, steps) && i < |steps| && forall jobId :: AtomicRun(states, steps, jobId)
    ensures !steps[i].UpdateCancel?
  {
    var s, a := states[i], steps[i];
    assert Enabled(s, a);
    if a.UpdateCancel? {
      var o := s.procs[a.pid].todo[0];
      assert o in s.procs[a.pid].todo;
      AtomicUpdatesNeverCancel(gen, states, steps, o.jobId, i);
    }
  }

  // ----- Paths -----

  lemma PathStep(gen: IdGen, states: seq<State>, steps: seq<Step>, i: nat)
    requires IsPath(gen, states, steps) && i < |steps|
    ensures Enabled(states[i], steps[i]) && states[i + 1] == Apply(gen, states[i], steps[i])
  {
    assert Enabled(states[i], steps[i]);
  }

  lemma {:induction false} PathInv(gen: IdGen, states: seq<State>, steps: seq<Step>, i: nat)
    requires IsPath(gen, states, steps) && Inv(gen, states[0]) && i < |states|
    ensures Inv(gen, states[i])
  {
    if i == 0 {
    } else {
      PathInv(gen, states, steps, i - 1);
      PathStep(gen, states, steps, i - 1);
      InvStep(gen, states[i - 1], steps[i - 1]);
    }
  }
}
