/** The owning node and the configuration snapshot of an occurrence: stored at creation, dropped by the executor's
    first write, and put back by a stale cancellation. */
module Snapshots {
  import opened Types
  import opened Records
  import opened Protocol
  import opened ProtocolTheorems
  import opened ProtocolLimits
  import UpdatePolicies

  /** Neither owner nor configuration. */
  predicate Bare(o: Occurrence) { o.owner == "" && o.config.None? }

  predicate SameSnapshot(o: Occurrence, c: Occurrence) { o.owner == c.owner && o.config == c.config }

  /** The status and origin say whether a record carries its snapshot. */
  predicate Carries(o: Occurrence) { !o.isRecovery && Untouched(o.status) }

  predicate RecordCarries(o: Occurrence) {
    (o.config.Some? <==> Carries(o)) && (!Carries(o) ==> o.owner == "")
  }

  ghost predicate ProcCarries(p: Proc) {
    match p
    case Creating(node, stored, local) =>
      && Bare(local) && RecordCarries(stored) && stored.status == Pending
      && (!stored.isRecovery ==> stored.owner == node)
    case Reaping(_, todo) => forall o | o in todo :: Bare(o)
    case Updating(_, todo) => forall o | o in todo :: o.status == Pending && RecordCarries(o)
    case _ => Holds(p) ==> Bare(p.local)
  }

  ghost predicate SnapshotInv(s: State) {
    && (forall k | k in s.store :: RecordCarries(s.store[k]))
    && (forall p | p in s.procs :: ProcCarries(s.procs[p]))
  }

  lemma WrittenCarries(gen: IdGen, s: State, a: Step)
    requires Inv(gen, s) && SnapshotInv(s) && Enabled(s, a) && Writes(a)
    ensures RecordCarries(Written(s, a))
  {
    var p := s.procs[a.pid];
    assert ProcOk(gen, s, p) && ProcCarries(p);
    if a.ReapWrite? || a.UpdateCancel? { assert p.todo[0] in p.todo; }
  }

  lemma ProcsCarry(gen: IdGen, s: State, a: Step, pid: nat)
    requires Inv(gen, s) && SnapshotInv(s) && Enabled(s, a) && pid in Apply(gen, s, a).procs
    ensures ProcCarries(Apply(gen, s, a).procs[pid])
  {
    if !Moves(a, pid) {
      OthersUnmoved(gen, s, a, pid);
      assert ProcCarries(s.procs[pid]);
    } else if Local(a) {
      LocalCarries(gen, s, a);
    } else {
      assert ProcCarries(s.procs[pid]);
    }
  }

  lemma LocalCarries(gen: IdGen, s: State, a: Step)
    requires Inv(gen, s) && SnapshotInv(s) && Enabled(s, a) && Local(a) && a.pid in Apply(gen, s, a).procs
    ensures ProcCarries(Apply(gen, s, a).procs[a.pid])
  {
    match a
    case CheckOverlap(pid) =>
    case Recover(pid, _, _, _, _) =>
    case Enqueue(pid) => assert ProcCarries(s.procs[pid]);
    case FinishTasks(pid, _) => assert ProcCarries(s.procs[pid]);
    case ReapSnapshot(pid, _, _, _) =>
    case UpdateSnapshot(pid, _, _, _, _, _) =>
    case _ =>
  }

  lemma SnapshotStep(gen: IdGen, s: State, a: Step)
    requires Inv(gen, s) && SnapshotInv(s) && Enabled(s, a)
    ensures SnapshotInv(Apply(gen, s, a))
  {
    if Writes(a) {
      WrittenCarries(gen, s, a);
      StoreAfterWrite(gen, s, a);
    } else {
      OnlyWritesWrite(gen, s, a);
    }
    forall p | p in Apply(gen, s, a).procs ensures ProcCarries(Apply(gen, s, a).procs[p]) { ProcsCarry(gen, s, a, p); }
  }

  /** In every run, a stored record has a configuration snapshot exactly when a tick created it and it is still
      Pending or Canceled; every other record has neither snapshot nor owner. */
  lemma {:induction false} SnapshotIff(gen: IdGen, states: seq<State>, steps: seq<Step>, i: nat)
    requires IsRun(gen, states, steps) && i < |states|
    ensures SnapshotInv(states[i])
    ensures forall k | k in states[i].store ::
              var o := states[i].store[k];
              (o.config.Some? <==> !o.isRecovery && Untouched(o.status))
              && (o.isRecovery || !Untouched(o.status) ==> o.owner == "")
  {
    if i == 0 {
    } else {
      SnapshotIff(gen, states, steps, i - 1);
      RunInv(gen, states, steps, i - 1);
      assert Enabled(states[i - 1], steps[i - 1]);
      SnapshotStep(gen, states[i - 1], steps[i - 1]);
    }
  }

  // ----- Owner and snapshot against those of the creation -----

  /** The record and every in-flight cancellation of it show the snapshot it was created with, as long as it is
      untouched. */
  ghost predicate Traced(s: State, k: Key, created: Occurrence) {
    && k in s.store
    && (if Untouched(s.store[k].status) then SameSnapshot(s.store[k], created) else Bare(s.store[k]))
    && forall p, o | p in s.procs && s.procs[p].Updating? && o in s.procs[p].todo && KeyOf(o) == k ::
      SameSnapshot(o, created)
  }

  lemma TracedCancels(gen: IdGen, s: State, a: Step, k: Key, created: Occurrence, pid: nat, o: Occurrence)
    requires Inv(gen, s) && Enabled(s, a) && Traced(s, k, created)
    requires pid in Apply(gen, s, a).procs && Apply(gen, s, a).procs[pid].Updating?
    requires o in Apply(gen, s, a).procs[pid].todo && KeyOf(o) == k
    ensures SameSnapshot(o, created)
  {
    if !Moves(a, pid) {
      OthersUnmoved(gen, s, a, pid);
    } else if a.UpdateCancel? {
      assert o in s.procs[pid].todo;
    } else {
      CancelsAreListed(gen, s, a, pid);
      assert o in a.pending && s.store[k] == o;
    }
  }

  lemma CancelsAreListed(gen: IdGen, s: State, a: Step, pid: nat)
    requires Enabled(s, a) && Moves(a, pid) && !a.UpdateCancel?
    requires pid in Apply(gen, s, a).procs && Apply(gen, s, a).procs[pid].Updating?
    ensures a.UpdateSnapshot? || a.Relist?
    ensures forall o | o in Apply(gen, s, a).procs[pid].todo :: o in a.pending
  {
  }

  lemma TracedRecord(gen: IdGen, s: State, a: Step, k: Key, created: Occurrence)
    requires Inv(gen, s) && SnapshotInv(s) && Enabled(s, a) && Traced(s, k, created)
    ensures var store := Apply(gen, s, a).store;
            k in store && if Untouched(store[k].status) then SameSnapshot(store[k], created) else Bare(store[k])
  {
    if Writes(a) {
      WrittenIsTraced(gen, s, a, k, created);
      StoreAfterWrite(gen, s, a);
    } else {
      OnlyWritesWrite(gen, s, a);
    }
  }

  lemma WrittenIsTraced(gen: IdGen, s: State, a: Step, k: Key, created: Occurrence)
    requires Inv(gen, s) && SnapshotInv(s) && Enabled(s, a) && Writes(a) && Traced(s, k, created)
    ensures var o := Written(s, a);
            Apply(gen, s, a).store == s.store || KeyOf(o) != k
            || if Untouched(o.status) then SameSnapshot(o, created) else Bare(o)
  {
    match a
    case ReapWrite(pid, _) => ListedIsTraced(s, k, created, pid);
    case UpdateCancel(pid, _) => ListedIsTraced(s, k, created, pid);
    case Create(_) =>
    case WriteRunning(pid, _) => RunningIsBare(gen, s, pid);
    case WriteFinal(pid, _) => RunningIsBare(gen, s, pid);
  }

  lemma ListedIsTraced(s: State, k: Key, created: Occurrence, pid: nat)
    requires SnapshotInv(s) && Traced(s, k, created) && pid in s.procs
    requires (s.procs[pid].Reaping? || s.procs[pid].Updating?) && s.procs[pid].todo != []
    ensures var p := s.procs[pid];
            && (p.Reaping? ==> Bare(p.todo[0]))
            && (p.Updating? && KeyOf(p.todo[0]) == k ==> SameSnapshot(p.todo[0], created))
  {
    var p := s.procs[pid];
    assert ProcCarries(p) && p.todo[0] in p.todo;
  }

  lemma RunningIsBare(gen: IdGen, s: State, pid: nat)
    requires Inv(gen, s) && SnapshotInv(s) && pid in s.procs && (s.procs[pid].Starting? || s.procs[pid].Finishing?)
    ensures Bare(s.procs[pid].local) && !Untouched(s.procs[pid].local.status)
  {
    assert ProcOk(gen, s, s.procs[pid]) && ProcCarries(s.procs[pid]);
  }

  lemma TracedStep(gen: IdGen, s: State, a: Step, k: Key, created: Occurrence)
    requires Inv(gen, s) && SnapshotInv(s) && Enabled(s, a) && Traced(s, k, created)
    ensures Traced(Apply(gen, s, a), k, created)
  {
    var s' := Apply(gen, s, a);
    TracedRecord(gen, s, a, k, created);
    forall p, o | p in s'.procs && s'.procs[p].Updating? && o in s'.procs[p].todo && KeyOf(o) == k
      ensures SameSnapshot(o, created)
    {
      TracedCancels(gen, s, a, k, created, p, o);
    }
  }

  lemma CreatedIsTraced(gen: IdGen, s: State, pid: nat)
    requires Inv(gen, s) && SnapshotInv(s) && Enabled(s, Create(pid)) && KeyOf(s.procs[pid].stored) !in s.store
    ensures Traced(Apply(gen, s, Create(pid)), KeyOf(s.procs[pid].stored), s.procs[pid].stored)
  {
    var k := KeyOf(s.procs[pid].stored);
    assert ProcOk(gen, s, s.procs[pid]);
    forall p, o | p in s.procs && s.procs[p].Updating? && o in s.procs[p].todo ensures KeyOf(o) != k {
      assert ProcOk(gen, s, s.procs[p]);
    }
  }

  /** From its creation on, in every run, a record shows the owner and snapshot it was created with exactly as long
      as no executor stored Running: once it did, both are gone, unless a stale cancellation put them back. For a
      tick's record the owner is the creating node. */
  lemma {:induction false} SnapshotFollowsCreation(gen: IdGen, states: seq<State>, steps: seq<Step>, i: nat, j: nat)
    requires IsRun(gen, states, steps) && i < j < |states| && steps[i].Create?
    requires steps[i].pid in states[i].procs && states[i].procs[steps[i].pid].Creating?
    requires KeyOf(states[i].procs[steps[i].pid].stored) !in states[i].store
    ensures var p := states[i].procs[steps[i].pid];
            && Traced(states[j], KeyOf(p.stored), p.stored)
            && (p.stored.isRecovery ==> Bare(p.stored))
            && (!p.stored.isRecovery ==> p.stored.owner == p.node && p.stored.config.Some?)
  {
    var pid := steps[i].pid;
    var p := states[i].procs[pid];
    RunInv(gen, states, steps, j - 1);
    SnapshotIff(gen, states, steps, j - 1);
    SnapshotIff(gen, states, steps, i);
    assert ProcCarries(p);
    assert Enabled(states[j - 1], steps[j - 1]) && Enabled(states[i], steps[i]);
    if j == i + 1 {
      CreatedIsTraced(gen, states[i], pid);
    } else {
      SnapshotFollowsCreation(gen, states, steps, i, j - 1);
      TracedStep(gen, states[j - 1], steps[j - 1], KeyOf(p.stored), p.stored);
    }
  }

  // ----- A run that loses the snapshot, and finds it again -----

  function Triggered(gen: IdGen): Occurrence {
    Occurrence(gen("job", Second(1)), "job", 1, 1, Pending, "", None, None, None, false, 1)
  }

  function Held(gen: IdGen): Occurrence { Triggered(gen).(owner := "n", config := Some("c")) }

  const TICK: Step := Tick(0, "n", "job", 1, Allow, "c", 1)

  lemma Ticks(gen: IdGen)
    ensures Leads(gen, Start(1), [TICK, CheckOverlap(0)],
        Start(1).(procs := map[0 := Creating("n", Held(gen), Triggered(gen))]))
  {
    var s1 := Apply(gen, Start(1), TICK);
    var s2 := Apply(gen, s1, CheckOverlap(0));
    assert s2.procs == map[0 := Creating("n", Held(gen), Triggered(gen))];
    LeadsTwo(gen, Start(1), TICK, s1, CheckOverlap(0), s2);
  }

  /** The tick's record is stored with its snapshot, and an update whose clock was read just before lists it. */
  lemma CreatesAndIsListed(gen: IdGen)
    ensures var h := Held(gen);
            Leads(gen, Start(1).(procs := map[0 := Creating("n", h, Triggered(gen))]),
                  [Create(0), UpdateSnapshot(1, "m", "job", Immediate, 0, [h])],
                  With(1, h, map[1 := Updating("m", [h])][0 := Won("n", Triggered(gen))], []))
  {
    var h := Held(gen);
    var snap := UpdateSnapshot(1, "m", "job", Immediate, 0, [h]);
    var s0 := Start(1).(procs := map[0 := Creating("n", h, Triggered(gen))]);
    var s1 := With(1, h, map[0 := Won("n", Triggered(gen))], []);
    assert Apply(gen, s0, Create(0)).procs == s1.procs;
    ListedAtOnce(gen);
    var s2 := Apply(gen, s1, snap);
    assert s2.procs == map[1 := Updating("m", [h])][0 := Won("n", Triggered(gen))];
    LeadsTwo(gen, s0, Create(0), s1, snap, s2);
  }

  lemma ListedAtOnce(gen: IdGen)
    ensures UpdatePolicies.ListsPending(With(1, Held(gen), map[], []).store, "job", [Held(gen)])
    ensures UpdatePolicies.CancelList(Immediate, [Held(gen)], 0) == [Held(gen)]
  {
    var h := Held(gen);
    assert UpdatePolicies.Filter(Immediate, [h], 0, 0) == [];
    assert h in [h];
  }

  /** One run in three stages: the stored record has its owner and snapshot, the executor's first write drops
      both, and a stale cancellation brings them back while the execution is at work. */
  lemma SnapshotLostAndFound(gen: IdGen) returns (before: State, lost: State, found: State, k: Key)
    ensures exists steps :: Leads(gen, Start(1), steps, before)
    ensures k in before.store && before.store[k].owner == "n" && before.store[k].config == Some("c")
    ensures Leads(gen, before, [Begin(0), WriteRunning(0, true)], lost)
    ensures k in lost.store && lost.store[k].status == Running && Bare(lost.store[k])
    ensures Leads(gen, lost, [UpdateCancel(1, true)], found)
    ensures k in found.store && found.store[k].owner == "n" && found.store[k].config == Some("c")
    ensures found.store[k].status == JobStatus.Canceled && 0 in found.procs && found.procs[0].Working?
  {
    var h := Held(gen);
    k := KeyOf(h);
    before := With(1, h, map[1 := Updating("m", [h])][0 := Won("n", Triggered(gen))], []);
    Ticks(gen);
    CreatesAndIsListed(gen);
    LeadsOn(gen, Start(1), [TICK, CheckOverlap(0)], Start(1).(procs := map[0 := Creating("n", h, Triggered(gen))]),
            [Create(0), UpdateSnapshot(1, "m", "job", Immediate, 0, [h])], before);
    lost, found := LosesAndFinds(gen);
  }

  lemma LosesAndFinds(gen: IdGen) returns (lost: State, found: State)
    ensures var h := Held(gen);
            && Leads(gen, With(1, h, map[1 := Updating("m", [h])][0 := Won("n", Triggered(gen))], []),
                     [Begin(0), WriteRunning(0, true)], lost)
            && KeyOf(h) in lost.store && lost.store[KeyOf(h)].status == Running && Bare(lost.store[KeyOf(h)])
            && Leads(gen, lost, [UpdateCancel(1, true)], found)
            && KeyOf(h) in found.store && found.store[KeyOf(h)] == UpdatePolicies.AsCanceled(h)
            && 0 in found.procs && found.procs[0].Working?
  {
    var h := Held(gen);
    var s0 := With(1, h, map[1 := Updating("m", [h])][0 := Won("n", Triggered(gen))], []);
    var s1 := Apply(gen, s0, Begin(0));
    lost := Apply(gen, s1, WriteRunning(0, true));
    LeadsTwo(gen, s0, Begin(0), s1, WriteRunning(0, true), lost);
    found := Apply(gen, lost, UpdateCancel(1, true));
    LeadsOne(gen, lost, UpdateCancel(1, true));
  }
}
