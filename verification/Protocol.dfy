/** The occurrence protocol: scheduler nodes, recovery passes, executors, reapers and schedule updates
    running over one shared store, as a step relation. Every store call is one atomic step; clocks,
    crashes and failed store writes are free choices. */
module Protocol {
  import opened Types
  import opened Records
  import UpdatePolicies

  /** How (job id, UTC second) becomes an occurrence id. Any function will do: at-most-once needs
      only that the id is deterministic. */
  type IdGen = (string, int) -> string

  /** One goroutine, or one closure waiting in a worker pool, and what it holds in memory. */
  datatype Proc =
    | Ticked(node: string, jobId: string, jobVersion: int, overlap: OverlapPolicy, config: string, at: Time)
    | Creating(node: string, stored: Occurrence, local: Occurrence)
    | Won(node: string, local: Occurrence)
    | Queued(node: string, local: Occurrence)
    | Starting(node: string, local: Occurrence)
    | Working(node: string, local: Occurrence)
    | Finishing(node: string, local: Occurrence)
    | Reaping(node: string, todo: seq<Occurrence>)
    | Updating(node: string, todo: seq<Occurrence>)
    | Relisting(node: string, jobId: string, readNow: Time)

  /** `started` logs every execution that ever began; `ran` the keys for which Running was ever stored.
      Both are history: no step reads them. */
  datatype State = State(
    now: Time, store: map<Key, Occurrence>, procs: map<nat, Proc>, started: seq<Occurrence>, ran: set<Key>)

  datatype Step =
    | Tick(pid: nat, node: string, jobId: string, jobVersion: int, overlap: OverlapPolicy, config: string, at: Time)
    | CheckOverlap(pid: nat)
    | Recover(pid: nat, node: string, jobId: string, jobVersion: int, at: Time)
    | Create(pid: nat)
    | Enqueue(pid: nat)
    | Begin(pid: nat)
    | WriteRunning(pid: nat, ok: bool)
    | FinishTasks(pid: nat, failed: bool)
    | WriteFinal(pid: nat, ok: bool)
    | ReapSnapshot(pid: nat, node: string, readNow: Time, stale: seq<Occurrence>)
    | ReapWrite(pid: nat, ok: bool)
    | UpdateSnapshot(pid: nat, node: string, jobId: string, how: UpdatePolicy, readNow: Time, pending: seq<Occurrence>)
    | Relist(pid: nat, pending: seq<Occurrence>)
    | UpdateCancel(pid: nat, ok: bool)
    | Abandon(pid: nat)
    | Crash(node: string)
    | Advance(d: nat)

  /** An execution in progress or the right to begin one. */
  predicate Holds(p: Proc) {
    p.Won? || p.Queued? || p.Starting? || p.Working? || p.Finishing?
  }

  predicate Executing(p: Proc) { p.Starting? || p.Working? || p.Finishing? }

  predicate SomeRunning(store: map<Key, Occurrence>, jobId: string) {
    exists k | k in store :: store[k].jobId == jobId && store[k].status == Running
  }

  predicate IsStale(o: Occurrence, cutoff: Time) {
    o.status == Running && o.startTime.Some? && o.startTime.value < cutoff
  }

  ghost predicate ListsStale(store: map<Key, Occurrence>, cutoff: Time, stale: seq<Occurrence>) {
    && (forall o | o in stale :: KeyOf(o) in store && store[KeyOf(o)] == o && IsStale(o, cutoff))
    && (forall k | k in store && IsStale(store[k], cutoff) :: store[k] in stale)
  }

  ghost predicate Enabled(s: State, a: Step) {
    match a
    case Tick(pid, _, _, _, _, _, at) => pid !in s.procs && at <= s.now
    case CheckOverlap(pid) => pid in s.procs && s.procs[pid].Ticked?
    case Recover(pid, _, _, _, at) => pid !in s.procs && at <= s.now
    case Create(pid) => pid in s.procs && s.procs[pid].Creating?
    case Enqueue(pid) => pid in s.procs && s.procs[pid].Won?
    case Begin(pid) => pid in s.procs && (s.procs[pid].Won? || s.procs[pid].Queued?)
    case WriteRunning(pid, _) => pid in s.procs && s.procs[pid].Starting?
    case FinishTasks(pid, _) => pid in s.procs && s.procs[pid].Working?
    case WriteFinal(pid, _) => pid in s.procs && s.procs[pid].Finishing?
    case ReapSnapshot(pid, _, readNow, stale) =>
      pid !in s.procs && readNow <= s.now && ListsStale(s.store, readNow - HOUR, stale)
    case ReapWrite(pid, _) => pid in s.procs && s.procs[pid].Reaping? && s.procs[pid].todo != []
    case UpdateSnapshot(pid, _, jobId, _, readNow, pending) =>
      pid !in s.procs && readNow <= s.now && UpdatePolicies.ListsPending(s.store, jobId, pending)
    case Relist(pid, pending) =>
      pid in s.procs && s.procs[pid].Relisting? && UpdatePolicies.ListsPending(s.store, s.procs[pid].jobId, pending)
    case UpdateCancel(pid, _) => pid in s.procs && s.procs[pid].Updating? && s.procs[pid].todo != []
    case Abandon(pid) => pid in s.procs
    case Crash(_) => true
    case Advance(_) => true
  }

  function Drop(s: State, pid: nat): State { s.(procs := s.procs - {pid}) }

  /** Update-if-present of a whole record. */
  function Write(store: map<Key, Occurrence>, o: Occurrence, ok: bool): map<Key, Occurrence> {
    if ok && KeyOf(o) in store then store[KeyOf(o) := o] else store
  }

  /** The record of a live trigger: the stored copy carries the node and the configuration bytes,
      the copy handed to the executor does not. */
  function TickRecord(gen: IdGen, p: Proc, now: Time): Occurrence
    requires p.Ticked?
  {
    Occurrence(gen(p.jobId, Second(p.at)), p.jobId, p.jobVersion, p.at, Pending, "", None, None, None, false, now)
  }

  function RecoveryRecord(gen: IdGen, jobId: string, jobVersion: int, at: Time, now: Time): Occurrence {
    Occurrence(gen(jobId, Second(at)), jobId, jobVersion, at, Pending, "", None, None, None, true, now)
  }

  /** What an update does with its listing: a graceful one that finds nothing ahead falls back to the
      immediate policy, which lists again under the same clock reading. */
  function Listed(node: string, jobId: string, policy: UpdatePolicy, readNow: Time, pending: seq<Occurrence>): Proc {
    if policy == Graceful && !UpdatePolicies.AnyAhead(pending, readNow) then Relisting(node, jobId, readNow)
    else Updating(node, UpdatePolicies.CancelList(policy, pending, readNow))
  }

  ghost function Apply(gen: IdGen, s: State, a: Step): State
    requires Enabled(s, a)
  {
    match a
    case Tick(pid, node, jobId, jobVersion, policy, config, at) =>
      s.(procs := s.procs[pid := Ticked(node, jobId, jobVersion, policy, config, at)])
    case CheckOverlap(pid) =>
      var p := s.procs[pid];
      if p.overlap == Skip && SomeRunning(s.store, p.jobId) then Drop(s, pid)
      else
        var o := TickRecord(gen, p, s.now);
        s.(procs := s.procs[pid := Creating(p.node, o.(owner := p.node, config := Some(p.config)), o)])
    case Recover(pid, node, jobId, jobVersion, at) =>
      var o := RecoveryRecord(gen, jobId, jobVersion, at, s.now);
      s.(procs := s.procs[pid := Creating(node, o, o)])
    case Create(pid) =>
      var p := s.procs[pid];
      if KeyOf(p.stored) in s.store then Drop(s, pid)
      else s.(store := s.store[KeyOf(p.stored) := p.stored], procs := s.procs[pid := Won(p.node, p.local)])
    case Enqueue(pid) => s.(procs := s.procs[pid := Proc.Queued(s.procs[pid].node, s.procs[pid].local)])
    case Begin(pid) =>
      var p := s.procs[pid];
      var o := p.local.(status := Running, startTime := Some(s.now));
      s.(procs := s.procs[pid := Starting(p.node, o)], started := s.started + [o])
    case WriteRunning(pid, ok) =>
      var p := s.procs[pid];
      if ok && KeyOf(p.local) in s.store then
        s.(store := Write(s.store, p.local, ok), procs := s.procs[pid := Working(p.node, p.local)],
           ran := s.ran + {KeyOf(p.local)})
      else Drop(s, pid)
    case FinishTasks(pid, failed) =>
      var p := s.procs[pid];
      var o := p.local.(status := if failed then Failed else Completed, endTime := Some(s.now));
      s.(procs := s.procs[pid := Finishing(p.node, o)])
    case WriteFinal(pid, ok) => Drop(s, pid).(store := Write(s.store, s.procs[pid].local, ok))
    case ReapSnapshot(pid, node, _, stale) => s.(procs := s.procs[pid := Reaping(node, stale)])
    case ReapWrite(pid, ok) =>
      var p := s.procs[pid];
      s.(store := Write(s.store, p.todo[0].(status := FailedStale, endTime := Some(s.now)), ok),
         procs := s.procs[pid := p.(todo := p.todo[1..])])
    case UpdateSnapshot(pid, node, jobId, policy, readNow, pending) =>
      s.(procs := s.procs[pid := Listed(node, jobId, policy, readNow, pending)])
    case Relist(pid, pending) =>
      var p := s.procs[pid];
      s.(procs := s.procs[pid := Updating(p.node, UpdatePolicies.CancelList(Immediate, pending, p.readNow))])
    case UpdateCancel(pid, ok) =>
      var p := s.procs[pid];
      if ok then s.(store := Write(s.store, UpdatePolicies.AsCanceled(p.todo[0]), ok),
        procs := s.procs[pid := p.(todo := p.todo[1..])])
      else Drop(s, pid)
    case Abandon(pid) => Drop(s, pid)
    case Crash(node) => s.(procs := map pid | pid in s.procs && s.procs[pid].node != node :: s.procs[pid])
    case Advance(d) => s.(now := s.now + d)
  }

  ghost predicate Init(s: State) {
    s.store == map[] && s.procs == map[] && s.started == [] && s.ran == {}
  }

  /** States joined by enabled steps. */
  ghost predicate IsPath(gen: IdGen, states: seq<State>, steps: seq<Step>) {
    && |states| == |steps| + 1
    && forall i | 0 <= i < |steps| :: Enabled(states[i], steps[i]) && states[i + 1] == Apply(gen, states[i], steps[i])
  }

  ghost predicate IsRun(gen: IdGen, states: seq<State>, steps: seq<Step>) {
    IsPath(gen, states, steps) && Init(states[0])
  }

  // ----- The invariant -----

  ghost predicate RecordOk(gen: IdGen, now: Time, o: Occurrence) {
    o.id == gen(o.jobId, Second(o.scheduledTime)) && o.scheduledTime <= now
  }

  /** The record agrees with the stored one on every field fixed at creation. */
  ghost predicate Mirrors(store: map<Key, Occurrence>, o: Occurrence) {
    KeyOf(o) in store && SameIdentity(o, store[KeyOf(o)])
  }

  ghost function StartedKeys(s: State): set<Key> { set o | o in s.started :: KeyOf(o) }

  /** Statuses an occurrence has before an executor stored Running for it. */
  predicate Untouched(status: JobStatus) { status == Pending || status == JobStatus.Canceled }

  ghost predicate ProcOk(gen: IdGen, s: State, p: Proc) {
    match p
    case Ticked(_, _, _, _, _, at) => at <= s.now
    case Creating(_, stored, local) =>
      RecordOk(gen, s.now, stored) && SameIdentity(stored, local) && stored.status == Pending && stored.startTime.None?
    case Won(_, o) => TokenOk(gen, s, o)
    case Queued(_, o) => TokenOk(gen, s, o)
    case Starting(_, o) =>
      ExecOk(gen, s, o) && o.status == Running && KeyOf(o) !in s.ran
    case Working(_, o) => ExecOk(gen, s, o) && o.status == Running && KeyOf(o) in s.ran && StartAgrees(s, o)
    case Finishing(_, o) =>
      ExecOk(gen, s, o) && (o.status == Completed || o.status == Failed) && KeyOf(o) in s.ran && StartAgrees(s, o)
    case Reaping(_, todo) => forall o | o in todo :: Mirrors(s.store, o) && KeyOf(o) in s.ran
    case Updating(_, todo) => forall o | o in todo :: Mirrors(s.store, o)
    case Relisting(_, _, _) => true
  }

  ghost predicate TokenOk(gen: IdGen, s: State, o: Occurrence) {
    RecordOk(gen, s.now, o) && Mirrors(s.store, o) && KeyOf(o) !in StartedKeys(s)
  }

  ghost predicate ExecOk(gen: IdGen, s: State, o: Occurrence) {
    RecordOk(gen, s.now, o) && Mirrors(s.store, o) && KeyOf(o) in StartedKeys(s) && o.startTime.Some?
  }

  /** A stored Running record shows the start time its executor holds. */
  ghost predicate StartAgrees(s: State, o: Occurrence) {
    KeyOf(o) in s.store && s.store[KeyOf(o)].status == Running ==> s.store[KeyOf(o)].startTime == o.startTime
  }

  /** Queued is never stored, and Pending never comes back once Running was stored. */
  ghost predicate Settled(s: State, k: Key, status: JobStatus) {
    status != JobStatus.Queued && (k in s.ran ==> status != Pending)
  }

  ghost predicate StoreOk(gen: IdGen, s: State) {
    && (forall k | k in s.store :: KeyOf(s.store[k]) == k && RecordOk(gen, s.now, s.store[k]))
    && (forall k | k in s.store && !Untouched(s.store[k].status) :: k in s.ran)
    && (forall k | k in s.store :: Settled(s, k, s.store[k].status))
    && s.ran <= StartedKeys(s)
  }

  /** No two executions begin under one key, and none begins without its stored record. */
  ghost predicate StartedOk(gen: IdGen, s: State) {
    && (forall o | o in s.started :: RecordOk(gen, s.now, o) && KeyOf(o) in s.store)
    && (forall i, j | 0 <= i < j < |s.started| :: KeyOf(s.started[i]) != KeyOf(s.started[j]))
  }

  /** At most one process holds or executes any one key. */
  ghost predicate OneHolder(s: State) {
    forall p, q | p in s.procs && q in s.procs && p != q && Holds(s.procs[p]) && Holds(s.procs[q]) ::
      KeyOf(s.procs[p].local) != KeyOf(s.procs[q].local)
  }

  ghost predicate ProcsOk(gen: IdGen, s: State) {
    forall pid | pid in s.procs :: ProcOk(gen, s, s.procs[pid])
  }

  ghost predicate Inv(gen: IdGen, s: State) {
    StoreOk(gen, s) && StartedOk(gen, s) && OneHolder(s) && ProcsOk(gen, s)
  }

  lemma StartedGrows(s: State, s': State, o: Occurrence)
    requires s'.started == s.started + [o]
    ensures StartedKeys(s') == StartedKeys(s) + {KeyOf(o)}
  {
    assert forall x :: x in s'.started <==> x in s.started || x == o;
    assert KeyOf(o) in StartedKeys(s') by { assert o in s'.started; }
    forall k | k in StartedKeys(s) ensures k in StartedKeys(s') {
      var x :| x in s.started && KeyOf(x) == k;
      assert x in s'.started;
    }
  }

  /** Rewriting records in place, without making any of them Running, keeps what every process relies on. */
  lemma RewriteKeeps(gen: IdGen, s: State, store: map<Key, Occurrence>, p: Proc)
    requires ProcOk(gen, s, p)
    requires store.Keys == s.store.Keys
    requires forall k | k in store ::
               SameIdentity(store[k], s.store[k]) && (store[k].status == Running ==> store[k] == s.store[k])
    ensures ProcOk(gen, s.(store := store), p)
  {
  }

  /** Waiting, or losing processes, keeps what the remaining ones rely on. */
  lemma InvQuiet(gen: IdGen, s: State, s': State)
    requires Inv(gen, s) && s.now <= s'.now && s' == s.(now := s'.now, procs := s'.procs)
    requires forall pid | pid in s'.procs :: pid in s.procs && s'.procs[pid] == s.procs[pid]
    ensures Inv(gen, s')
  {
    assert StartedKeys(s') == StartedKeys(s);
    forall pid | pid in s'.procs ensures ProcOk(gen, s', s'.procs[pid]) {
      assert ProcOk(gen, s, s.procs[pid]);
    }
  }

  /** One process changing its local state: enough to check that process. */
  lemma InvMove(gen: IdGen, s: State, pid: nat, p: Proc)
    requires Inv(gen, s) && ProcOk(gen, s, p)
    requires Holds(p) ==> pid in s.procs && Holds(s.procs[pid]) && KeyOf(s.procs[pid].local) == KeyOf(p.local)
    ensures Inv(gen, s.(procs := s.procs[pid := p]))
  {
    var s' := s.(procs := s.procs[pid := p]);
    assert StartedKeys(s') == StartedKeys(s);
    forall q | q in s'.procs ensures ProcOk(gen, s', s'.procs[q]) {
      assert q != pid ==> ProcOk(gen, s, s.procs[q]);
    }
  }

  lemma InvStep(gen: IdGen, s: State, a: Step)
    requires Inv(gen, s) && Enabled(s, a)
    ensures Inv(gen, Apply(gen, s, a))
  {
    var s' := Apply(gen, s, a);
    match a
    case Create(pid) => InvCreate(gen, s, pid);
    case Begin(pid) => InvBegin(gen, s, pid);
    case WriteRunning(pid, ok) => InvWriteRunning(gen, s, pid, ok);
    case WriteFinal(pid, ok) => InvWriteFinal(gen, s, pid, ok);
    case ReapWrite(pid, ok) => InvReapWrite(gen, s, pid, ok);
    case UpdateCancel(pid, ok) => InvUpdateCancel(gen, s, pid, ok);
    case Abandon(pid) => InvQuiet(gen, s, s');
    case Crash(_) => InvQuiet(gen, s, s');
    case Advance(_) => InvQuiet(gen, s, s');
    case _ => InvLocal(gen, s, a);
  }

  /** Steps that only change what one process holds. */
  predicate Local(a: Step) {
    a.Tick? || a.CheckOverlap? || a.Recover? || a.Enqueue? || a.FinishTasks? || a.ReapSnapshot? || a.UpdateSnapshot?
      || a.Relist?
  }

  lemma InvLocal(gen: IdGen, s: State, a: Step)
    requires Inv(gen, s) && Enabled(s, a) && Local(a)
    ensures Inv(gen, Apply(gen, s, a))
  {
    var s' := Apply(gen, s, a);
    if a.pid in s'.procs { InvMove(gen, s, a.pid, s'.procs[a.pid]); } else { InvQuiet(gen, s, s'); }
  }

  /** The step is one of this process. */
  predicate Moves(a: Step, pid: nat) { !a.Crash? && !a.Advance? && a.pid == pid }

  lemma OthersUnmoved(gen: IdGen, s: State, a: Step, pid: nat)
    requires Enabled(s, a) && pid in Apply(gen, s, a).procs && !Moves(a, pid)
    ensures pid in s.procs && Apply(gen, s, a).procs[pid] == s.procs[pid]
  {
  }

  predicate Writes(a: Step) { a.Create? || a.WriteRunning? || a.WriteFinal? || a.ReapWrite? || a.UpdateCancel? }

  /** The record a writing step writes, if its write succeeds. */
  ghost function Written(s: State, a: Step): Occurrence
    requires Enabled(s, a) && Writes(a)
  {
    var p := s.procs[a.pid];
    match a
    case Create(_) => p.stored
    case ReapWrite(_, _) => p.todo[0].(status := FailedStale, endTime := Some(s.now))
    case UpdateCancel(_, _) => UpdatePolicies.AsCanceled(p.todo[0])
    case _ => p.local
  }

  lemma StoreAfterWrite(gen: IdGen, s: State, a: Step)
    requires Enabled(s, a) && Writes(a)
    ensures var o := Written(s, a);
            Apply(gen, s, a).store == s.store || Apply(gen, s, a).store == s.store[KeyOf(o) := o]
  {
  }

  lemma OnlyWritesWrite(gen: IdGen, s: State, a: Step)
    requires Enabled(s, a) && !Writes(a)
    ensures Apply(gen, s, a).store == s.store
  {
  }

  lemma InvCreate(gen: IdGen, s: State, pid: nat)
    requires Inv(gen, s) && Enabled(s, Create(pid))
    ensures Inv(gen, Apply(gen, s, Create(pid)))
  {
    var s' := Apply(gen, s, Create(pid));
    if pid !in s'.procs {
      InvQuiet(gen, s, s');
    } else {
      var stored := s.procs[pid].stored;
      assert ProcOk(gen, s, s.procs[pid]);
      CreatedStoreOk(gen, s, s', stored);
      WonProcsOk(gen, s, s', pid);
    }
  }

  lemma WonProcsOk(gen: IdGen, s: State, s': State, pid: nat)
    requires Inv(gen, s) && pid in s.procs && s.procs[pid].Creating? && KeyOf(s.procs[pid].stored) !in s.store
    requires var p := s.procs[pid];
             s' == s.(store := s.store[KeyOf(p.stored) := p.stored], procs := s.procs[pid := Won(p.node, p.local)])
    ensures ProcsOk(gen, s') && OneHolder(s')
  {
    var stored := s.procs[pid].stored;
    assert ProcOk(gen, s, s.procs[pid]);
    assert KeyOf(stored) !in StartedKeys(s);
    forall q | q in s'.procs
      ensures ProcOk(gen, s', s'.procs[q])
      ensures q != pid && Holds(s.procs[q]) ==> KeyOf(s.procs[q].local) != KeyOf(stored)
    {
      if q != pid { CreateKeeps(gen, s, stored, s.procs[q]); }
      GrowKeeps(gen, s.(store := s'.store), s', s'.procs[q]);
    }
  }

  lemma CreatedStoreOk(gen: IdGen, s: State, s': State, o: Occurrence)
    requires StoreOk(gen, s) && StartedOk(gen, s) && KeyOf(o) !in s.store && RecordOk(gen, s.now, o)
        && o.status == Pending
    requires s' == s.(store := s.store[KeyOf(o) := o], procs := s'.procs)
    ensures StoreOk(gen, s') && StartedOk(gen, s')
  {
    assert StartedKeys(s') == StartedKeys(s);
  }

  lemma CreateKeeps(gen: IdGen, s: State, o: Occurrence, p: Proc)
    requires ProcOk(gen, s, p) && KeyOf(o) !in s.store
    ensures ProcOk(gen, s.(store := s.store[KeyOf(o) := o]), p)
    ensures Holds(p) ==> KeyOf(p.local) != KeyOf(o)
  {
  }

  lemma GrowKeeps(gen: IdGen, s: State, s': State, p: Proc)
    requires s' == s.(procs := s'.procs)
    ensures ProcOk(gen, s, p) <==> ProcOk(gen, s', p)
  {
    assert StartedKeys(s') == StartedKeys(s);
  }

  lemma InvBegin(gen: IdGen, s: State, pid: nat)
    requires Inv(gen, s) && Enabled(s, Begin(pid))
    ensures Inv(gen, Apply(gen, s, Begin(pid)))
  {
    var s' := Apply(gen, s, Begin(pid));
    assert ProcOk(gen, s, s.procs[pid]);
    StartedGrows(s, s', s'.procs[pid].local);
    var t := s.(started := s'.started);
    forall q | q in s'.procs ensures ProcOk(gen, s', s'.procs[q]) {
      if q != pid { BeginKeeps(gen, s, t, s'.procs[pid].local, s.procs[q]); }
      GrowKeeps(gen, t, s', s'.procs[q]);
    }
  }

  lemma BeginKeeps(gen: IdGen, s: State, t: State, o: Occurrence, p: Proc)
    requires ProcOk(gen, s, p) && (Holds(p) ==> KeyOf(p.local) != KeyOf(o))
    requires t == s.(started := s.started + [o])
    ensures ProcOk(gen, t, p)
  {
    StartedGrows(s, t, o);
  }

  lemma InvWriteRunning(gen: IdGen, s: State, pid: nat, ok: bool)
    requires Inv(gen, s) && Enabled(s, WriteRunning(pid, ok))
    ensures Inv(gen, Apply(gen, s, WriteRunning(pid, ok)))
  {
    var s' := Apply(gen, s, WriteRunning(pid, ok));
    assert StartedKeys(s') == StartedKeys(s);
    if pid !in s'.procs {
      InvQuiet(gen, s, s');
    } else {
      var o := s.procs[pid].local;
      assert ProcOk(gen, s, s.procs[pid]);
      var t := s.(store := s'.store, ran := s'.ran);
      forall q | q in s'.procs ensures ProcOk(gen, s', s'.procs[q]) {
        if q != pid { RunningKeeps(gen, s, t, o, s.procs[q]); }
        GrowKeeps(gen, t, s', s'.procs[q]);
      }
    }
  }

  lemma RunningKeeps(gen: IdGen, s: State, t: State, o: Occurrence, p: Proc)
    requires ProcOk(gen, s, p) && Mirrors(s.store, o) && (Holds(p) ==> KeyOf(p.local) != KeyOf(o))
    requires t == s.(store := s.store[KeyOf(o) := o], ran := s.ran + {KeyOf(o)})
    ensures ProcOk(gen, t, p)
  {
    assert StartedKeys(t) == StartedKeys(s);
  }

  lemma InvWriteFinal(gen: IdGen, s: State, pid: nat, ok: bool)
    requires Inv(gen, s) && Enabled(s, WriteFinal(pid, ok))
    ensures Inv(gen, Apply(gen, s, WriteFinal(pid, ok)))
  {
    var s' := Apply(gen, s, WriteFinal(pid, ok));
    assert ProcOk(gen, s, s.procs[pid]);
    InvRewrite(gen, s, s'.store);
    InvQuiet(gen, s.(store := s'.store), s');
  }

  /** Rewriting records in place, with identities kept and no status outrunning the history, is safe. */
  lemma InvRewrite(gen: IdGen, s: State, store: map<Key, Occurrence>)
    requires Inv(gen, s)
    requires store.Keys == s.store.Keys
    requires forall k | k in store ::
               && SameIdentity(store[k], s.store[k])
               && (store[k].status == Running ==> store[k] == s.store[k])
               && (!Untouched(store[k].status) ==> k in s.ran)
               && Settled(s, k, store[k].status)
    ensures Inv(gen, s.(store := store))
  {
    var s' := s.(store := store);
    assert StartedKeys(s') == StartedKeys(s);
    forall q | q in s'.procs ensures ProcOk(gen, s', s'.procs[q]) { RewriteKeeps(gen, s, store, s.procs[q]); }
  }

  lemma InvReapWrite(gen: IdGen, s: State, pid: nat, ok: bool)
    requires Inv(gen, s) && Enabled(s, ReapWrite(pid, ok))
    ensures Inv(gen, Apply(gen, s, ReapWrite(pid, ok)))
  {
    var s' := Apply(gen, s, ReapWrite(pid, ok));
    var p := s.procs[pid];
    assert ProcOk(gen, s, p) && p.todo[0] in p.todo;
    InvRewrite(gen, s, s'.store);
    RewriteKeeps(gen, s, s'.store, p);
    InvMove(gen, s.(store := s'.store), pid, s'.procs[pid]);
  }

  lemma InvUpdateCancel(gen: IdGen, s: State, pid: nat, ok: bool)
    requires Inv(gen, s) && Enabled(s, UpdateCancel(pid, ok))
    ensures Inv(gen, Apply(gen, s, UpdateCancel(pid, ok)))
  {
    var s' := Apply(gen, s, UpdateCancel(pid, ok));
    var p := s.procs[pid];
    assert ProcOk(gen, s, p) && p.todo[0] in p.todo;
    if !ok {
      InvQuiet(gen, s, s');
    } else {
      InvRewrite(gen, s, s'.store);
      RewriteKeeps(gen, s, s'.store, p);
      InvMove(gen, s.(store := s'.store), pid, s'.procs[pid]);
    }
  }
}
