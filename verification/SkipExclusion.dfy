/** Skip and mutual exclusion: when executions of a Skip job exclude each other, and exactly when two processes
    can still come to execute together. */
module SkipExclusion {
  import opened Types
  import opened Records
  import opened Protocol
  import opened ProtocolTheorems
  import opened ProtocolLimits
  import opened ReaperSafety

  /** Past the overlap check, and not yet stored as Running. */
  predicate PastCheck(p: Proc) { p.Creating? || p.Won? || p.Queued? || p.Starting? }

  predicate Engaged(p: Proc) { PastCheck(p) || p.Working? || p.Finishing? }

  predicate EngagedIn(p: Proc, jobId: string) { Engaged(p) && p.local.jobId == jobId }

  /** Every trigger of the job is a tick under the Skip policy. */
  predicate SkipTrigger(a: Step, jobId: string) {
    && (a.Tick? && a.jobId == jobId ==> a.overlap == Skip)
    && (a.Recover? ==> a.jobId != jobId)
  }

  /** A check for the job is made only while no process of the job is between its own check and Running. */
  ghost predicate CheckedAlone(s: State, a: Step, jobId: string) {
    a.CheckOverlap? && a.pid in s.procs && s.procs[a.pid].Ticked? && s.procs[a.pid].jobId == jobId ==>
      forall q | q in s.procs && PastCheck(s.procs[q]) :: s.procs[q].local.jobId != jobId
  }

  ghost predicate SkipRun(states: seq<State>, steps: seq<Step>, jobId: string) {
    && |states| == |steps| + 1
    && forall i | 0 <= i < |steps| :: SkipTrigger(steps[i], jobId) && CheckedAlone(states[i], steps[i], jobId)
  }

  ghost predicate OneEngaged(s: State, jobId: string) {
    forall p, q | p in s.procs && q in s.procs && EngagedIn(s.procs[p], jobId) && EngagedIn(s.procs[q], jobId) :: p == q
  }

  ghost predicate TicksSkip(s: State, jobId: string) {
    forall p | p in s.procs && s.procs[p].Ticked? && s.procs[p].jobId == jobId :: s.procs[p].overlap == Skip
  }

  /** The store shows Running for every execution of the job between its first and last write. */
  ghost predicate WorkIsVisible(s: State, jobId: string) {
    forall p | p in s.procs && (s.procs[p].Working? || s.procs[p].Finishing?) && s.procs[p].local.jobId == jobId ::
      SomeRunning(s.store, jobId)
  }

  /** Where the processes after a step come from: an engaged one was engaged before, or passed the check or
      recovered just now; a ticked one was there, or ticked just now. */
  lemma EngagedComesFrom(gen: IdGen, s: State, a: Step, pid: nat, jobId: string)
    requires Enabled(s, a) && pid in Apply(gen, s, a).procs && EngagedIn(Apply(gen, s, a).procs[pid], jobId)
    ensures (pid in s.procs && EngagedIn(s.procs[pid], jobId))
            || (a.Recover? && a.jobId == jobId)
            || (a.CheckOverlap? && a.pid == pid && s.procs[pid].jobId == jobId
                && !(s.procs[pid].overlap == Skip && SomeRunning(s.store, jobId)))
  {
  }

  lemma TickedComesFrom(gen: IdGen, s: State, a: Step, pid: nat)
    requires Enabled(s, a) && pid in Apply(gen, s, a).procs && Apply(gen, s, a).procs[pid].Ticked?
    ensures (pid in s.procs && s.procs[pid] == Apply(gen, s, a).procs[pid])
            || (a.Tick? && a.jobId == Apply(gen, s, a).procs[pid].jobId
              && a.overlap == Apply(gen, s, a).procs[pid].overlap)
  {
  }

  lemma ExclusiveStep(gen: IdGen, s: State, a: Step, jobId: string)
    requires Enabled(s, a) && SkipTrigger(a, jobId) && CheckedAlone(s, a, jobId)
    requires OneEngaged(s, jobId) && TicksSkip(s, jobId) && WorkIsVisible(s, jobId)
    ensures OneEngaged(Apply(gen, s, a), jobId) && TicksSkip(Apply(gen, s, a), jobId)
  {
    var s' := Apply(gen, s, a);
    forall p | p in s'.procs && s'.procs[p].Ticked? && s'.procs[p].jobId == jobId ensures s'.procs[p].overlap == Skip {
      TickedComesFrom(gen, s, a, p);
    }
    forall p, q | p in s'.procs && q in s'.procs && EngagedIn(s'.procs[p], jobId) && EngagedIn(s'.procs[q], jobId)
      ensures p == q
    {
      EngagedComesFrom(gen, s, a, p, jobId);
      EngagedComesFrom(gen, s, a, q, jobId);
    }
  }

  /** The executions of the job make their last writes within the hour. */
  ghost predicate TimedJob(states: seq<State>, jobId: string) { forall k: Key | k.0 == jobId :: TimedRun(states, k) }

  lemma LiveWorkIsVisible(gen: IdGen, states: seq<State>, steps: seq<Step>, i: nat, jobId: string)
    requires IsRun(gen, states, steps) && TimedJob(states, jobId) && AtomicRun(states, steps, jobId) && i < |states|
    ensures WorkIsVisible(states[i], jobId)
  {
    var s := states[i];
    forall p | p in s.procs && (s.procs[p].Working? || s.procs[p].Finishing?) && s.procs[p].local.jobId == jobId
      ensures SomeRunning(s.store, jobId)
    {
      var k := KeyOf(s.procs[p].local);
      StoreShowsLiveExecution(gen, states, steps, i, p, k);
      RunInv(gen, states, steps, i);
      assert s.store[k].jobId == jobId;
    }
  }

  /** So a Skip trigger whose check falls between an execution's first and last write is dropped. */
  lemma SkipSeesLiveExecution(gen: IdGen, states: seq<State>, steps: seq<Step>, i: nat, pid: nat, jobId: string)
    requires IsRun(gen, states, steps) && TimedJob(states, jobId) && AtomicRun(states, steps, jobId) && i < |steps|
    requires pid in states[i].procs && (states[i].procs[pid].Working? || states[i].procs[pid].Finishing?)
    requires states[i].procs[pid].local.jobId == jobId
    requires steps[i].CheckOverlap? && steps[i].pid in states[i].procs
    requires var p := states[i].procs[steps[i].pid]; p.Ticked? && p.overlap == Skip && p.jobId == jobId
    ensures steps[i].pid !in states[i + 1].procs
  {
    LiveWorkIsVisible(gen, states, steps, i, jobId);
    assert Enabled(states[i], steps[i]) && SomeRunning(states[i].store, jobId);
  }

  /** When a job's executions are timely and its updates atomic, its executions exclude each other, from their
      check to their last write, if only Skip ticks create them and no check is made while another process of the
      job is between its own check and its write of Running. */
  lemma {:induction false} SkipExcludes(gen: IdGen, states: seq<State>, steps: seq<Step>, jobId: string, i: nat)
    requires IsRun(gen, states, steps) && TimedJob(states, jobId) && AtomicRun(states, steps, jobId)
    requires SkipRun(states, steps, jobId) && i < |states|
    ensures OneEngaged(states[i], jobId) && TicksSkip(states[i], jobId)
  {
    if i == 0 {
    } else {
      SkipExcludes(gen, states, steps, jobId, i - 1);
      LiveWorkIsVisible(gen, states, steps, i - 1, jobId);
      assert Enabled(states[i - 1], steps[i - 1]) && CheckedAlone(states[i - 1], steps[i - 1], jobId);
      ExclusiveStep(gen, states[i - 1], steps[i - 1], jobId);
    }
  }

  // ----- Exactly when two processes can execute together -----

  /** Steps that trigger nothing new. */
  predicate NoTriggers(steps: seq<Step>) {
    forall a | a in steps :: !a.Tick? && !a.Recover? && !a.CheckOverlap?
  }

  /** The process is at work, or nothing it has seen or will see keeps it from getting there. */
  ghost predicate MayWork(s: State, pid: nat) {
    pid in s.procs
    && (s.procs[pid].Working?
      || (PastCheck(s.procs[pid]) && (s.procs[pid].Creating? ==> KeyOf(s.procs[pid].stored) !in s.store)))
  }

  lemma KeysGrow(gen: IdGen, s: State, a: Step)
    requires Enabled(s, a)
    ensures s.store.Keys <= Apply(gen, s, a).store.Keys
  {
    if Writes(a) { StoreAfterWrite(gen, s, a); } else { OnlyWritesWrite(gen, s, a); }
  }

  lemma MayWorkBefore(gen: IdGen, s: State, a: Step, pid: nat)
    requires Enabled(s, a) && !a.Tick? && !a.Recover? && !a.CheckOverlap? && MayWork(Apply(gen, s, a), pid)
    ensures MayWork(s, pid) && KeyOf(s.procs[pid].local) == KeyOf(Apply(gen, s, a).procs[pid].local)
  {
    KeysGrow(gen, s, a);
    if !Moves(a, pid) { OthersUnmoved(gen, s, a, pid); }
  }

  /** Getting to work at one point of a path means having been able to at the one before. */
  ghost predicate StepBack(states: seq<State>, i: nat, pid: nat)
    requires 0 < i < |states|
  {
    MayWork(states[i], pid) ==>
      MayWork(states[i - 1], pid) && KeyOf(states[i - 1].procs[pid].local) == KeyOf(states[i].procs[pid].local)
  }

  lemma AllStepBack(gen: IdGen, states: seq<State>, steps: seq<Step>, pid: nat)
    requires IsPath(gen, states, steps) && NoTriggers(steps)
    ensures forall i | 0 < i < |states| :: StepBack(states, i, pid)
  {
    forall i | 0 < i < |states| ensures StepBack(states, i, pid) {
      assert steps[i - 1] in steps && Enabled(states[i - 1], steps[i - 1]);
      if MayWork(states[i], pid) { MayWorkBefore(gen, states[i - 1], steps[i - 1], pid); }
    }
  }

  lemma {:induction false} MayWorkFromStart(states: seq<State>, i: nat, pid: nat)
    requires i < |states| && forall j | 0 < j < |states| :: StepBack(states, j, pid)
    requires MayWork(states[i], pid)
    ensures MayWork(states[0], pid) && KeyOf(states[0].procs[pid].local) == KeyOf(states[i].procs[pid].local)
  {
    if i == 0 {
    } else {
      assert StepBack(states, i, pid);
      MayWorkFromStart(states, i - 1, pid);
    }
  }

  lemma MayWorkThroughout(gen: IdGen, states: seq<State>, steps: seq<Step>, i: nat, pid: nat)
    requires IsPath(gen, states, steps) && NoTriggers(steps) && i < |states| && MayWork(states[i], pid)
    ensures MayWork(states[0], pid) && KeyOf(states[0].procs[pid].local) == KeyOf(states[i].procs[pid].local)
  {
    AllStepBack(gen, states, steps, pid);
    MayWorkFromStart(states, i, pid);
  }

  /** What getting one process to work leaves as it was. */
  ghost predicate OthersLeft(s: State, t: State, pid: nat)
    requires MayWork(s, pid)
  {
    && t.store.Keys == s.store.Keys + {KeyOf(s.procs[pid].local)}
    && t.procs.Keys == s.procs.Keys
    && forall q | q in s.procs && q != pid :: t.procs[q] == s.procs[q]
  }

  /** How many steps of its own separate a process from being at work. */
  function StepsToWork(p: Proc): nat {
    if p.Working? then 0 else if p.Starting? then 1 else if p.Creating? then 3 else 2
  }

  function NextToWork(pid: nat, p: Proc): Step {
    if p.Creating? then Create(pid) else if p.Starting? then WriteRunning(pid, true) else Begin(pid)
  }

  /** The key it is after is the one it will execute, and it is stored if it was won. */
  ghost predicate Ready(s: State, pid: nat) {
    && MayWork(s, pid)
    && (if s.procs[pid].Creating? then KeyOf(s.procs[pid].stored) == KeyOf(s.procs[pid].local)
        else KeyOf(s.procs[pid].local) in s.store)
  }

  lemma MayWorkIsReady(gen: IdGen, s: State, pid: nat)
    requires Inv(gen, s) && MayWork(s, pid)
    ensures Ready(s, pid)
  {
    assert ProcOk(gen, s, s.procs[pid]);
  }

  lemma OneStepToWork(gen: IdGen, s: State, pid: nat)
    requires Ready(s, pid) && !s.procs[pid].Working?
    ensures var a := NextToWork(pid, s.procs[pid]);
            && Enabled(s, a)
            && var t := Apply(gen, s, a);
               && Ready(t, pid) && StepsToWork(t.procs[pid]) < StepsToWork(s.procs[pid])
               && KeyOf(t.procs[pid].local) == KeyOf(s.procs[pid].local) && OthersLeft(s, t, pid)
  {
  }

  lemma GetsToWork(gen: IdGen, s: State, pid: nat) returns (steps: seq<Step>, t: State)
    requires Ready(s, pid)
    ensures Leads(gen, s, steps, t) && NoTriggers(steps) && OthersLeft(s, t, pid)
    ensures pid in t.procs && t.procs[pid].Working? && KeyOf(t.procs[pid].local) == KeyOf(s.procs[pid].local)
    decreases StepsToWork(s.procs[pid])
  {
    if s.procs[pid].Working? {
      steps, t := [], s;
      assert IsPath(gen, [s], []);
    } else {
      var a := NextToWork(pid, s.procs[pid]);
      OneStepToWork(gen, s, pid);
      var next, rest := Apply(gen, s, a), [];
      rest, t := GetsToWork(gen, next, pid);
      LeadsOne(gen, s, a);
      LeadsOn(gen, s, [a], next, rest, t);
      OthersLeftThrough(s, next, t, pid);
      steps := [a] + rest;
    }
  }

  lemma OthersLeftThrough(s: State, next: State, t: State, pid: nat)
    requires MayWork(s, pid) && MayWork(next, pid) && KeyOf(next.procs[pid].local) == KeyOf(s.procs[pid].local)
    requires OthersLeft(s, next, pid) && OthersLeft(next, t, pid)
    ensures OthersLeft(s, t, pid)
  {
  }

  /** Without any new trigger, two processes can come to be at work together exactly when each may get to
      work by itself and their keys differ. */
  lemma OverlapPossibleIff(gen: IdGen, s: State, p: nat, q: nat)
    requires Inv(gen, s) && p != q
    ensures (exists steps, t :: Leads(gen, s, steps, t) && NoTriggers(steps) && BothAtWork(t, p, q))
            <==> MayWork(s, p) && MayWork(s, q) && KeyOf(s.procs[p].local) != KeyOf(s.procs[q].local)
  {
    if steps, t :| Leads(gen, s, steps, t) && NoTriggers(steps) && BothAtWork(t, p, q) {
      var states :| IsPath(gen, states, steps) && states[0] == s && states[|steps|] == t;
      PathInv(gen, states, steps, |steps|);
      MayWorkThroughout(gen, states, steps, |steps|, p);
      MayWorkThroughout(gen, states, steps, |steps|, q);
    }
    if MayWork(s, p) && MayWork(s, q) && KeyOf(s.procs[p].local) != KeyOf(s.procs[q].local) {
      var steps, t := BothGetToWork(gen, s, p, q);
    }
  }

  predicate BothAtWork(s: State, p: nat, q: nat) {
    p in s.procs && q in s.procs && s.procs[p].Working? && s.procs[q].Working?
  }

  lemma BothGetToWork(gen: IdGen, s: State, p: nat, q: nat) returns (steps: seq<Step>, t: State)
    requires Inv(gen, s) && p != q && MayWork(s, p) && MayWork(s, q)
    requires KeyOf(s.procs[p].local) != KeyOf(s.procs[q].local)
    ensures Leads(gen, s, steps, t) && NoTriggers(steps) && BothAtWork(t, p, q)
    ensures t.procs[p].local.jobId == s.procs[p].local.jobId && t.procs[q].local.jobId == s.procs[q].local.jobId
  {
    MayWorkIsReady(gen, s, p);
    MayWorkIsReady(gen, s, q);
    var first, mid := GetsToWork(gen, s, p);
    var second;
    second, t := GetsToWork(gen, mid, q);
    LeadsOn(gen, s, first, mid, second, t);
    steps := first + second;
  }

  /** The key a ticked process is about to create. */
  function NewKey(gen: IdGen, p: Proc): Key
    requires p.Ticked?
  {
    (p.jobId, gen(p.jobId, Second(p.at)))
  }

  /** The check of pid, beside another process of its job that may yet get to work or is at work. */
  ghost predicate ChecksBeside(gen: IdGen, s: State, pid: nat, q: nat) {
    && pid in s.procs && s.procs[pid].Ticked? && q != pid
    && MayWork(s, q) && s.procs[q].local.jobId == s.procs[pid].jobId
    && NewKey(gen, s.procs[pid]) !in s.store && NewKey(gen, s.procs[pid]) != KeyOf(s.procs[q].local)
  }

  lemma CheckBesideAnotherOverlaps(gen: IdGen, s: State, pid: nat, q: nat) returns (steps: seq<Step>, t: State)
    requires Inv(gen, s) && ChecksBeside(gen, s, pid, q)
    requires s.procs[pid].overlap == Skip ==> !SomeRunning(s.store, s.procs[pid].jobId)
    ensures Leads(gen, s, [CheckOverlap(pid)] + steps, t) && NoTriggers(steps) && BothAtWork(t, pid, q)
    ensures t.procs[pid].local.jobId == t.procs[q].local.jobId == s.procs[pid].jobId
  {
    var next := Apply(gen, s, CheckOverlap(pid));
    LeadsOne(gen, s, CheckOverlap(pid));
    InvStep(gen, s, CheckOverlap(pid));
    steps, t := BothGetToWork(gen, next, pid, q);
    LeadsOn(gen, s, [CheckOverlap(pid)], next, steps, t);
  }

  /** Whatever the policy, a check for a new key beside such a process can lead to both at work together exactly when
      it is not a Skip check that sees Running: Queue and Allow never serialise, Skip does by that sight alone. */
  lemma CheckOverlapsIff(gen: IdGen, s: State, pid: nat, q: nat)
    requires Inv(gen, s) && ChecksBeside(gen, s, pid, q)
    ensures (exists steps, t ::
               Leads(gen, s, [CheckOverlap(pid)] + steps, t) && NoTriggers(steps) && BothAtWork(t, pid, q))
            <==> !(s.procs[pid].overlap == Skip && SomeRunning(s.store, s.procs[pid].jobId))
  {
    if !(s.procs[pid].overlap == Skip && SomeRunning(s.store, s.procs[pid].jobId)) {
      var steps, t := CheckBesideAnotherOverlaps(gen, s, pid, q);
    } else if steps, t :| Leads(gen, s, [CheckOverlap(pid)] + steps, t) && NoTriggers(steps) && BothAtWork(t, pid, q) {
      DroppedNeverWorks(gen, s, pid, q, steps, t);
    }
  }

  lemma DroppedNeverWorks(gen: IdGen, s: State, pid: nat, q: nat, steps: seq<Step>, t: State)
    requires Inv(gen, s) && pid in s.procs && s.procs[pid].Ticked?
    requires s.procs[pid].overlap == Skip && SomeRunning(s.store, s.procs[pid].jobId)
    requires Leads(gen, s, [CheckOverlap(pid)] + steps, t) && NoTriggers(steps)
    ensures !(pid in t.procs && t.procs[pid].Working?)
  {
    var all := [CheckOverlap(pid)] + steps;
    var states :| IsPath(gen, states, all) && states[0] == s && states[|all|] == t;
    PathStep(gen, states, all, 0);
    var rest := states[1..];
    forall i | 0 <= i < |steps| ensures Enabled(rest[i], steps[i]) && rest[i + 1] == Apply(gen, rest[i], steps[i]) {
      PathStep(gen, states, all, i + 1);
    }
    if pid in t.procs && t.procs[pid].Working? { MayWorkThroughout(gen, rest, steps, |steps|, pid); }
  }

  // ----- Skip is check-then-create -----

  /** Skip alone is not mutual exclusion: a second trigger checked before the first execution stores Running
      passes, and both executions of one job are at work together. */
  lemma SkipOverlaps(gen: IdGen) returns (steps: seq<Step>, last: State)
    requires gen("job", 0) != gen("job", 1)
    ensures Leads(gen, Start(SECOND), steps, last) && BothAtWork(last, 0, 1)
    ensures forall a | a in steps :: !a.Recover? && (a.Tick? ==> a.overlap == Skip && a.jobId == "job")
    ensures last.procs[0].local.jobId == "job" == last.procs[1].local.jobId
  {
    var mid := BothChecked(gen);
    var first := [TickOf(0, 0), CheckOverlap(0)] + [TickOf(1, SECOND), CheckOverlap(1)];
    LeadsKeepsInv(gen, Start(SECOND), first, mid);
    var more;
    more, last := BothGetToWork(gen, mid, 0, 1);
    LeadsOn(gen, Start(SECOND), first, mid, more, last);
    steps := first + more;
  }

  lemma LeadsKeepsInv(gen: IdGen, s: State, steps: seq<Step>, t: State)
    requires Init(s) && Leads(gen, s, steps, t)
    ensures Inv(gen, t)
  {
    var states :| IsPath(gen, states, steps) && states[0] == s && states[|steps|] == t;
    RunInv(gen, states, steps, |steps|);
  }

  function TickOf(pid: nat, at: Time): Step { Tick(pid, "n", "job", 1, Skip, "c", at) }

  /** Both triggers pass their check while nothing is stored. */
  lemma BothChecked(gen: IdGen) returns (s: State)
    ensures Leads(gen, Start(SECOND), [TickOf(0, 0), CheckOverlap(0)] + [TickOf(1, SECOND), CheckOverlap(1)], s)
    ensures s.store == map[] && 0 in s.procs && 1 in s.procs && s.procs[0].Creating? && s.procs[1].Creating?
    ensures forall i | i in {0, 1} ::
              var o := s.procs[i].local;
              o.jobId == "job" && o.id == gen("job", i) && KeyOf(s.procs[i].stored) == KeyOf(o)
  {
    var s0 := Start(SECOND);
    var s1 := Apply(gen, s0, TickOf(0, 0));
    var s2 := Apply(gen, s1, CheckOverlap(0));
    LeadsTwo(gen, s0, TickOf(0, 0), s1, CheckOverlap(0), s2);
    var s3 := Apply(gen, s2, TickOf(1, SECOND));
    s := Apply(gen, s3, CheckOverlap(1));
    LeadsTwo(gen, s2, TickOf(1, SECOND), s3, CheckOverlap(1), s);
    LeadsOn(gen, s0, [TickOf(0, 0), CheckOverlap(0)], s2, [TickOf(1, SECOND), CheckOverlap(1)], s);
  }
}
