/** Runs showing that the hypotheses of the protocol theorems cannot be dropped. */
module ProtocolLimits {
  import opened Types
  import opened Records
  import opened Protocol
  import UpdatePolicies

  /** Some path of these steps leads from one state to the other. */
  ghost predicate Leads(gen: IdGen, s: State, steps: seq<Step>, t: State) {
    exists states :: IsPath(gen, states, steps) && states[0] == s && states[|steps|] == t
  }

  lemma LeadsOne(gen: IdGen, s: State, a: Step)
    requires Enabled(s, a)
    ensures Leads(gen, s, [a], Apply(gen, s, a))
  {
    assert IsPath(gen, [s, Apply(gen, s, a)], [a]);
  }

  lemma LeadsOn(gen: IdGen, s: State, steps: seq<Step>, t: State, more: seq<Step>, u: State)
    requires Leads(gen, s, steps, t) && Leads(gen, t, more, u)
    ensures Leads(gen, s, steps + more, u)
  {
    var front :| IsPath(gen, front, steps) && front[0] == s && front[|steps|] == t;
    var back :| IsPath(gen, back, more) && back[0] == t && back[|more|] == u;
    JoinPaths(gen, front, steps, back, more);
  }

  lemma JoinPaths(gen: IdGen, front: seq<State>, steps: seq<Step>, back: seq<State>, more: seq<Step>)
    requires IsPath(gen, front, steps) && IsPath(gen, back, more) && front[|steps|] == back[0]
    ensures IsPath(gen, front + back[1..], steps + more)
  {
    var states, all := front + back[1..], steps + more;
    forall i | 0 <= i < |all|
      ensures Enabled(states[i], all[i]) && states[i + 1] == Apply(gen, states[i], all[i])
    {
      if i < |steps| {
        assert Enabled(front[i], steps[i]);
      } else {
        assert Enabled(back[i - |steps|], more[i - |steps|]);
      }
    }
  }

  lemma LeadsTwo(gen: IdGen, s: State, a: Step, t: State, b: Step, u: State)
    requires Enabled(s, a) && t == Apply(gen, s, a) && Enabled(t, b) && u == Apply(gen, t, b)
    ensures Leads(gen, s, [a, b], u)
  {
    assert IsPath(gen, [s, t, u], [a, b]);
  }

  function Start(now: Time): State { State(now, map[], map[], [], {}) }

  /** The state in which one occurrence is stored. */
  function With(now: Time, stored: Occurrence, procs: map<nat, Proc>, started: seq<Occurrence>): State {
    State(now, map[KeyOf(stored) := stored], procs, started, if started == [] then {} else {KeyOf(stored)})
  }

  function Due(gen: IdGen, now: Time): Occurrence { RecoveryRecord(gen, "job", 1, now, now) }

  function AtWork(o: Occurrence, now: Time): Occurrence { o.(status := Running, startTime := Some(now)) }

  function Finished(o: Occurrence, now: Time): Occurrence { o.(status := Completed, endTime := Some(now)) }

  /** A recovery pass stores an occurrence that is due now. */
  lemma Stored(gen: IdGen, now: Time)
    ensures Leads(gen, Start(now), [Recover(0, "n", "job", 1, now), Create(0)],
                  With(now, Due(gen, now), map[0 := Won("n", Due(gen, now))], []))
  {
    var s1 := Apply(gen, Start(now), Recover(0, "n", "job", 1, now));
    var s2 := Apply(gen, s1, Create(0));
    assert s2.procs == map[0 := Won("n", Due(gen, now))];
    LeadsTwo(gen, Start(now), Recover(0, "n", "job", 1, now), s1, Create(0), s2);
  }

  /** Its closure begins and stores Running, whatever other processes hold. */
  lemma Launched(gen: IdGen, now: Time, others: map<nat, Proc>)
    ensures var o, w := Due(gen, now), AtWork(Due(gen, now), now);
            Leads(gen, With(now, o, others[0 := Won("n", o)], []), [Begin(0), WriteRunning(0, true)],
                  With(now, w, others[0 := Working("n", w)], [w]))
  {
    var s0 := With(now, Due(gen, now), others[0 := Won("n", Due(gen, now))], []);
    var s1 := Apply(gen, s0, Begin(0));
    var s2 := Apply(gen, s1, WriteRunning(0, true));
    LeadsTwo(gen, s0, Begin(0), s1, WriteRunning(0, true), s2);
  }

  /** The execution finishes and stores Completed, whatever other processes hold. */
  lemma Completes(gen: IdGen, start: Time, now: Time, others: map<nat, Proc>)
    requires 0 !in others
    ensures var w := AtWork(Due(gen, start), start);
            Leads(gen, With(now, w, others[0 := Working("n", w)], [w]), [FinishTasks(0, false), WriteFinal(0, true)],
                  With(now, Finished(w, now), others, [w]))
  {
    var w := AtWork(Due(gen, start), start);
    var s0 := With(now, w, others[0 := Working("n", w)], [w]);
    var s1 := Apply(gen, s0, FinishTasks(0, false));
    var s2 := Apply(gen, s1, WriteFinal(0, true));
    assert s2.procs == others;
    LeadsTwo(gen, s0, FinishTasks(0, false), s1, WriteFinal(0, true), s2);
  }

  // ----- An execution one nanosecond too long -----

  const LATE: Time := HOUR + 1

  /** A reaper on another node lists the execution one nanosecond after its hour is up. */
  lemma ListedLate(gen: IdGen)
    ensures var w := AtWork(Due(gen, 0), 0);
            Leads(gen, With(0, w, map[0 := Working("n", w)], [w]), [Advance(LATE), ReapSnapshot(1, "m", LATE, [w])],
                  With(LATE, w, map[1 := Reaping("m", [w])][0 := Working("n", w)], [w]))
  {
    var w := AtWork(Due(gen, 0), 0);
    var s0 := With(0, w, map[0 := Working("n", w)], [w]);
    var s1 := With(LATE, w, map[0 := Working("n", w)], [w]);
    assert s1 == Apply(gen, s0, Advance(LATE));
    assert ListsStale(s1.store, LATE - HOUR, [w]) by { assert w in [w]; }
    var s2 := Apply(gen, s1, ReapSnapshot(1, "m", LATE, [w]));
    assert s2.procs == map[1 := Reaping("m", [w])][0 := Working("n", w)];
    LeadsTwo(gen, s0, Advance(LATE), s1, ReapSnapshot(1, "m", LATE, [w]), s2);
  }

  /** One nanosecond over the hour is enough: a reaper lists the live execution, the execution stores
      Completed, and the reaper then writes Failed_Stale over it. */
  lemma OverdueExecutionIsOverwritten(gen: IdGen) returns (before: State, after: State, k: Key)
    ensures exists steps :: Leads(gen, Start(0), steps, before)
    ensures before.now == HOUR + 1 && k in before.store && before.store[k].status == Completed
    ensures before.store[k].startTime == Some(0)
    ensures Leads(gen, before, [ReapWrite(1, true)], after)
    ensures k in after.store && after.store[k].status == FailedStale
  {
    var w := AtWork(Due(gen, 0), 0);
    k := KeyOf(w);
    before := With(LATE, Finished(w, LATE), map[1 := Reaping("m", [w])], [w]);
    after := Apply(gen, before, ReapWrite(1, true));
    LeadsOne(gen, before, ReapWrite(1, true));
    OverdueRun(gen);
  }

  lemma StartedRun(gen: IdGen) returns (steps: seq<Step>)
    ensures var w := AtWork(Due(gen, 0), 0);
            Leads(gen, Start(0), steps, With(0, w, map[0 := Working("n", w)], [w]))
  {
    var o, w := Due(gen, 0), AtWork(Due(gen, 0), 0);
    var a, b := [Recover(0, "n", "job", 1, 0), Create(0)], [Begin(0), WriteRunning(0, true)];
    Stored(gen, 0);
    Launched(gen, 0, map[]);
    LeadsOn(gen, Start(0), a, With(0, o, map[0 := Won("n", o)], []), b, With(0, w, map[0 := Working("n", w)], [w]));
    steps := a + b;
  }

  lemma OverdueRun(gen: IdGen)
    ensures var w := AtWork(Due(gen, 0), 0);
            exists steps :: Leads(gen, Start(0), steps, With(LATE, Finished(w, LATE), map[1 := Reaping("m", [w])], [w]))
  {
    var w := AtWork(Due(gen, 0), 0);
    var s4 := With(0, w, map[0 := Working("n", w)], [w]);
    var s6 := With(LATE, w, map[1 := Reaping("m", [w])][0 := Working("n", w)], [w]);
    var s8 := With(LATE, Finished(w, LATE), map[1 := Reaping("m", [w])], [w]);
    var c, d := [Advance(LATE), ReapSnapshot(1, "m", LATE, [w])], [FinishTasks(0, false), WriteFinal(0, true)];
    var ab := StartedRun(gen);
    ListedLate(gen);
    LeadsOn(gen, Start(0), ab, s4, c, s6);
    Completes(gen, 0, LATE, map[1 := Reaping("m", [w])]);
    LeadsOn(gen, Start(0), ab + c, s6, d, s8);
  }

  // ----- An update that reads its clock before it lists -----

  /** An update reads its clock at 0 and lists at 1, after an occurrence due at 1 was stored. */
  lemma ListedInTheRace(gen: IdGen)
    ensures var o := Due(gen, 1);
            Leads(gen, With(1, o, map[0 := Won("n", o)], []), [UpdateSnapshot(1, "m", "job", Immediate, 0, [o])],
                  With(1, o, map[1 := Updating("m", [o])][0 := Won("n", o)], []))
  {
    var o := Due(gen, 1);
    var snap := UpdateSnapshot(1, "m", "job", Immediate, 0, [o]);
    assert UpdatePolicies.CancelList(Immediate, [o], 0) == [o] by {
      assert UpdatePolicies.Filter(Immediate, [o], 0, 0) == [];
    }
    var s0 := With(1, o, map[0 := Won("n", o)], []);
    assert UpdatePolicies.ListsPending(s0.store, "job", [o]) by { assert o in [o]; }
    assert Apply(gen, s0, snap).procs == map[1 := Updating("m", [o])][0 := Won("n", o)];
    LeadsOne(gen, s0, snap);
  }

  /** An immediate update that reads its clock one nanosecond before listing cancels an occurrence that
      fell due in between, after that occurrence has already completed. */
  lemma RacedUpdateCancelsCompleted(gen: IdGen) returns (before: State, after: State, k: Key)
    ensures exists steps, o ::
              UpdateSnapshot(1, "m", "job", Immediate, 0, [o]) in steps && Leads(gen, Start(1), steps, before)
    ensures before.now == 1 && k in before.store && before.store[k].status == Completed
    ensures Leads(gen, before, [UpdateCancel(1, true)], after)
    ensures k in after.store && after.store[k].status == JobStatus.Canceled
  {
    var o, w := Due(gen, 1), AtWork(Due(gen, 1), 1);
    k := KeyOf(o);
    before := With(1, Finished(w, 1), map[1 := Updating("m", [o])], [w]);
    after := Apply(gen, before, UpdateCancel(1, true));
    LeadsOne(gen, before, UpdateCancel(1, true));
    var steps := RacedRun(gen);
  }

  lemma RacedRun(gen: IdGen) returns (steps: seq<Step>)
    ensures var o, w := Due(gen, 1), AtWork(Due(gen, 1), 1);
            && UpdateSnapshot(1, "m", "job", Immediate, 0, [o]) in steps
            && Leads(gen, Start(1), steps, With(1, Finished(w, 1), map[1 := Updating("m", [o])], [w]))
  {
    var o, w := Due(gen, 1), AtWork(Due(gen, 1), 1);
    var others: map<nat, Proc> := map[1 := Updating("m", [o])];
    var s3 := With(1, o, others[0 := Won("n", o)], []);
    var s5 := With(1, w, others[0 := Working("n", w)], [w]);
    var s7 := With(1, Finished(w, 1), others, [w]);
    var c, d := [Begin(0), WriteRunning(0, true)], [FinishTasks(0, false), WriteFinal(0, true)];
    var ab := RacedListing(gen);
    Launched(gen, 1, others);
    LeadsOn(gen, Start(1), ab, s3, c, s5);
    Completes(gen, 1, 1, others);
    LeadsOn(gen, Start(1), ab + c, s5, d, s7);
    steps := ab + c + d;
    assert steps[2] == ab[2];
  }

  lemma RacedListing(gen: IdGen) returns (steps: seq<Step>)
    ensures var o := Due(gen, 1);
            && |steps| == 3 && steps[2] == UpdateSnapshot(1, "m", "job", Immediate, 0, [o])
            && Leads(gen, Start(1), steps, With(1, o, map[1 := Updating("m", [o])][0 := Won("n", o)], []))
  {
    var o := Due(gen, 1);
    var a, b := [Recover(0, "n", "job", 1, 1), Create(0)], [UpdateSnapshot(1, "m", "job", Immediate, 0, [o])];
    Stored(gen, 1);
    ListedInTheRace(gen);
    LeadsOn(gen, Start(1), a, With(1, o, map[0 := Won("n", o)], []), b,
      With(1, o, map[1 := Updating("m", [o])][0 := Won("n", o)], []));
    steps := a + b;
  }

  // ----- A graceful update that lists twice -----

  /** It reads its clock at 0 and finds nothing ahead at 1; an occurrence due at 1 is stored before it lists
      again. */
  lemma RelistedInTheRace(gen: IdGen) returns (steps: seq<Step>)
    ensures var o := Due(gen, 1);
            Leads(gen, Start(1), steps, With(1, o, map[1 := Updating("m", [o])][0 := Won("n", o)], []))
            && |steps| == 4 && steps[0] == UpdateSnapshot(1, "m", "job", Graceful, 0, [])
  {
    var o := Due(gen, 1);
    var snap, recover := UpdateSnapshot(1, "m", "job", Graceful, 0, []), Recover(0, "n", "job", 1, 1);
    var s0 := Start(1);
    var s1 := s0.(procs := map[1 := Relisting("m", "job", 0)]);
    assert Apply(gen, s0, snap).procs == s1.procs;
    var s2 := Apply(gen, s1, recover);
    LeadsTwo(gen, s0, snap, s1, recover, s2);
    StoredAndRelisted(gen, s2);
    LeadsOn(gen, s0, [snap, recover], s2, [Create(0), Relist(1, [o])],
            With(1, o, map[1 := Updating("m", [o])][0 := Won("n", o)], []));
    steps := [snap, recover] + [Create(0), Relist(1, [o])];
  }

  lemma StoredAndRelisted(gen: IdGen, s: State)
    requires var o := Due(gen, 1);
             s == Start(1).(procs := map[1 := Relisting("m", "job", 0)][0 := Creating("n", o, o)])
    ensures var o := Due(gen, 1);
            Leads(gen, s, [Create(0), Relist(1, [o])], With(1, o, map[1 := Updating("m", [o])][0 := Won("n", o)], []))
  {
    var o := Due(gen, 1);
    var mid := With(1, o, map[1 := Relisting("m", "job", 0)][0 := Won("n", o)], []);
    assert Apply(gen, s, Create(0)).procs == mid.procs;
    assert UpdatePolicies.ListsPending(mid.store, "job", [o]) by { assert o in [o]; }
    assert UpdatePolicies.CancelList(Immediate, [o], 0) == [o] by {
      assert UpdatePolicies.Filter(Immediate, [o], 0, 0) == [];
    }
    var last := With(1, o, map[1 := Updating("m", [o])][0 := Won("n", o)], []);
    assert Apply(gen, mid, Relist(1, [o])).procs == last.procs;
    LeadsTwo(gen, s, Create(0), mid, Relist(1, [o]), last);
  }

  /** A graceful update that lists twice can cancel the earliest pending slot, though its policy's set over the
      store it cancels from is empty. */
  lemma RacedGracefulCancelsEarliest(gen: IdGen) returns (before: State, after: State, k: Key)
    ensures exists steps ::
              |steps| == 4 && steps[0] == UpdateSnapshot(1, "m", "job", Graceful, 0, [])
                && Leads(gen, Start(1), steps, before)
    ensures k in before.store && before.store[k].status == Pending
    ensures UpdatePolicies.CancelSet(Graceful, before.store, "job", 0) == {}
    ensures Leads(gen, before, [UpdateCancel(1, true)], after)
    ensures k in after.store && after.store[k].status == JobStatus.Canceled
  {
    var o := Due(gen, 1);
    k := KeyOf(o);
    before := With(1, o, map[1 := Updating("m", [o])][0 := Won("n", o)], []);
    after := Apply(gen, before, UpdateCancel(1, true));
    LeadsOne(gen, before, UpdateCancel(1, true));
    var steps := RelistedInTheRace(gen);
  }
}
