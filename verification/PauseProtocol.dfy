/** Pausing a ticker: callers set a flag and send on a one-slot channel under the lock; the loop reads the flag,
    waits on the channel, and later writes what it received back to the flag. The cron loop writes the value it
    received; the interval and one-shot loops write its negation when they waited as paused. */
module PauseProtocol {
  import opened Types

  datatype TickerKind = Cron | Interval

  /** The loop is about to read the flag, waits as paused, waits for its timer, has received a value it still has
      to write, or has returned. */
  datatype Pc = Top | Blocked | Waiting | Owing(value: bool) | Ended

  /** History: `last` is the last command the channel accepted, `negated` whether the loop took the last one it
      received in negated form. */
  datatype State = State(paused: bool, slot: Option<bool>, pc: Pc, last: bool, negated: bool)

  datatype Step = Pause | Resume | ReadFlag | Receive | Wake | WriteBack | End

  predicate Enabled(s: State, a: Step) {
    match a
    case ReadFlag => s.pc.Top?
    case Receive => (s.pc.Blocked? || s.pc.Waiting?) && s.slot.Some?
    case Wake => s.pc.Waiting?
    case WriteBack => s.pc.Owing?
    case End => !s.pc.Owing?
    case _ => true
  }

  function Apply(kind: TickerKind, s: State, a: Step): State
    requires Enabled(s, a)
  {
    match a
    case Pause => if s.paused || s.slot.Some? then s else s.(slot := Some(true), paused := true, last := true)
    case Resume => if !s.paused || s.slot.Some? then s else s.(slot := Some(false), paused := false, last := false)
    case ReadFlag => s.(pc := if s.paused then Blocked else Waiting)
    case Receive =>
      var negate := kind == Interval && s.pc.Blocked?;
      s.(slot := None, pc := Owing(if negate then !s.slot.value else s.slot.value), negated := negate)
    case Wake => s.(pc := Top)
    case WriteBack => s.(paused := s.pc.value, pc := Top)
    case End => s.(pc := Ended)
  }

  const INITIAL := State(false, None, Top, false, false)

  ghost predicate IsRun(kind: TickerKind, states: seq<State>, steps: seq<Step>) {
    && |states| == |steps| + 1 && states[0] == INITIAL
    && forall i | 0 <= i < |steps| :: Enabled(states[i], steps[i]) && states[i + 1] == Apply(kind, states[i], steps[i])
  }

  /** Nothing in the slot and nothing owed to the flag. */
  predicate Quiet(s: State) { s.slot.None? && !s.pc.Owing? }

  /** The last accepted command is in the slot, or owed, or written; in the last two cases possibly negated. */
  predicate Inv(s: State) {
    && (s.slot.Some? ==> s.slot.value == s.last)
    && (s.slot.None? && s.pc.Owing? ==> s.pc.value == (s.last != s.negated))
    && (Quiet(s) ==> s.paused == (s.last != s.negated))
  }

  lemma {:induction false} RunInv(kind: TickerKind, states: seq<State>, steps: seq<Step>, i: nat)
    requires IsRun(kind, states, steps) && i < |states|
    ensures Inv(states[i])
    ensures kind == Cron ==> !states[i].negated
  {
    if i == 0 {
    } else {
      RunInv(kind, states, steps, i - 1);
      assert Enabled(states[i - 1], steps[i - 1]);
    }
  }

  /** Cron: in every interleaving, once the slot is empty and no write is owed, the flag equals the last
      command the channel accepted. */
  lemma CronFlagIsLastCommand(states: seq<State>, steps: seq<Step>, i: nat)
    requires IsRun(Cron, states, steps) && i < |states| && Quiet(states[i])
    ensures states[i].paused == states[i].last
  {
    RunInv(Cron, states, steps, i);
  }

  /** A command is accepted exactly when it would change the flag and the slot is empty; a full slot keeps what it
      holds, and a refused command changes nothing. */
  lemma AcceptedIff(kind: TickerKind, s: State)
    ensures var p := Apply(kind, s, Pause);
            && (p != s <==> !s.paused && s.slot.None?)
            && (p != s ==> p.slot == Some(true) && p.paused && p.last && p.pc == s.pc)
    ensures var r := Apply(kind, s, Resume);
            && (r != s <==> s.paused && s.slot.None?)
            && (r != s ==> r.slot == Some(false) && !r.paused && !r.last && r.pc == s.pc)
  {
  }

  // ----- The interval and one-shot tickers -----

  /** The last receive before point i, if any, happened while the loop waited as paused. */
  ghost predicate TookBlocked(states: seq<State>, steps: seq<Step>, i: nat)
    requires |states| == |steps| + 1 && i < |states|
  {
    exists r | 0 <= r < i ::
      steps[r].Receive? && states[r].pc.Blocked? && forall m | r < m < i :: !steps[m].Receive?
  }

  lemma {:induction false} NegatedIffBlocked(states: seq<State>, steps: seq<Step>, i: nat)
    requires IsRun(Interval, states, steps) && i < |states|
    ensures states[i].negated <==> TookBlocked(states, steps, i)
  {
    if i == 0 {
    } else {
      NegatedIffBlocked(states, steps, i - 1);
      assert Enabled(states[i - 1], steps[i - 1]);
      if steps[i - 1].Receive? {
        assert TookBlocked(states, steps, i) <==> states[i - 1].pc.Blocked?;
      } else {
        TookBlockedStays(states, steps, i);
      }
    }
  }

  lemma TookBlockedStays(states: seq<State>, steps: seq<Step>, i: nat)
    requires |states| == |steps| + 1 && 0 < i < |states| && !steps[i - 1].Receive?
    ensures TookBlocked(states, steps, i) <==> TookBlocked(states, steps, i - 1)
  {
    if TookBlocked(states, steps, i) {
      var r :| 0 <= r < i && steps[r].Receive? && states[r].pc.Blocked? && forall m | r < m < i :: !steps[m].Receive?;
      assert r < i - 1;
    }
  }

  /** The flag equals the last command exactly when the loop took that command while it was not waiting as
      paused. */
  lemma IntervalFlagIsLastCommandIff(states: seq<State>, steps: seq<Step>, i: nat)
    requires IsRun(Interval, states, steps) && i < |states| && Quiet(states[i])
    ensures states[i].paused == states[i].last <==> !TookBlocked(states, steps, i)
  {
    RunInv(Interval, states, steps, i);
    NegatedIffBlocked(states, steps, i);
  }

  /** A resume accepted while the loop waits as paused is on its way to being written as a pause. */
  predicate ResumeBackfires(s: State) {
    (s.pc.Blocked? && s.slot == Some(false) && !s.paused) || s.pc == Owing(true) || s.pc.Ended?
  }

  /** In every interleaving, a resume that the channel of a ticker waiting as paused accepts is written back as a
      pause: nothing a caller does before that write prevents it. */
  lemma {:induction false} BlockedResumeIsLost(states: seq<State>, steps: seq<Step>, i: nat, j: nat)
    requires IsRun(Interval, states, steps) && i < j < |states|
    requires states[i].pc.Blocked? && states[i].slot.None? && states[i].paused && steps[i].Resume?
    requires forall m | i < m < j :: !steps[m].WriteBack?
    ensures ResumeBackfires(states[j])
    ensures j < |steps| && steps[j].WriteBack? ==> states[j + 1].paused
  {
    assert Enabled(states[j - 1], steps[j - 1]) && states[j] == Apply(Interval, states[j - 1], steps[j - 1]);
    if j == i + 1 {
    } else {
      BlockedResumeIsLost(states, steps, i, j - 1);
    }
    if j < |steps| { assert Enabled(states[j], steps[j]); }
  }

  /** One pause call, whose flag the loop reads before its message: the ticker ends up not paused. */
  lemma IntervalPauseUndone() returns (states: seq<State>, steps: seq<Step>)
    ensures IsRun(Interval, states, steps) && Quiet(states[|steps|])
    ensures steps == [Pause, ReadFlag, Receive, WriteBack]
    ensures states[|steps|].last && !states[|steps|].paused
  {
    steps := [Pause, ReadFlag, Receive, WriteBack];
    var s1 := State(true, Some(true), Top, true, false);
    var s2 := State(true, Some(true), Blocked, true, false);
    var s3 := State(true, None, Owing(false), true, true);
    states := [INITIAL, s1, s2, s3, State(false, None, Top, true, true)];
  }

  /** A pause and a resume, one after the other and both accepted: the ticker ends up paused. */
  lemma IntervalResumeUndone() returns (states: seq<State>, steps: seq<Step>)
    ensures IsRun(Interval, states, steps) && Quiet(states[|steps|])
    ensures steps == [ReadFlag, Pause, Receive, WriteBack, ReadFlag, Resume, Receive, WriteBack]
    ensures !states[|steps|].last && states[|steps|].paused
  {
    var s1 := State(false, None, Waiting, false, false);
    var s2 := State(true, Some(true), Waiting, true, false);
    var s3 := State(true, None, Owing(true), true, false);
    var s4 := State(true, None, Top, true, false);
    var s5 := State(true, None, Blocked, true, false);
    var s6 := State(false, Some(false), Blocked, false, false);
    var s7 := State(false, None, Owing(true), false, true);
    steps := [ReadFlag, Pause, Receive, WriteBack, ReadFlag, Resume, Receive, WriteBack];
    states := [INITIAL, s1, s2, s3, s4, s5, s6, s7, State(true, None, Top, false, true)];
  }
}
