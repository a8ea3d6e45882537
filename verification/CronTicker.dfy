/** The cron ticker: occurrence enumeration over an abstract schedule, and the live firing loop. */
module CronTicker {
  import opened Types

  const MAX_ITERATIONS: nat := 10000

  /** The active window; an absent bound does not restrict. */
  datatype Window = Window(start: Option<Time>, end: Option<Time>)

  predicate Within(w: Window, t: Time) {
    (w.start.Some? ==> w.start.value <= t) && (w.end.Some? ==> t <= w.end.value)
  }

  /** The schedule as its parser presents it: the set of its points, and the least point after an instant. */
  ghost predicate IsSchedule(point: Time -> bool, next: Time -> Time) {
    forall t :: t < next(t) && point(next(t)) && (forall u | t < u < next(t) :: !point(u))
  }

  function Nth(next: Time -> Time, start: Time, n: nat): Time {
    if n == 0 then start else next(Nth(next, start, n - 1))
  }

  /** The in-window schedule points of (start, end]. */
  ghost predicate IsOccurrence(point: Time -> bool, w: Window, start: Time, end: Time, t: Time) {
    && point(t) && start < t <= end
    && (w.start.Some? ==> w.start.value <= t) && (w.end.Some? ==> t <= w.end.value)
  }

  ghost predicate Enumerates(point: Time -> bool, w: Window, start: Time, end: Time, times: seq<Time>) {
    Ascending(times) && forall t :: t in times <==> IsOccurrence(point, w, start, end, t)
  }

  lemma {:induction false} NthAscends(point: Time -> bool, next: Time -> Time, start: Time, m: nat, n: nat)
    requires IsSchedule(point, next) && m <= n
    ensures m < n ==> Nth(next, start, m) < Nth(next, start, n)
    ensures start + (n - m) <= start + Nth(next, start, n) - Nth(next, start, m)
  {
    if m < n { NthAscends(point, next, start, m, n - 1); }
  }

  /** Lists the occurrences in (start, end], giving up after 10000 iterations. The result is exact, and it is
      an error exactly when the 10000th schedule point after `start` still lies before `end`. */
  method GetOccurrencesBetween(ghost point: Time -> bool, next: Time -> Time, w: Window, start: Time, end: Time)
    returns (result: Result<seq<Time>>)
    requires IsSchedule(point, next)
    ensures result.Err? <==> start < end && Nth(next, start, MAX_ITERATIONS) < end
    ensures result.Ok? ==> Enumerates(point, w, start, end, result.value)
  {
    var occurrences: seq<Time> := [];
    var current, iterations := start, 0;
    while current < end
      invariant 0 <= iterations <= MAX_ITERATIONS
      invariant current == Nth(next, start, iterations) && start <= current
      invariant iterations > 0 ==> current <= end
      invariant Ascending(occurrences)
      invariant forall t :: t in occurrences <==> IsOccurrence(point, w, start, current, t)
      decreases MAX_ITERATIONS - iterations
    {
      iterations := iterations + 1;
      if iterations > MAX_ITERATIONS { return Err; }
      var t := next(current);
      NthAscends(point, next, start, iterations, MAX_ITERATIONS);
      if end < t {
        assert forall u :: IsOccurrence(point, w, start, end, u) <==> IsOccurrence(point, w, start, current, u);
        return Ok(occurrences);
      }
      assert forall u :: IsOccurrence(point, w, start, t, u) <==>
          IsOccurrence(point, w, start, current, u) || (u == t && Within(w, t));
      forall i | 0 <= i < |occurrences| ensures occurrences[i] <= current {
        assert occurrences[i] in occurrences;
        assert IsOccurrence(point, w, start, current, occurrences[i]);
      }
      if Within(w, t) { occurrences := occurrences + [t]; }
      current := t;
    }
    NthAscends(point, next, start, iterations, MAX_ITERATIONS);
    result := Ok(occurrences);
  }

  /** The error condition counted: at least 10000 schedule points lie strictly between start and end. */
  lemma ErrorMeansTooManyPoints(point: Time -> bool, next: Time -> Time, start: Time, end: Time)
    requires IsSchedule(point, next)
    ensures start < end && Nth(next, start, MAX_ITERATIONS) < end
            <==> |set t | start < t < end && point(t)| >= 10000
  {
    CountPoints(point, next, start, end, MAX_ITERATIONS);
    NthAscends(point, next, start, 0, MAX_ITERATIONS);
  }

  ghost function PointsBetween(point: Time -> bool, start: Time, end: Time): set<Time> {
    set t | start < t < end && point(t)
  }

  lemma {:induction false} NthShift(next: Time -> Time, start: Time, n: nat)
    ensures Nth(next, start, n + 1) == Nth(next, next(start), n)
  {
    if n == 0 {
    } else {
      NthShift(next, start, n - 1);
    }
  }

  lemma PointsSplit(point: Time -> bool, next: Time -> Time, start: Time, end: Time)
    requires IsSchedule(point, next) && next(start) < end
    ensures PointsBetween(point, start, end) == {next(start)} + PointsBetween(point, next(start), end)
  {
  }

  lemma {:induction false} CountPoints(point: Time -> bool, next: Time -> Time, start: Time, end: Time, n: nat)
    requires IsSchedule(point, next) && n > 0
    ensures Nth(next, start, n) < end <==> |PointsBetween(point, start, end)| >= n
    decreases n
  {
    var first, all := next(start), PointsBetween(point, start, end);
    var rest := PointsBetween(point, first, end);
    if first < end {
      PointsSplit(point, next, start, end);
      if n > 1 {
        CountPoints(point, next, first, end, n - 1);
        NthShift(next, start, n - 1);
      }
    } else {
      assert all == {};
      NthAscends(point, next, start, 1, n);
    }
  }

  lemma {:induction false} AscendingUnique(a: seq<Time>, b: seq<Time>)
    requires Ascending(a) && Ascending(b) && forall t :: t in a <==> t in b
    ensures a == b
  {
    forall i | 0 <= i < |a| ensures a[i] in b { assert a[i] in a; }
    forall i | 0 <= i < |b| ensures b[i] in a { assert b[i] in b; }
    if a == [] {
    } else {
      assert a[0] in b;
    }
    if b == [] {
    } else {
      assert b[0] in a;
    }
    if a != [] && b != [] {
      var x, y := a[|a| - 1], b[|b| - 1];
      assert x in b && y in a;
      assert x == y;
      var a', b' := a[..|a| - 1], b[..|b| - 1];
      forall t ensures t in a' <==> t in b' {
        assert t in a' <==> t in a && t != x;
        assert t in b' <==> t in b && t != y;
      }
      AscendingUnique(a', b');
      assert a == a' + [x] && b == b' + [y];
    }
  }

  /** Adjacent ranges concatenate: two passes that meet at an instant list what one pass over both would. */
  lemma AdjacentRangesConcatenate(point: Time -> bool, w: Window, a: Time, b: Time, c: Time,
                                  first: seq<Time>, second: seq<Time>, whole: seq<Time>)
    requires a <= b <= c
    requires Enumerates(point, w, a, b, first) && Enumerates(point, w, b, c, second)
        && Enumerates(point, w, a, c, whole)
    ensures first + second == whole
  {
    var both := first + second;
    forall i, j | 0 <= i < j < |both| ensures both[i] < both[j] {
      if i < |first| && j >= |first| {
        assert both[i] in first && both[j] in second;
      }
    }
    forall t ensures t in both <==> t in whole {
      assert t in both <==> t in first || t in second;
    }
    AscendingUnique(both, whole);
  }

  // ----- The live loop -----

  /** The loop computes a next point from the time it reads, waits, and fires when its timer expires. `clock` is
      history: the time read last. `fired` logs scheduled time and firing time. Pauses, restarts of the wait and a
      full channel only drop what is being waited for. */
  datatype Loop = Loop(now: Time, clock: Time, waiting: Option<Time>, fired: seq<(Time, Time)>)

  datatype LoopStep = ReadClock | Fire | GiveUp | Pass(d: nat)

  predicate LoopEnabled(s: Loop, a: LoopStep) {
    match a
    case ReadClock => s.waiting.None?
    case Fire => s.waiting.Some? && s.waiting.value <= s.now
    case GiveUp => s.waiting.Some?
    case Pass(_) => true
  }

  function LoopApply(next: Time -> Time, w: Window, s: Loop, a: LoopStep): Loop
    requires LoopEnabled(s, a)
  {
    match a
    case ReadClock => s.(clock := s.now, waiting := if Within(w, next(s.now)) then Some(next(s.now)) else None)
    case Fire => s.(waiting := None, fired := s.fired + [(s.waiting.value, s.now)])
    case GiveUp => s.(waiting := None)
    case Pass(d) => s.(now := s.now + d)
  }

  /** States joined by enabled steps. */
  ghost predicate LoopPath(next: Time -> Time, w: Window, states: seq<Loop>, steps: seq<LoopStep>) {
    && |states| == |steps| + 1
    && forall i | 0 <= i < |steps| ::
         LoopEnabled(states[i], steps[i]) && states[i + 1] == LoopApply(next, w, states[i], steps[i])
  }

  ghost predicate LoopRun(next: Time -> Time, w: Window, states: seq<Loop>, steps: seq<LoopStep>) {
    LoopPath(next, w, states, steps) && states[0].waiting.None? && states[0].fired == []
  }

  /** The least schedule point after c. */
  ghost predicate IsLeastAfter(point: Time -> bool, c: Time, p: Time) {
    point(p) && c < p && forall u | c < u < p :: !point(u)
  }

  /** Every firing is for an in-window schedule point, at or after its time, and no point fires twice. */
  ghost predicate FiringsOk(point: Time -> bool, w: Window, s: Loop) {
    && (forall f | f in s.fired :: point(f.0) && Within(w, f.0) && f.0 <= f.1 <= s.now)
    && (forall i, j | 0 <= i < j < |s.fired| :: s.fired[i].0 < s.fired[j].0)
    && (s.waiting.Some? ==>
          point(s.waiting.value) && Within(w, s.waiting.value) && forall f | f in s.fired :: f.0 < s.waiting.value)
  }

  lemma {:induction false} LoopFiresEachPointOnce(point: Time -> bool, next: Time -> Time, w: Window,
                                                  states: seq<Loop>, steps: seq<LoopStep>, i: nat)
    requires IsSchedule(point, next) && LoopRun(next, w, states, steps) && i < |states|
    ensures FiringsOk(point, w, states[i])
  {
    if i == 0 {
    } else {
      LoopFiresEachPointOnce(point, next, w, states, steps, i - 1);
      var s, s' := states[i - 1], states[i];
      assert LoopEnabled(s, steps[i - 1]);
      assert forall f | f in s'.fired :: f in s.fired || (steps[i - 1].Fire? && f == (s.waiting.value, s.now));
      assert forall j | 0 <= j < |s.fired| :: s.fired[j] in s.fired;
    }
  }

  /** In every run, whatever the loop waits for is the least schedule point after the clock it read: none is skipped. */
  lemma {:induction false} NoPointSkipped(point: Time -> bool, next: Time -> Time, w: Window,
                                          states: seq<Loop>, steps: seq<LoopStep>, i: nat)
    requires IsSchedule(point, next) && LoopRun(next, w, states, steps) && i < |states| && states[i].waiting.Some?
    ensures IsLeastAfter(point, states[i].clock, states[i].waiting.value) && states[i].clock <= states[i].now
  {
    assert LoopEnabled(states[i - 1], steps[i - 1]);
    if steps[i - 1].Pass? { NoPointSkipped(point, next, w, states, steps, i - 1); }
  }

  /** A reading of the clock makes the loop wait exactly when the least point after it is in the window. */
  lemma WaitsIff(point: Time -> bool, next: Time -> Time, w: Window, s: Loop, p: Time)
    requires IsSchedule(point, next) && LoopEnabled(s, ReadClock)
    ensures LoopApply(next, w, s, ReadClock).waiting == Some(p)
            <==> IsLeastAfter(point, s.now, p)
                 && !(w.start.Some? && p < w.start.value) && !(w.end.Some? && w.end.value < p)
  {
    assert IsLeastAfter(point, s.now, next(s.now));
    assert IsLeastAfter(point, s.now, p) ==> !(p < next(s.now)) && !(next(s.now) < p);
  }

  /** From one reading of the clock, without another and without giving up, the next firing is for p. */
  ghost predicate FiresNext(next: Time -> Time, w: Window, s: Loop, p: Time, states: seq<Loop>, steps: seq<LoopStep>) {
    && LoopPath(next, w, states, steps) && states[0] == s && |steps| >= 2
    && steps[0] == ReadClock && steps[|steps| - 1] == Fire
    && (forall i | 0 < i < |steps| - 1 :: steps[i].Pass?)
    && states[|steps|].fired == s.fired + [(p, states[|steps|].now)]
  }

  /** From a clock reading at c, some run that does not give up fires p next exactly when p is the least point after c
      and lies in the window. */
  lemma FiresNextIff(point: Time -> bool, next: Time -> Time, w: Window, s: Loop, p: Time)
    requires IsSchedule(point, next) && s.waiting.None?
    ensures (exists states, steps :: FiresNext(next, w, s, p, states, steps))
            <==> IsLeastAfter(point, s.now, p)
                 && !(w.start.Some? && p < w.start.value) && !(w.end.Some? && w.end.value < p)
  {
    WaitsIff(point, next, w, s, p);
    var read := LoopApply(next, w, s, ReadClock);
    if read.waiting == Some(p) {
      var late := LoopApply(next, w, read, LoopStep.Pass(p - s.now));
      var done := LoopApply(next, w, late, Fire);
      assert FiresNext(next, w, s, p, [s, read, late, done], [ReadClock, LoopStep.Pass(p - s.now), Fire]);
    }
    if states: seq<Loop>, steps: seq<LoopStep> :| FiresNext(next, w, s, p, states, steps) {
      PassesKeepWait(next, w, states, steps, |steps| - 1);
      assert LoopEnabled(states[|steps| - 1], steps[|steps| - 1]);
      assert (s.fired + [(p, states[|steps|].now)])[|s.fired|].0 == p;
      assert states[1] == read;
    }
  }

  lemma {:induction false} PassesKeepWait(next: Time -> Time, w: Window, states: seq<Loop>, steps: seq<LoopStep>,
                                          i: nat)
    requires LoopPath(next, w, states, steps) && 1 <= i < |steps|
    requires forall j | 0 < j < |steps| - 1 :: steps[j].Pass?
    ensures states[i].waiting == states[1].waiting && states[i].fired == states[1].fired
  {
    if i == 1 {
    } else {
      PassesKeepWait(next, w, states, steps, i - 1);
      assert LoopEnabled(states[i - 1], steps[i - 1]);
    }
  }
}
