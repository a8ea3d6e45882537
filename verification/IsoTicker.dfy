/** The interval ticker: enumeration of startTime + k*interval, and the loop that fires run after run. */
module IsoTicker {
  import opened Types
  import opened CronTicker

  /** The constructor demands a positive interval; `repetitions` limits runs only when positive. */
  datatype Iso = Iso(interval: Time, startTime: Time, repetitions: int, window: Window)

  predicate Valid(t: Iso) { t.interval > 0 }

  function Nominal(t: Iso, k: int): Time { t.startTime + k * t.interval }

  predicate Allowed(t: Iso, k: int) { 0 <= k && (t.repetitions > 0 ==> k < t.repetitions) }

  /** The k-th run, if the ticker may make it, is scheduled in [start, end) and inside the window. */
  ghost predicate IsRunTime(t: Iso, start: Time, end: Time, x: Time) {
    && start <= x < end
    && (t.window.start.Some? ==> t.window.start.value <= x) && (t.window.end.Some? ==> x <= t.window.end.value)
    && exists k :: Allowed(t, k) && x == Nominal(t, k)
  }

  ghost predicate ListsRuns(t: Iso, start: Time, end: Time, times: seq<Time>) {
    Ascending(times) && forall x :: x in times <==> IsRunTime(t, start, end, x)
  }

  lemma NominalAscends(t: Iso, j: int, k: int)
    requires Valid(t)
    ensures j < k <==> Nominal(t, j) < Nominal(t, k)
    ensures j == k <==> Nominal(t, j) == Nominal(t, k)
    ensures Nominal(t, j + 1) == Nominal(t, j) + t.interval
  {
    assert (k - j) * t.interval == k * t.interval - j * t.interval;
    if j < k { assert (k - j) * t.interval > 0; }
    if k < j { assert (j - k) * t.interval > 0; }
  }

  /** Lists the runs in [start, end). The result is exact, and it is an error exactly when the walk would pass
      10000 intervals before `end` without the repetition limit stopping it. */
  method GetOccurrencesBetween(t: Iso, start: Time, end: Time) returns (result: Result<seq<Time>>)
    requires Valid(t)
    ensures result.Err? <==>
              Nominal(t, MAX_ITERATIONS) < end && (t.repetitions <= 0 || t.repetitions > MAX_ITERATIONS)
    ensures result.Ok? ==> ListsRuns(t, start, end, result.value)
  {
    var occurrences: seq<Time> := [];
    var current, count := t.startTime, 0;
    while current < end
      invariant 0 <= count <= MAX_ITERATIONS && current == Nominal(t, count)
      invariant t.repetitions > 0 ==> count <= t.repetitions
      invariant count > 0 ==> Nominal(t, count - 1) < end
      invariant Listed(t, start, end, count, occurrences)
      decreases MAX_ITERATIONS + 1 - count
    {
      NominalAscends(t, count, MAX_ITERATIONS);
      if t.repetitions > 0 && count >= t.repetitions { break; }
      ListedGrows(t, start, end, count, occurrences);
      if start <= current && Within(t.window, current) { occurrences := occurrences + [current]; }
      current := current + t.interval;
      count := count + 1;
      if count > MAX_ITERATIONS { return Err; }
    }
    NominalAscends(t, count, MAX_ITERATIONS);
    ListedAll(t, start, end, count, occurrences);
    result := Ok(occurrences);
  }

  /** The runs numbered below `count` have been listed. */
  ghost predicate Listed(t: Iso, start: Time, end: Time, count: int, times: seq<Time>) {
    && Ascending(times)
    && (forall x | x in times :: x < Nominal(t, count) && IsRunTime(t, start, end, x))
    && (forall k | 0 <= k < count ::
         start <= Nominal(t, k) && Within(t.window, Nominal(t, k)) ==> Nominal(t, k) in times)
  }

  lemma ListedGrows(t: Iso, start: Time, end: Time, count: nat, times: seq<Time>)
    requires Valid(t) && Listed(t, start, end, count, times) && Allowed(t, count) && Nominal(t, count) < end
    ensures var x := Nominal(t, count);
            Listed(t, start, end, count + 1, if start <= x && Within(t.window, x) then times + [x] else times)
  {
    NominalAscends(t, count, count + 1);
    forall i | 0 <= i < |times| ensures times[i] < Nominal(t, count) { assert times[i] in times; }
  }

  lemma ListedAll(t: Iso, start: Time, end: Time, count: nat, times: seq<Time>)
    requires Valid(t) && Listed(t, start, end, count, times)
    requires end <= Nominal(t, count) || (t.repetitions > 0 && count >= t.repetitions)
    ensures ListsRuns(t, start, end, times)
  {
    forall x | IsRunTime(t, start, end, x) ensures x in times {
      var k :| Allowed(t, k) && x == Nominal(t, k);
      NominalAscends(t, k, count);
    }
  }

  /** Adjacent ranges concatenate. */
  lemma AdjacentRunsConcatenate(t: Iso, a: Time, b: Time, c: Time, first: seq<Time>, second: seq<Time>,
      whole: seq<Time>)
    requires a <= b <= c
    requires ListsRuns(t, a, b, first) && ListsRuns(t, b, c, second) && ListsRuns(t, a, c, whole)
    ensures first + second == whole
  {
    var both := first + second;
    forall i, j | 0 <= i < j < |both| ensures both[i] < both[j] {
      if i < |first| && j >= |first| {
        assert both[i] in first && both[j] in second;
      }
    }
    forall x ensures x in both <==> x in whole {
      assert x in both <==> x in first || x in second;
    }
    AscendingUnique(both, whole);
  }

  // ----- The live loop -----

  /** `fired` logs scheduled time and firing time of each run; a full channel loses the tick but counts it. */
  datatype Loop = Loop(now: Time, runCount: nat, waiting: Option<Time>, returned: bool, fired: seq<(Time, Time)>)

  datatype LoopStep = ReadClock | Fire | GiveUp | Pass(d: nat)

  predicate LoopEnabled(s: Loop, a: LoopStep) {
    match a
    case ReadClock => !s.returned && s.waiting.None?
    case Fire => !s.returned && s.waiting.Some? && s.waiting.value <= s.now
    case GiveUp => s.waiting.Some?
    case Pass(_) => true
  }

  function LoopApply(t: Iso, s: Loop, a: LoopStep): Loop
    requires LoopEnabled(s, a)
  {
    match a
    case ReadClock =>
      var next := Nominal(t, s.runCount);
      if t.repetitions > 0 && s.runCount >= t.repetitions then s.(returned := true)
      else if Within(t.window, next) then s.(waiting := Some(next))
      else if t.window.end.Some? && t.window.end.value < s.now then s.(returned := true)
      else s
    case Fire => s.(waiting := None, runCount := s.runCount + 1, fired := s.fired + [(s.waiting.value, s.now)])
    case GiveUp => s.(waiting := None)
    case Pass(d) => s.(now := s.now + d)
  }

  ghost predicate LoopRun(t: Iso, states: seq<Loop>, steps: seq<LoopStep>) {
    && |states| == |steps| + 1
    && states[0].runCount == 0 && states[0].waiting.None? && !states[0].returned && states[0].fired == []
    && forall i | 0 <= i < |steps| ::
         LoopEnabled(states[i], steps[i]) && states[i + 1] == LoopApply(t, states[i], steps[i])
  }

  /** What the loop makes of its next run: with the limit reached it ends; inside the window it waits for the run;
      outside it ends exactly once the window is over, and looks again later otherwise. */
  lemma ReadingMeans(t: Iso, s: Loop)
    requires LoopEnabled(s, LoopStep.ReadClock)
    ensures var s', x := LoopApply(t, s, LoopStep.ReadClock), t.startTime + s.runCount * t.interval;
            var over := t.repetitions > 0 && s.runCount >= t.repetitions;
            var inside :=
              (t.window.start.None? || t.window.start.value <= x) && (t.window.end.None? || x <= t.window.end.value);
            && (s'.waiting.Some? <==> !over && inside) && (s'.waiting.Some? ==> s'.waiting.value == x)
            && (s'.returned <==> over || (!inside && t.window.end.Some? && s.now > t.window.end.value))
            && s'.fired == s.fired && s'.runCount == s.runCount
  {
  }

  /** The k-th firing is the k-th run, inside the window and not early; the limit is never exceeded. */
  ghost predicate FiresInOrder(t: Iso, s: Loop) {
    && s.runCount == |s.fired|
    && (t.repetitions > 0 ==> |s.fired| <= t.repetitions)
    && (forall k | 0 <= k < |s.fired| ::
          s.fired[k].0 == Nominal(t, k) && Within(t.window, Nominal(t, k)) && s.fired[k].0 <= s.fired[k].1 <= s.now)
    && (s.waiting.Some? ==>
          s.waiting.value == Nominal(t, s.runCount) && Within(t.window, s.waiting.value) && Allowed(t, s.runCount))
  }

  lemma {:induction false} LoopFiresInOrder(t: Iso, states: seq<Loop>, steps: seq<LoopStep>, i: nat)
    requires LoopRun(t, states, steps) && i < |states|
    ensures FiresInOrder(t, states[i])
  {
    if i == 0 {
    } else {
      LoopFiresInOrder(t, states, steps, i - 1);
      assert LoopEnabled(states[i - 1], steps[i - 1]);
    }
  }

  /** The loop can get past run k: the ticker may make every run up to k, and none lies outside the window. */
  ghost predicate Unblocked(t: Iso, k: nat) {
    forall j | 0 <= j <= k :: Allowed(t, j) && Within(t.window, Nominal(t, j))
  }

  ghost predicate FiresRun(t: Iso, states: seq<Loop>, steps: seq<LoopStep>, k: nat) {
    LoopRun(t, states, steps) && k < |states[|steps|].fired|
  }

  /** Some run of the loop fires run k exactly when no run up to k is beyond the limit or outside the window: the
      loop never passes over a run it may not fire. */
  lemma FiresRunIff(t: Iso, k: nat)
    ensures (exists states, steps :: FiresRun(t, states, steps, k)) <==> Unblocked(t, k)
  {
    if states: seq<Loop>, steps: seq<LoopStep> :| FiresRun(t, states, steps, k) {
      var s: Loop := states[|steps|];
      LoopFiresInOrder(t, states, steps, |steps|);
      forall j | 0 <= j <= k ensures Allowed(t, j) && Within(t.window, Nominal(t, j)) {
        assert s.fired[j].0 == Nominal(t, j);
      }
    }
    if Unblocked(t, k) {
      var states, steps := RunUpTo(t, k + 1);
      assert FiresRun(t, states, steps, k);
    }
  }

  /** A run that fires the first n runs, each in three steps. */
  lemma {:induction false} RunUpTo(t: Iso, n: nat) returns (states: seq<Loop>, steps: seq<LoopStep>)
    requires forall j | 0 <= j < n :: Allowed(t, j) && Within(t.window, Nominal(t, j))
    ensures LoopRun(t, states, steps)
    ensures var s := states[|steps|]; |s.fired| == n == s.runCount && s.waiting.None? && !s.returned
  {
    if n == 0 {
      states, steps := [Loop.Loop(0, 0, None, false, [])], [];
    } else {
      states, steps := RunUpTo(t, n - 1);
      var s: Loop := states[|steps|];
      var wait := Nominal(t, n - 1) - s.now;
      states, steps := OneMore(t, states, steps, LoopStep.Pass(if wait > 0 then wait else 0));
      states, steps := OneMore(t, states, steps, LoopStep.ReadClock);
      states, steps := OneMore(t, states, steps, LoopStep.Fire);
    }
  }

  lemma OneMore(t: Iso, states: seq<Loop>, steps: seq<LoopStep>, a: LoopStep)
      returns (longer: seq<Loop>, more: seq<LoopStep>)
    requires LoopRun(t, states, steps) && LoopEnabled(states[|steps|], a)
    ensures LoopRun(t, longer, more) && |more| == |steps| + 1
    ensures longer[|more|] == LoopApply(t, states[|steps|], a)
  {
    var next := LoopApply(t, states[|steps|], a);
    longer, more := states + [next], steps + [a];
    forall i | 0 <= i < |more| ensures LoopEnabled(longer[i], more[i])
      && longer[i + 1] == LoopApply(t, longer[i], more[i]) {
      if i < |steps| { assert LoopEnabled(states[i], steps[i]); }
    }
  }

  /** So the loop can fire at all exactly when its first run lies inside the window. */
  lemma FiresAtAllIff(t: Iso)
    ensures (exists states, steps :: FiresRun(t, states, steps, 0)) <==> Within(t.window, t.startTime)
  {
    FiresRunIff(t, 0);
    assert Nominal(t, 0) == t.startTime && Allowed(t, 0);
  }

  /** A ticker whose first run precedes its window never fires, in any run. */
  lemma EarlyStartNeverFires(t: Iso, states: seq<Loop>, steps: seq<LoopStep>, i: nat)
    requires LoopRun(t, states, steps) && i < |states|
    requires t.window.start.Some? && t.startTime < t.window.start.value
    ensures states[i].fired == []
  {
    LoopFiresInOrder(t, states, steps, i);
    assert Nominal(t, 0) == t.startTime;
    assert states[i].fired != [] ==> Within(t.window, Nominal(t, 0));
  }

  /** The enumeration lists a run in the window of a ticker that can never fire it. */
  lemma ListedButNeverFires() returns (t: Iso, times: seq<Time>)
    ensures Valid(t) && t.window.start.Some? && t.startTime < t.window.start.value
    ensures ListsRuns(t, 0, 20, times) && times == [10]
    ensures forall states, steps :: !FiresRun(t, states, steps, 0)
  {
    t, times := LATE_WINDOW, [10];
    ListsTen(times);
    FiresAtAllIff(t);
  }

  /** Every ten from 0, in a window that opens at 5. */
  const LATE_WINDOW := Iso(10, 0, 0, Window(Some(5), None))

  lemma ListsTen(times: seq<Time>)
    requires times == [10]
    ensures ListsRuns(LATE_WINDOW, 0, 20, times)
  {
    forall x ensures x in times <==> IsRunTime(LATE_WINDOW, 0, 20, x) { OnlyRunAtTen(x); }
  }

  lemma OnlyRunAtTen(x: Time)
    ensures IsRunTime(LATE_WINDOW, 0, 20, x) <==> x == 10
  {
    var t := LATE_WINDOW;
    EveryTen(1);
    if IsRunTime(t, 0, 20, x) {
      var k :| Allowed(t, k) && x == Nominal(t, k);
      EveryTen(k);
    }
    assert Allowed(t, 1);
  }

  lemma EveryTen(k: int)
    ensures Nominal(LATE_WINDOW, k) == 10 * k
  {
  }

  /** What the loop has fired is a prefix of what the enumeration lists from the first run on, for every
      horizon past the last firing. */
  lemma FiringsArePrefixOfListing(t: Iso, states: seq<Loop>, steps: seq<LoopStep>, i: nat, end: Time, times: seq<Time>)
    requires Valid(t) && LoopRun(t, states, steps) && i < |states|
    requires states[i].fired != [] ==> states[i].fired[|states[i].fired| - 1].0 < end
    requires ListsRuns(t, t.startTime, end, times)
    ensures |states[i].fired| <= |times|
    ensures forall k | 0 <= k < |states[i].fired| :: states[i].fired[k].0 == times[k]
  {
    LoopFiresInOrder(t, states, steps, i);
    var n := |states[i].fired|;
    forall k | 0 <= k < n ensures IsRunTime(t, t.startTime, end, Nominal(t, k)) {
      NominalAscends(t, k, n - 1);
      NominalAscends(t, 0, k);
      assert Allowed(t, k);
    }
    FirstRunsFirst(t, end, times, n);
  }

  lemma {:induction false} FirstRunsFirst(t: Iso, end: Time, times: seq<Time>, n: nat)
    requires Valid(t) && ListsRuns(t, t.startTime, end, times)
    requires forall k | 0 <= k < n :: IsRunTime(t, t.startTime, end, Nominal(t, k))
    ensures n <= |times| && forall k | 0 <= k < n :: times[k] == Nominal(t, k)
  {
    if n == 0 {
    } else {
      var m := n - 1;
      FirstRunsFirst(t, end, times, m);
      assert Nominal(t, m) in times;
      var p :| 0 <= p < |times| && times[p] == Nominal(t, m);
      if p < m { NominalAscends(t, p, m); }
      if p > m {
        assert times[m] in times;
        var j :| Allowed(t, j) && times[m] == Nominal(t, j);
        NominalAscends(t, j, m);
      }
    }
  }
}
