/** Recovery of missed occurrences at start-up: which are selected, and what repeated passes create. */
module Recovery {
  import opened Types
  import opened Records
  import Protocol

  datatype Strategy = ExecuteAll | ExecuteLast | MarkAsMissed | BoundedWindow | CompressedCatchUp

  /** Non-positive limits are inactive. */
  datatype Window = Window(maxOccurrences: int, maxDuration: Time)

  datatype Job = Job(id: string, version: int, strategy: Strategy, window: Option<Window>)

  type Rows = map<Key, Occurrence>

  // ----- Selection -----

  predicate Recent(w: Window, now: Time, t: Time) { w.maxDuration > 0 ==> now - w.maxDuration < t }

  /** A selection that respects both active limits. */
  predicate MeetsLimits(w: Window, now: Time, times: seq<Time>) {
    && (w.maxDuration > 0 ==> forall i | 0 <= i < |times| :: now - times[i] < w.maxDuration)
    && (w.maxOccurrences > 0 ==> |times| <= w.maxOccurrences)
  }

  /** The longest suffix of the missed times that meets the limits. */
  ghost predicate LongestSuffix(w: Window, now: Time, missed: seq<Time>, selected: seq<Time>) {
    exists i | 0 <= i <= |missed| :: selected == missed[i..] && EarliestCut(w, now, missed, i)
  }

  /** The suffix from i meets the limits and no longer one does. */
  ghost predicate EarliestCut(w: Window, now: Time, missed: seq<Time>, i: nat)
    requires i <= |missed|
  {
    MeetsLimits(w, now, missed[i..]) && forall j | 0 <= j < i :: !MeetsLimits(w, now, missed[j..])
  }

  lemma EarliestCutUnique(w: Window, now: Time, missed: seq<Time>, i: nat, k: nat)
    requires i <= |missed| && k <= |missed| && EarliestCut(w, now, missed, i) && EarliestCut(w, now, missed, k)
    ensures i == k
  {
    assert MeetsLimits(w, now, missed[i..]) && MeetsLimits(w, now, missed[k..]);
  }

  /** The times within the window's duration, in order. */
  function RecentOnly(w: Window, now: Time, times: seq<Time>): seq<Time> {
    if times == [] then []
    else
      var front, last := RecentOnly(w, now, times[..|times| - 1]), times[|times| - 1];
      if Recent(w, now, last) then front + [last] else front
  }

  /** The last so many times, or all of them. */
  function LastFew(w: Window, times: seq<Time>): seq<Time> {
    if w.maxOccurrences > 0 && |times| > w.maxOccurrences then times[|times| - w.maxOccurrences..] else times
  }

  /** The missed times a job's strategy runs. */
  function Selection(job: Job, now: Time, missed: seq<Time>): seq<Time> {
    match job.strategy
    case ExecuteLast => if missed == [] then [] else [missed[|missed| - 1]]
    case MarkAsMissed => []
    case BoundedWindow =>
      if job.window.None? then missed else LastFew(job.window.value, RecentOnly(job.window.value, now, missed))
    case _ => missed
  }

  /** On ascending times the recent ones are a suffix. */
  lemma {:induction false} RecentIsSuffix(w: Window, now: Time, times: seq<Time>) returns (from: nat)
    requires Ascending(times)
    ensures from <= |times| && RecentOnly(w, now, times) == times[from..]
    ensures forall j | 0 <= j < |times| :: Recent(w, now, times[j]) <==> from <= j
  {
    if times == [] {
      from := 0;
    } else {
      var front, last := times[..|times| - 1], times[|times| - 1];
      from := RecentIsSuffix(w, now, front);
      assert forall j | 0 <= j < |front| :: front[j] == times[j] < last;
      if Recent(w, now, last) {
        assert times[from..] == front[from..] + [last];
      } else {
        assert forall j | 0 <= j < |front| :: !Recent(w, now, front[j]);
        from := |times|;
      }
    }
  }

  /** On ascending times a bounded window runs the longest suffix that meets both active limits. */
  lemma WindowRunsLongestSuffix(job: Job, now: Time, missed: seq<Time>)
    requires Ascending(missed) && job.strategy == BoundedWindow && job.window.Some?
    ensures LongestSuffix(job.window.value, now, missed, Selection(job, now, missed))
  {
    var w := job.window.value;
    var from := RecentIsSuffix(w, now, missed);
    var cut := if w.maxOccurrences > 0 && |missed| - from > w.maxOccurrences then |missed| - w.maxOccurrences else from;
    assert Selection(job, now, missed) == missed[cut..];
    assert MeetsLimits(w, now, missed[cut..]);
    forall j | 0 <= j < cut ensures !MeetsLimits(w, now, missed[j..]) {
      if j < from { assert missed[j..][0] == missed[j]; }
    }
    assert EarliestCut(w, now, missed, cut);
  }

  /** There is only one such suffix. */
  lemma SuffixUnique(w: Window, now: Time, missed: seq<Time>, a: seq<Time>, b: seq<Time>)
    requires LongestSuffix(w, now, missed, a) && LongestSuffix(w, now, missed, b)
    ensures a == b
  {
    var i :| 0 <= i <= |missed| && a == missed[i..] && EarliestCut(w, now, missed, i);
    var k :| 0 <= k <= |missed| && b == missed[k..] && EarliestCut(w, now, missed, k);
    EarliestCutUnique(w, now, missed, i, k);
  }

  /** Execute-last runs what a bounded window of one occurrence and no duration does, on any times. */
  lemma LastIsWindowOfOne(last: Job, window: Job, now: Time, missed: seq<Time>)
    requires last.strategy == ExecuteLast && window.strategy == BoundedWindow && window.window == Some(Window(1, 0))
    ensures Selection(last, now, missed) == Selection(window, now, missed)
  {
    NoDurationKeepsAll(Window(1, 0), now, missed);
  }

  lemma {:induction false} NoDurationKeepsAll(w: Window, now: Time, times: seq<Time>)
    requires w.maxDuration <= 0
    ensures RecentOnly(w, now, times) == times
  {
    if times == [] {
    } else {
      NoDurationKeepsAll(w, now, times[..|times| - 1]);
    }
  }

  // ----- Passes -----

  function RecordFor(gen: Protocol.IdGen, job: Job, at: Time, createdAt: Time): Occurrence {
    Protocol.RecoveryRecord(gen, job.id, job.version, at, createdAt)
  }

  function KeyAt(gen: Protocol.IdGen, job: Job, at: Time): Key { (job.id, gen(job.id, Second(at))) }

  /** The table after creating, if absent, one record per time; the calls with these numbers fail for reasons of
      their own. */
  function Created(gen: Protocol.IdGen, job: Job, createdAt: Time, rows: Rows, times: seq<Time>, fails: nat -> bool)
    : Rows
  {
    if times == [] then rows
    else
      var last := |times| - 1;
      var before, k := Created(gen, job, createdAt, rows, times[..last], fails), KeyAt(gen, job, times[last]);
      if fails(last) || k in before then before else before[k := RecordFor(gen, job, times[last], createdAt)]
  }

  /** The keys of the times whose create calls do not fail. */
  ghost function KeysAt(gen: Protocol.IdGen, job: Job, times: seq<Time>, fails: nat -> bool): set<Key> {
    set i | 0 <= i < |times| && !fails(i) :: KeyAt(gen, job, times[i])
  }

  const NO_FAULT: nat -> bool := (i: nat) => false

  /** A pass adds exactly the keys of its times whose create calls do not fail, and changes no record that was there:
      a missed time all of whose calls fail is lost without a word. */
  lemma {:induction false} CreatedKeys(
    gen: Protocol.IdGen, job: Job, createdAt: Time, rows: Rows, times: seq<Time>, fails: nat -> bool)
    ensures Created(gen, job, createdAt, rows, times, fails).Keys == rows.Keys + KeysAt(gen, job, times, fails)
    ensures forall k | k in rows :: Created(gen, job, createdAt, rows, times, fails)[k] == rows[k]
  {
    if times == [] {
    } else {
      var last := |times| - 1;
      CreatedKeys(gen, job, createdAt, rows, times[..last], fails);
      KeysNext(gen, job, times, fails);
    }
  }

  lemma KeysNext(gen: Protocol.IdGen, job: Job, times: seq<Time>, fails: nat -> bool)
    requires times != []
    ensures var last := |times| - 1;
            KeysAt(gen, job, times, fails)
            == KeysAt(gen, job, times[..last], fails) + if fails(last) then {} else {KeyAt(gen, job, times[last])}
  {
  }

  /** Without failures a full pass leaves out none of the times. */
  lemma AllKeys(gen: Protocol.IdGen, job: Job, times: seq<Time>, t: Time)
    requires t in times
    ensures KeyAt(gen, job, t) in KeysAt(gen, job, times, NO_FAULT)
  {
    var i :| 0 <= i < |times| && times[i] == t;
    assert !NO_FAULT(i);
  }

  /** A pass that crashed after some of its times, under its own clock, with its own failing calls. */
  datatype Cut = Cut(done: nat, createdAt: Time, fails: nat -> bool)

  function AfterCuts(gen: Protocol.IdGen, job: Job, rows: Rows, selected: seq<Time>, cuts: seq<Cut>): Rows {
    if cuts == [] then rows
    else
      var c, before := cuts[|cuts| - 1], AfterCuts(gen, job, rows, selected, cuts[..|cuts| - 1]);
      Created(gen, job, c.createdAt, before, if c.done <= |selected| then selected[..c.done] else selected, c.fails)
  }

  lemma {:induction false} CutsStayWithin(gen: Protocol.IdGen, job: Job, rows: Rows, selected: seq<Time>,
                                          cuts: seq<Cut>)
    ensures var after := AfterCuts(gen, job, rows, selected, cuts);
            && rows.Keys <= after.Keys <= rows.Keys + KeysAt(gen, job, selected, NO_FAULT)
            && forall k | k in rows :: after[k] == rows[k]
  {
    if cuts == [] {
    } else {
      var front, c := cuts[..|cuts| - 1], cuts[|cuts| - 1];
      var done := if c.done <= |selected| then selected[..c.done] else selected;
      CutsStayWithin(gen, job, rows, selected, front);
      CreatedKeys(gen, job, c.createdAt, AfterCuts(gen, job, rows, selected, front), done, c.fails);
      assert KeysAt(gen, job, done, c.fails) <= KeysAt(gen, job, selected, NO_FAULT) by {
        forall k | k in KeysAt(gen, job, done, c.fails) ensures k in KeysAt(gen, job, selected, NO_FAULT) {
          var i :| 0 <= i < |done| && !c.fails(i) && KeyAt(gen, job, done[i]) == k;
          AllKeys(gen, job, selected, done[i]);
        }
      }
    }
  }

  /** Any number of passes that crash part-way, with any failing calls, followed by one that completes without,
      create the same keys as one complete pass, and never touch a record that was there before. */
  lemma CrashedPassesThenFull(gen: Protocol.IdGen, job: Job, rows: Rows, selected: seq<Time>, cuts: seq<Cut>,
                              createdAt: Time, alone: Time)
    ensures var crashed := Created(gen, job, createdAt, AfterCuts(gen, job, rows, selected, cuts), selected, NO_FAULT);
            && crashed.Keys == Created(gen, job, alone, rows, selected, NO_FAULT).Keys
            && forall k | k in rows :: k in crashed && crashed[k] == rows[k]
  {
    CutsStayWithin(gen, job, rows, selected, cuts);
    CreatedKeys(gen, job, createdAt, AfterCuts(gen, job, rows, selected, cuts), selected, NO_FAULT);
    CreatedKeys(gen, job, alone, rows, selected, NO_FAULT);
  }

  /** The handler with the table it creates records in and the closures it submits. */
  class RecoveryHandler {
    var rows: Rows
    var submitted: seq<Occurrence>

    /** Creates the record if it is absent, and only then submits its execution; whoever loses, or whose call fails
        for reasons of its own, skips silently. */
    method ScheduleRecoveryRun(gen: Protocol.IdGen, job: Job, at: Time, createdAt: Time, fails: bool)
      modifies this
      ensures var k, o := KeyAt(gen, job, at), RecordFor(gen, job, at, createdAt);
              if fails || k in old(rows) then rows == old(rows) && submitted == old(submitted)
              else rows == old(rows)[k := o] && submitted == old(submitted) + [o]
    {
      var o := RecordFor(gen, job, at, createdAt);
      if fails || KeyOf(o) in rows { return; }
      rows := rows[KeyOf(o) := o];
      submitted := submitted + [o];
    }

    method RunAll(gen: Protocol.IdGen, job: Job, times: seq<Time>, createdAt: Time, fails: nat -> bool)
      modifies this
      ensures rows == Created(gen, job, createdAt, old(rows), times, fails)
      ensures old(submitted) <= submitted && SubmittedAreNew(old(rows), rows, submitted[|old(submitted)|..])
    {
      ghost var was, base := rows, |submitted|;
      for i := 0 to |times|
        invariant rows == Created(gen, job, createdAt, was, times[..i], fails)
        invariant old(submitted) <= submitted && SubmittedAreNew(was, rows, submitted[base..])
      {
        ghost var before, list := rows, submitted;
        assert times[..i + 1][..i] == times[..i];
        ScheduleRecoveryRun(gen, job, times[i], createdAt, fails(i));
        CreatedKeys(gen, job, createdAt, was, times[..i], fails);
        if submitted != list { assert submitted[base..] == list[base..] + [rows[KeyAt(gen, job, times[i])]]; }
      }
      assert times[..|times|] == times;
    }

    /** Duration first, then count, as the configured window says. */
    method FilterWindow(window: Window, missed: seq<Time>, now: Time) returns (selected: seq<Time>)
      ensures selected == LastFew(window, RecentOnly(window, now, missed))
    {
      var filtered: seq<Time> := [];
      if window.maxDuration > 0 {
        var cutoff := now - window.maxDuration;
        for i := 0 to |missed|
          invariant filtered == RecentOnly(window, now, missed[..i])
        {
          assert missed[..i + 1][..i] == missed[..i];
          if cutoff < missed[i] { filtered := filtered + [missed[i]]; }
        }
        assert missed[..|missed|] == missed;
      } else {
        filtered := missed;
        NoDurationKeepsAll(window, now, missed);
      }
      selected := filtered;
      if window.maxOccurrences > 0 && |filtered| > window.maxOccurrences {
        selected := filtered[|filtered| - window.maxOccurrences..];
      }
    }

    /** Dispatches on the strategy; `now` is the window's clock reading, `createdAt` the records'. Create calls that
        fail are not reported. */
    method ApplyStrategy(gen: Protocol.IdGen, job: Job, missed: seq<Time>, now: Time, createdAt: Time,
                         fails: nat -> bool)
      modifies this
      ensures rows == Created(gen, job, createdAt, old(rows), Selection(job, now, missed), fails)
      ensures old(submitted) <= submitted && SubmittedAreNew(old(rows), rows, submitted[|old(submitted)|..])
      ensures job.strategy == MarkAsMissed ==> rows == old(rows) && submitted == old(submitted)
      ensures StrategyEffect(gen, job, now, missed, old(rows), rows, forall i :: !fails(i))
      ensures NewRecords(gen, job, createdAt, missed, old(rows), rows)
    {
      SelectionEffect(gen, job, now, missed, rows, createdAt, fails);
      if missed == [] {
        if job.strategy == BoundedWindow && job.window.Some? { assert Selection(job, now, missed) == []; }
        return;
      }
      match job.strategy {
        case ExecuteLast => RunAll(gen, job, [missed[|missed| - 1]], createdAt, fails);
        case MarkAsMissed =>
        case BoundedWindow =>
          if job.window.None? {
            RunAll(gen, job, missed, createdAt, fails);
          } else {
            var times := FilterWindow(job.window.value, missed, now);
            RunAll(gen, job, times, createdAt, fails);
          }
        case _ => RunAll(gen, job, missed, createdAt, fails);
      }
    }
  }

  /** What each strategy leaves in the table. Without failing calls: all missed times for full backfill, for strategies
      the handler does not know, and for a bounded window with none configured; the last one only for execute-last;
      nothing for mark-as-missed; the longest suffix within the limits for a bounded window on ascending times. With
      failing calls never more than that. */
  ghost predicate StrategyEffect(gen: Protocol.IdGen, job: Job, now: Time, missed: seq<Time>, before: Rows, after: Rows,
                                 faultless: bool) {
    var all := set t | t in missed :: (job.id, gen(job.id, Second(t)));
    match job.strategy
    case MarkAsMissed => after == before
    case ExecuteLast =>
      var last := if missed == [] then {} else {(job.id, gen(job.id, Second(missed[|missed| - 1])))};
      if faultless then after.Keys == before.Keys + last else before.Keys <= after.Keys <= before.Keys + last
    case BoundedWindow =>
      if job.window.None? then
        if faultless then after.Keys == before.Keys + all else before.Keys <= after.Keys <= before.Keys + all
      else Ascending(missed) ==> WindowEffect(gen, job, now, missed, before, after, faultless)
    case _ =>
      if faultless then after.Keys == before.Keys + all else before.Keys <= after.Keys <= before.Keys + all
  }

  ghost predicate WindowEffect(gen: Protocol.IdGen, job: Job, now: Time, missed: seq<Time>, before: Rows, after: Rows,
                               faultless: bool)
    requires job.window.Some?
  {
    exists i | 0 <= i <= |missed| ::
      && EarliestCut(job.window.value, now, missed, i)
      && var keys := set t | t in missed[i..] :: (job.id, gen(job.id, Second(t)));
         if faultless then after.Keys == before.Keys + keys else before.Keys <= after.Keys <= before.Keys + keys
  }

  /** Every record that was not there before is a pending recovery record of the job for a missed time, under the id of
      that time; those that were there are as they were. */
  ghost predicate NewRecords(gen: Protocol.IdGen, job: Job, createdAt: Time, missed: seq<Time>,
                             before: Rows, after: Rows) {
    && (forall k | k in before :: k in after && after[k] == before[k])
    && forall k | k in after && k !in before ::
         var o := after[k];
         && o.jobId == job.id && o.jobVersion == job.version && o.scheduledTime in missed
         && k == (job.id, gen(job.id, Second(o.scheduledTime))) && o.id == k.1
         && o.status == Pending && o.isRecovery && o.startTime.None? && o.endTime.None? && o.createdAt == createdAt
  }

  lemma KeysAreThose(gen: Protocol.IdGen, job: Job, times: seq<Time>, fails: nat -> bool)
    ensures KeysAt(gen, job, times, fails) <= set t | t in times :: (job.id, gen(job.id, Second(t)))
    ensures (forall i :: !fails(i)) ==>
              KeysAt(gen, job, times, fails) == set t | t in times :: (job.id, gen(job.id, Second(t)))
  {
    if forall i :: !fails(i) {
      forall t | t in times ensures (job.id, gen(job.id, Second(t))) in KeysAt(gen, job, times, fails) {
        var i :| 0 <= i < |times| && times[i] == t;
        assert !fails(i);
      }
    }
  }

  lemma {:induction false} CreatedAreRecords(
    gen: Protocol.IdGen, job: Job, createdAt: Time, rows: Rows, times: seq<Time>, fails: nat -> bool, missed: seq<Time>)
    requires forall t | t in times :: t in missed
    ensures NewRecords(gen, job, createdAt, missed, rows, Created(gen, job, createdAt, rows, times, fails))
  {
    if times == [] {
    } else {
      CreatedAreRecords(gen, job, createdAt, rows, times[..|times| - 1], fails, missed);
      assert times[|times| - 1] in times;
    }
  }

  lemma RecentOnlyKeeps(w: Window, now: Time, times: seq<Time>)
    ensures forall t | t in RecentOnly(w, now, times) :: t in times
  {
  }

  lemma SelectedAreMissed(job: Job, now: Time, missed: seq<Time>)
    ensures forall t | t in Selection(job, now, missed) :: t in missed
  {
    if job.window.Some? { RecentOnlyKeeps(job.window.value, now, missed); }
  }

  /** The selection has the effect its strategy promises. */
  lemma SelectionEffect(gen: Protocol.IdGen, job: Job, now: Time, missed: seq<Time>, rows: Rows, createdAt: Time,
                        fails: nat -> bool)
    ensures var after := Created(gen, job, createdAt, rows, Selection(job, now, missed), fails);
            && StrategyEffect(gen, job, now, missed, rows, after, forall i :: !fails(i))
            && NewRecords(gen, job, createdAt, missed, rows, after)
  {
    var selected := Selection(job, now, missed);
    SelectedAreMissed(job, now, missed);
    CreatedAreRecords(gen, job, createdAt, rows, selected, fails, missed);
    if job.strategy == BoundedWindow && job.window.Some? {
      if Ascending(missed) { WindowSelectionEffect(gen, job, now, missed, rows, createdAt, fails); }
    } else {
      TimesEffect(gen, job, rows, selected, createdAt, fails);
      if job.strategy == ExecuteLast && missed != [] { OnlyTime(gen, job, missed[|missed| - 1]); }
    }
  }

  lemma OnlyTime(gen: Protocol.IdGen, job: Job, last: Time)
    ensures (set t | t in [last] :: (job.id, gen(job.id, Second(t)))) == {(job.id, gen(job.id, Second(last)))}
  {
  }

  lemma TimesEffect(gen: Protocol.IdGen, job: Job, rows: Rows, times: seq<Time>, createdAt: Time, fails: nat -> bool)
    ensures var after, keys := Created(gen, job, createdAt, rows, times, fails),
                               set t | t in times :: (job.id, gen(job.id, Second(t)));
            && rows.Keys <= after.Keys <= rows.Keys + keys
            && ((forall i :: !fails(i)) ==> after.Keys == rows.Keys + keys)
            && (times == [] ==> after == rows)
  {
    CreatedKeys(gen, job, createdAt, rows, times, fails);
    KeysAreThose(gen, job, times, fails);
  }

  lemma WindowSelectionEffect(gen: Protocol.IdGen, job: Job, now: Time, missed: seq<Time>, rows: Rows, createdAt: Time,
                              fails: nat -> bool)
    requires job.strategy == BoundedWindow && job.window.Some? && Ascending(missed)
    ensures WindowEffect(gen, job, now, missed, rows,
                         Created(gen, job, createdAt, rows, Selection(job, now, missed), fails), forall i :: !fails(i))
  {
    var selected := Selection(job, now, missed);
    WindowRunsLongestSuffix(job, now, missed);
    var i :| 0 <= i <= |missed| && selected == missed[i..] && EarliestCut(job.window.value, now, missed, i);
    CreatedKeys(gen, job, createdAt, rows, selected, fails);
    KeysAreThose(gen, job, selected, fails);
  }

  /** The closures submitted are exactly the records that were created, each once. */
  ghost predicate SubmittedAreNew(before: Rows, after: Rows, closures: seq<Occurrence>) {
    && (forall i | 0 <= i < |closures| ::
          KeyOf(closures[i]) !in before && KeyOf(closures[i]) in after && after[KeyOf(closures[i])] == closures[i])
    && (forall i, j | 0 <= i < j < |closures| :: KeyOf(closures[i]) != KeyOf(closures[j]))
    && (forall k | k in after && k !in before :: after[k] in closures)
  }
}
