/** The three schedule-update policies of the update manager, over the occurrence table. */
module UpdatePolicies {
  import opened Types
  import opened Records

  const WINDOW: int := 7 * DAY

  type Rows = map<Key, Occurrence>

  /** Every row is stored under the key of its own record. */
  ghost predicate WellKeyed(rows: Rows) {
    forall k | k in rows :: KeyOf(rows[k]) == k
  }

  predicate PendingOf(o: Occurrence, jobId: string) { o.jobId == jobId && o.status == Pending }

  /** Keys of the job's pending occurrences that are still in the future. */
  ghost function PendingFuture(rows: Rows, jobId: string, now: Time): set<Key> {
    set k | k in rows && PendingOf(rows[k], jobId) && now < rows[k].scheduledTime
  }

  /** What each policy promises to cancel, said without the code's lists and loops. */
  ghost function CancelSet(policy: UpdatePolicy, rows: Rows, jobId: string, now: Time): set<Key> {
    var future := PendingFuture(rows, jobId, now);
    match policy
    case Immediate => future
    case Graceful => set k | k in future && exists k' :: k' in future && rows[k'].scheduledTime < rows[k].scheduledTime
    case Windowed => set k | k in future && rows[k].scheduledTime < now + WINDOW
  }

  function AsCanceled(o: Occurrence): Occurrence { o.(status := JobStatus.Canceled) }

  ghost function CancelKeys(rows: Rows, ks: set<Key>): Rows {
    map k | k in rows :: if k in ks then AsCanceled(rows[k]) else rows[k]
  }

  /** The occurrence table after one schedule update. */
  ghost function Updated(policy: UpdatePolicy, rows: Rows, jobId: string, now: Time): Rows {
    CancelKeys(rows, CancelSet(policy, rows, jobId, now))
  }

  /** `pending` is a duplicate-free listing of exactly the job's pending records. */
  ghost predicate ListsPending(rows: Rows, jobId: string, pending: seq<Occurrence>) {
    && (forall i | 0 <= i < |pending| ::
          KeyOf(pending[i]) in rows && rows[KeyOf(pending[i])] == pending[i] && PendingOf(pending[i], jobId))
    && (forall i, j | 0 <= i < j < |pending| :: KeyOf(pending[i]) != KeyOf(pending[j]))
    && (forall k | k in rows && PendingOf(rows[k], jobId) :: rows[k] in pending)
  }

  /** A listed record still lies ahead. */
  predicate AnyAhead(pending: seq<Occurrence>, now: Time) {
    exists i | 0 <= i < |pending| :: now < pending[i].scheduledTime
  }

  /** Which listed record a policy's loop decides to cancel. */
  predicate Selected(policy: UpdatePolicy, pending: seq<Occurrence>, now: Time, o: Occurrence) {
    match policy
    case Immediate => now < o.scheduledTime
    case Graceful => exists i | 0 <= i < |pending| :: now < pending[i].scheduledTime < o.scheduledTime
    case Windowed => now < o.scheduledTime < now + WINDOW
  }

  function Filter(policy: UpdatePolicy, pending: seq<Occurrence>, now: Time, n: nat): (r: seq<Occurrence>)
    requires n <= |pending|
    ensures forall o | o in r :: o in pending && Selected(policy, pending, now, o)
    ensures forall i | 0 <= i < n && Selected(policy, pending, now, pending[i]) :: pending[i] in r
  {
    if n == 0 then []
    else if Selected(policy, pending, now, pending[n - 1]) then Filter(policy, pending, now, n - 1) + [pending[n - 1]]
    else Filter(policy, pending, now, n - 1)
  }

  /** The records a policy writes back as canceled, given the listing it read. */
  function CancelList(policy: UpdatePolicy, pending: seq<Occurrence>, now: Time): seq<Occurrence> {
    Filter(policy, pending, now, |pending|)
  }

  /** The loops' per-record test, on a full listing, selects the promised set. */
  lemma SelectedIsCancelSet(policy: UpdatePolicy, rows: Rows, jobId: string, pending: seq<Occurrence>, now: Time,
      i: nat)
    requires WellKeyed(rows) && ListsPending(rows, jobId, pending) && i < |pending|
    ensures Selected(policy, pending, now, pending[i]) <==> KeyOf(pending[i]) in CancelSet(policy, rows, jobId, now)
  {
    var k := KeyOf(pending[i]);
    if policy == Graceful {
      var future := PendingFuture(rows, jobId, now);
      if Selected(policy, pending, now, pending[i]) {
        var j :| 0 <= j < |pending| && now < pending[j].scheduledTime < pending[i].scheduledTime;
        assert KeyOf(pending[j]) in future;
      }
      if k in CancelSet(policy, rows, jobId, now) {
        var k' :| k' in future && rows[k'].scheduledTime < rows[k].scheduledTime;
        assert rows[k'] in pending;
      }
    }
  }

  /** The store's occurrence table, seen through the calls the update manager makes. */
  class OccurrenceTable {
    var rows: Rows

    /** Lists in an unspecified order: the order of the key scan does not matter to any policy. */
    method ListPending(jobId: string) returns (pending: seq<Occurrence>)
      requires WellKeyed(rows)
      ensures ListsPending(rows, jobId, pending)
    {
      pending := [];
      var rest := rows.Keys;
      while rest != {}
        invariant rest <= rows.Keys
        invariant forall i | 0 <= i < |pending| :: KeyOf(pending[i]) in rows && KeyOf(pending[i]) !in rest
        invariant forall i | 0 <= i < |pending| :: rows[KeyOf(pending[i])] == pending[i] && PendingOf(pending[i], jobId)
        invariant forall i, j | 0 <= i < j < |pending| :: KeyOf(pending[i]) != KeyOf(pending[j])
        invariant forall k | k in rows && k !in rest && PendingOf(rows[k], jobId) :: rows[k] in pending
        decreases |rest|
      {
        var k :| k in rest;
        rest := rest - {k};
        if PendingOf(rows[k], jobId) { pending := pending + [rows[k]]; }
      }
    }

    /** Update-if-present: a whole record replaces the stored one, or an error leaves the table alone. */
    method Update(o: Occurrence) returns (ok: bool)
      modifies this
      ensures ok == (KeyOf(o) in old(rows))
      ensures rows == if ok then old(rows)[KeyOf(o) := o] else old(rows)
    {
      ok := KeyOf(o) in rows;
      if ok { rows := rows[KeyOf(o) := o]; }
    }

    method ApplyImmediate(jobId: string, now: Time)
      requires WellKeyed(rows)
      modifies this
      ensures rows == Updated(Immediate, old(rows), jobId, now)
    {
      var pending := ListPending(jobId);
      CancelBetween(now, None, Immediate, pending, jobId, now);
    }

    method ApplyWindowed(jobId: string, now: Time)
      requires WellKeyed(rows)
      modifies this
      ensures rows == Updated(Windowed, old(rows), jobId, now)
    {
      var pending := ListPending(jobId);
      CancelBetween(now, Some(now + WINDOW), Windowed, pending, jobId, now);
    }

    /** Finds the earliest future record, cancels what follows it, or falls back to the immediate policy. */
    method ApplyGraceful(jobId: string, now: Time)
      requires WellKeyed(rows)
      modifies this
      ensures rows == Updated(Graceful, old(rows), jobId, now)
    {
      var pending := ListPending(jobId);
      var next: Option<Occurrence> := None;
      for i := 0 to |pending|
        invariant next.Some? ==> next.value in pending && now < next.value.scheduledTime
        invariant forall j | 0 <= j < i && now < pending[j].scheduledTime ::
                    next.Some? && next.value.scheduledTime <= pending[j].scheduledTime
      {
        if now < pending[i].scheduledTime && (next.None? || pending[i].scheduledTime < next.value.scheduledTime) {
          next := Some(pending[i]);
        }
      }
      if next.Some? {
        assert forall i | 0 <= i < |pending| ::
            Selected(Graceful, pending, now, pending[i]) <==> next.value.scheduledTime < pending[i].scheduledTime;
        CancelBetween(next.value.scheduledTime, None, Graceful, pending, jobId, now);
      } else {
        assert PendingFuture(rows, jobId, now) == {};
        ApplyImmediate(jobId, now);
        assert CancelSet(Graceful, old(rows), jobId, now) == {} == CancelSet(Immediate, old(rows), jobId, now);
      }
    }

    /** Writes back as canceled, one record at a time, the listed records between two instants. */
    method CancelBetween(after: Time, before: Option<Time>, policy: UpdatePolicy, pending: seq<Occurrence>,
                         jobId: string, now: Time)
      requires WellKeyed(rows) && ListsPending(rows, jobId, pending)
      requires forall i | 0 <= i < |pending| ::
                 Selected(policy, pending, now, pending[i])
                 <==> after < pending[i].scheduledTime && (before.Some? ==> pending[i].scheduledTime < before.value)
      modifies this
      ensures rows == Updated(policy, old(rows), jobId, now)
    {
      ghost var was, ks := rows, {};
      for i := 0 to |pending|
        invariant rows == CancelKeys(was, ks)
        invariant ks == SelectedSet(policy, pending, now, i)
      {
        SelectedNext(policy, pending, now, i);
        if after < pending[i].scheduledTime && (before.Some? ==> pending[i].scheduledTime < before.value) {
          CancelOneMore(was, ks, KeyOf(pending[i]));
          var _ := Update(AsCanceled(pending[i]));
          ks := ks + {KeyOf(pending[i])};
        }
      }
      SelectedKeys(policy, was, jobId, pending, now);
    }
  }

  ghost function SelectedSet(policy: UpdatePolicy, pending: seq<Occurrence>, now: Time, n: nat): set<Key>
    requires n <= |pending|
  {
    set j | 0 <= j < n && Selected(policy, pending, now, pending[j]) :: KeyOf(pending[j])
  }

  lemma SelectedNext(policy: UpdatePolicy, pending: seq<Occurrence>, now: Time, n: nat)
    requires n < |pending|
    ensures SelectedSet(policy, pending, now, n + 1)
         == SelectedSet(policy, pending, now, n) + if Selected(policy, pending, now, pending[n])
           then {KeyOf(pending[n])} else {}
  {
  }

  lemma CancelOneMore(rows: Rows, ks: set<Key>, k: Key)
    requires k in rows
    ensures CancelKeys(rows, ks)[k := AsCanceled(rows[k])] == CancelKeys(rows, ks + {k})
  {
  }

  /** The records a policy writes back, given a full listing, are those of the promised set. */
  lemma CancelListKeys(policy: UpdatePolicy, rows: Rows, jobId: string, pending: seq<Occurrence>, now: Time)
    requires WellKeyed(rows) && ListsPending(rows, jobId, pending)
    ensures (set o | o in CancelList(policy, pending, now) :: KeyOf(o)) == CancelSet(policy, rows, jobId, now)
  {
    var todo, ks := CancelList(policy, pending, now), CancelSet(policy, rows, jobId, now);
    forall i | 0 <= i < |pending|
      ensures Selected(policy, pending, now, pending[i]) <==> KeyOf(pending[i]) in ks
    {
      SelectedIsCancelSet(policy, rows, jobId, pending, now, i);
    }
    forall k | k in ks ensures exists o | o in todo :: KeyOf(o) == k {
      assert rows[k] in pending && KeyOf(rows[k]) == k && rows[k] in todo;
    }
  }

  lemma SelectedKeys(policy: UpdatePolicy, rows: Rows, jobId: string, pending: seq<Occurrence>, now: Time)
    requires WellKeyed(rows) && ListsPending(rows, jobId, pending)
    ensures SelectedSet(policy, pending, now, |pending|) == CancelSet(policy, rows, jobId, now)
  {
    var ks := SelectedSet(policy, pending, now, |pending|);
    forall j | 0 <= j < |pending|
      ensures Selected(policy, pending, now, pending[j]) <==> KeyOf(pending[j]) in CancelSet(policy, rows, jobId, now)
    {
      SelectedIsCancelSet(policy, rows, jobId, pending, now, j);
    }
    forall k | k in CancelSet(policy, rows, jobId, now) ensures k in ks {
      assert rows[k] in pending;
      var j :| 0 <= j < |pending| && pending[j] == rows[k];
      assert KeyOf(pending[j]) == k;
    }
  }

  /** After a graceful update the job's pending future is exactly its earliest future slot, and never
      becomes empty because of the update. */
  lemma GracefulLeavesEarliest(rows: Rows, jobId: string, now: Time)
    ensures var future, left := PendingFuture(rows, jobId, now),
                                PendingFuture(Updated(Graceful, rows, jobId, now), jobId, now);
            && left == (set k | k in future && forall k' | k' in future ::
              rows[k].scheduledTime <= rows[k'].scheduledTime)
            && (future != {} ==> left != {})
  {
    var future := PendingFuture(rows, jobId, now);
    if future != {} {
      var k := Earliest(rows, future);
      assert k in PendingFuture(Updated(Graceful, rows, jobId, now), jobId, now);
    }
  }

  lemma {:induction false} Earliest(rows: Rows, ks: set<Key>) returns (k: Key)
    requires ks != {} && ks <= rows.Keys
    ensures k in ks && forall k' | k' in ks :: rows[k].scheduledTime <= rows[k'].scheduledTime
    decreases |ks|
  {
    k :| k in ks;
    if ks != {k} {
      var rest := ks - {k};
      var best := Earliest(rows, rest);
      assert ks == rest + {k};
      if rows[best].scheduledTime < rows[k].scheduledTime { k := best; }
    }
  }

  /** An immediate update leaves no pending future; a windowed one leaves exactly what lies seven days
      or more ahead, so it cancels the immediate policy's set cut at the window. */
  lemma ImmediateAndWindowedLeave(rows: Rows, jobId: string, now: Time)
    ensures PendingFuture(Updated(Immediate, rows, jobId, now), jobId, now) == {}
    ensures PendingFuture(Updated(Windowed, rows, jobId, now), jobId, now)
            == set k | k in PendingFuture(rows, jobId, now) && now + WINDOW <= rows[k].scheduledTime
    ensures CancelSet(Windowed, rows, jobId, now)
            == set k | k in CancelSet(Immediate, rows, jobId, now) && rows[k].scheduledTime < now + WINDOW
  {
    var after := Updated(Windowed, rows, jobId, now);
    assert forall k | k in rows :: k in PendingFuture(after, jobId, now)
                                   <==> k in PendingFuture(rows, jobId, now) && now + WINDOW <= rows[k].scheduledTime;
  }

  /** Repeating a schedule update at the same instant changes nothing. */
  lemma PolicyIdempotent(policy: UpdatePolicy, rows: Rows, jobId: string, now: Time)
    ensures var once := Updated(policy, rows, jobId, now); Updated(policy, once, jobId, now) == once
  {
    var once := Updated(policy, rows, jobId, now);
    assert forall k | k in PendingFuture(once, jobId, now) ::
        k in PendingFuture(rows, jobId, now) && once[k] == rows[k];
    assert CancelSet(policy, once, jobId, now) == {};
  }

  /** A policy touches only the job's own pending future records, and of those only the status. */
  lemma PolicyFrame(policy: UpdatePolicy, rows: Rows, jobId: string, now: Time, k: Key)
    requires k in rows
    ensures var after := Updated(policy, rows, jobId, now);
            && after.Keys == rows.Keys
            && SameIdentity(after[k], rows[k])
            && (after[k] != rows[k] ==>
                  rows[k].jobId == jobId && rows[k].status == Pending && now < rows[k].scheduledTime
                  && after[k] == rows[k].(status := JobStatus.Canceled))
  {
  }

  /** Which records a policy cancels, on their own fields: the job's pending ones after now; for a graceful update those
      after another such one; for a windowed one those less than seven days ahead. */
  lemma CanceledIff(policy: UpdatePolicy, rows: Rows, jobId: string, now: Time, k: Key)
    requires k in rows
    ensures var after, o := Updated(policy, rows, jobId, now), rows[k];
            k in after
            && (after[k].status == JobStatus.Canceled && o.status != JobStatus.Canceled <==>
                  && o.jobId == jobId && o.status == Pending && o.scheduledTime > now
                  && (policy == Windowed ==> o.scheduledTime - now < 604_800_000_000_000)
                  && (policy == Graceful ==>
                        exists x :: x in rows && rows[x].jobId == jobId && rows[x].status == Pending
                                    && now < rows[x].scheduledTime < o.scheduledTime))
  {
    if x :| x in rows && rows[x].jobId == jobId && rows[x].status == Pending
            && now < rows[x].scheduledTime < rows[k].scheduledTime {
      assert x in PendingFuture(rows, jobId, now);
    }
  }
}
