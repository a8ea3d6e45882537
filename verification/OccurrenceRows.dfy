/** The occurrence table as the protocol and the update policies see it, kept in the flat store: the store's searches
    and writes of occurrence rows are the ones those modules assume. */
module OccurrenceRows {
  import opened Types
  import opened Records
  import opened FlatStore
  import TypedTables
  import Protocol
  import UpdatePolicies

  /** How the fields that no store operation looks at are written. */
  type Encoding = Occurrence -> string

  function RowOf(enc: Encoding, o: Occurrence): Row { OccurrenceRow(o.id, o.jobId, o.status, o.startTime, enc(o)) }

  /** Nothing is lost in a row. */
  ghost predicate Lossless(enc: Encoding) { forall a, b :: RowOf(enc, a) == RowOf(enc, b) ==> a == b }

  ghost predicate ShapedDb(owner: TypedTables.Owner, db: Db) {
    forall key | key in db :: key == KeyFor(db[key]) && TypedTables.RowShaped(owner, db[key])
  }

  /** The occurrence rows of the flat map are exactly the records of the table, each under its own key. */
  ghost predicate Represents(enc: Encoding, owner: TypedTables.Owner, db: Db, rows: map<Key, Occurrence>) {
    && Lossless(enc) && ShapedDb(owner, db)
    && (forall k | k in rows ::
          KeyOf(rows[k]) == k && OccurrenceKey(k.0, k.1) in db && db[OccurrenceKey(k.0, k.1)] == RowOf(enc, rows[k]))
    && (forall key | key in db && db[key].OccurrenceRow? :: (db[key].jobId, db[key].id) in rows)
  }

  // ----- Listings, on the rows' own fields -----

  /** A stale listing holds exactly the stored occurrences that are Running and started before the cutoff. */
  lemma StaleRows(owner: TypedTables.Owner, db: Db, cutoff: Time, db': Db, reply: Reply)
    requires ShapedDb(owner, db) && FlatStep(db, ListStale(cutoff), db', reply)
    ensures db' == db && reply.Many?
    ensures forall row :: row in reply.rows <==>
              row in db.Values && row.OccurrenceRow? && row.status == Running
              && row.startTime.Some? && row.startTime.value < cutoff
  {
    forall key | key in db ensures OccurrenceTest(key) <==> db[key].OccurrenceRow? {
      TypedTables.KeyTests(owner, db[key]);
    }
  }

  lemma RunningRows(owner: TypedTables.Owner, db: Db, db': Db, reply: Reply)
    requires ShapedDb(owner, db) && FlatStep(db, ListRunning, db', reply)
    ensures db' == db && reply.Many?
    ensures forall row :: row in reply.rows <==> row in db.Values && row.OccurrenceRow? && row.status == Running
  {
    forall key | key in db ensures OccurrenceTest(key) <==> db[key].OccurrenceRow? {
      TypedTables.KeyTests(owner, db[key]);
    }
  }

  lemma StatusRows(owner: TypedTables.Owner, db: Db, jobId: string, status: JobStatus, db': Db, reply: Reply)
    requires ShapedDb(owner, db) && TypedTables.Shaped(JobKind, jobId)
    requires FlatStep(db, ListWithStatus(jobId, status), db', reply)
    ensures db' == db && reply.Many?
    ensures forall row :: row in reply.rows <==>
              row in db.Values && row.OccurrenceRow? && row.jobId == jobId && row.status == status
  {
    forall key | key in db
      ensures OccurrencesOfTest(key, jobId) <==> db[key].OccurrenceRow? && db[key].jobId == jobId
    {
      TypedTables.ListPrefixes(owner, db[key], jobId);
    }
  }

  /** The listings of the other kinds of row, on the rows' own fields. */
  lemma OtherRows(owner: TypedTables.Owner, db: Db, op: Op, db': Db, reply: Reply)
    requires ShapedDb(owner, db) && FlatStep(db, op, db', reply)
    requires op.ListJobs? || op.ListTasks? || op.ListRuns? || op.ListAttempts?
    requires op.ListTasks? ==> TypedTables.Shaped(JobKind, op.jobId)
    ensures db' == db && reply.Many?
    ensures op.ListJobs? ==> forall row :: row in reply.rows <==> row in db.Values && row.JobRow?
    ensures op.ListTasks? ==>
              forall row :: row in reply.rows <==> row in db.Values && row.TaskRow? && row.jobId == op.jobId
    ensures op.ListRuns? ==>
              forall row ::
                row in reply.rows <==> row in db.Values && row.RunRow? && row.occurrenceId == op.occurrenceId
    ensures op.ListAttempts? ==>
              forall row :: row in reply.rows <==> row in db.Values && row.AttemptRow? && row.runId == op.runId
  {
    match op
    case ListJobs => JobRows(owner, db, reply);
    case ListTasks(jobId) => TaskRows(owner, db, jobId, reply);
    case ListRuns(occurrenceId) => RunRows(owner, db, occurrenceId, reply);
    case ListAttempts(runId) => AttemptRows(owner, db, runId, reply);
  }

  lemma JobRows(owner: TypedTables.Owner, db: Db, reply: Reply)
    requires ShapedDb(owner, db) && reply == Many(FlatRows(db, ListJobs))
    ensures forall row :: row in reply.rows <==> row in db.Values && row.JobRow?
  {
    forall key | key in db ensures JobKeyTest(key) <==> db[key].JobRow? { TypedTables.KeyTests(owner, db[key]); }
  }

  lemma TaskRows(owner: TypedTables.Owner, db: Db, jobId: string, reply: Reply)
    requires ShapedDb(owner, db) && TypedTables.Shaped(JobKind, jobId) && reply == Many(FlatRows(db, ListTasks(jobId)))
    ensures forall row :: row in reply.rows <==> row in db.Values && row.TaskRow? && row.jobId == jobId
  {
    forall key | key in db ensures TasksOfTest(key, jobId) <==> db[key].TaskRow? && db[key].jobId == jobId {
      TypedTables.ListPrefixes(owner, db[key], jobId);
    }
  }

  lemma RunRows(owner: TypedTables.Owner, db: Db, occurrenceId: string, reply: Reply)
    requires ShapedDb(owner, db) && reply == Many(FlatRows(db, ListRuns(occurrenceId)))
    ensures forall row :: row in reply.rows <==> row in db.Values && row.RunRow? && row.occurrenceId == occurrenceId
  {
    forall key | key in db ensures HasPrefix(key, "taskrun/") <==> db[key].RunRow? {
      TypedTables.KeyTests(owner, db[key]);
    }
  }

  lemma AttemptRows(owner: TypedTables.Owner, db: Db, runId: string, reply: Reply)
    requires ShapedDb(owner, db) && reply == Many(FlatRows(db, ListAttempts(runId)))
    ensures forall row :: row in reply.rows <==> row in db.Values && row.AttemptRow? && row.runId == runId
  {
    forall key | key in db ensures HasPrefix(key, "attempt/") <==> db[key].AttemptRow? {
      TypedTables.KeyTests(owner, db[key]);
    }
  }

  // ----- Listings, as the other modules assume them -----

  lemma StoredRow(enc: Encoding, owner: TypedTables.Owner, db: Db, rows: map<Key, Occurrence>, o: Occurrence)
    requires Represents(enc, owner, db, rows)
    ensures RowOf(enc, o) in db.Values <==> KeyOf(o) in rows && rows[KeyOf(o)] == o
  {
    if RowOf(enc, o) in db.Values {
      var key :| key in db && db[key] == RowOf(enc, o);
      assert db[key].OccurrenceRow? && KeyOf(o) in rows;
      assert key == OccurrenceKey(o.jobId, o.id);
    }
  }

  /** What the reaper reads: any listing of the records in a stale reply is one the protocol's reaper may take. */
  lemma StaleReplyLists(enc: Encoding, owner: TypedTables.Owner, db: Db, rows: map<Key, Occurrence>, cutoff: Time,
                        db': Db, reply: Reply, stale: seq<Occurrence>)
    requires Represents(enc, owner, db, rows) && FlatStep(db, ListStale(cutoff), db', reply) && reply.Many?
    requires forall o :: o in stale <==> RowOf(enc, o) in reply.rows
    ensures Protocol.ListsStale(rows, cutoff, stale)
  {
    StaleRows(owner, db, cutoff, db', reply);
    forall o | o in stale ensures KeyOf(o) in rows && rows[KeyOf(o)] == o && Protocol.IsStale(o, cutoff) {
      StoredRow(enc, owner, db, rows, o);
    }
    forall k | k in rows && Protocol.IsStale(rows[k], cutoff) ensures rows[k] in stale {
      StoredRow(enc, owner, db, rows, rows[k]);
    }
  }

  /** What the overlap check reads: the reply shows the job exactly when the protocol's table has it Running. */
  lemma RunningReplyShows(enc: Encoding, owner: TypedTables.Owner, db: Db, rows: map<Key, Occurrence>, jobId: string,
                          db': Db, reply: Reply)
    requires Represents(enc, owner, db, rows) && FlatStep(db, ListRunning, db', reply) && reply.Many?
    ensures Protocol.SomeRunning(rows, jobId)
            <==> exists row :: row in reply.rows && row.OccurrenceRow? && row.jobId == jobId
  {
    RunningRows(owner, db, db', reply);
    if k :| k in rows && rows[k].jobId == jobId && rows[k].status == Running {
      StoredRow(enc, owner, db, rows, rows[k]);
      assert RowOf(enc, rows[k]) in reply.rows;
    }
    if row :| row in reply.rows && row.OccurrenceRow? && row.jobId == jobId {
      var key :| key in db && db[key] == row;
      var k := (row.jobId, row.id);
      assert k in rows && key == OccurrenceKey(k.0, k.1);
    }
  }

  /** What an update reads: any duplicate-free listing of the records in a pending reply is one the policies expect. */
  lemma PendingReplyLists(enc: Encoding, owner: TypedTables.Owner, db: Db, rows: map<Key, Occurrence>, jobId: string,
                          db': Db, reply: Reply, pending: seq<Occurrence>)
    requires Represents(enc, owner, db, rows) && TypedTables.Shaped(JobKind, jobId)
    requires FlatStep(db, ListWithStatus(jobId, Pending), db', reply) && reply.Many?
    requires forall o :: o in pending <==> RowOf(enc, o) in reply.rows
    requires forall i, j | 0 <= i < j < |pending| :: pending[i] != pending[j]
    ensures UpdatePolicies.ListsPending(rows, jobId, pending)
  {
    StatusRows(owner, db, jobId, Pending, db', reply);
    forall i | 0 <= i < |pending|
      ensures KeyOf(pending[i]) in rows && rows[KeyOf(pending[i])] == pending[i]
              && UpdatePolicies.PendingOf(pending[i], jobId)
    {
      assert pending[i] in pending;
      StoredRow(enc, owner, db, rows, pending[i]);
    }
    forall k | k in rows && UpdatePolicies.PendingOf(rows[k], jobId) ensures rows[k] in pending {
      StoredRow(enc, owner, db, rows, rows[k]);
    }
  }

  // ----- Writes -----

  lemma RowIsStored(enc: Encoding, owner: TypedTables.Owner, db: Db, rows: map<Key, Occurrence>, o: Occurrence)
    requires Represents(enc, owner, db, rows) && TypedTables.RowShaped(owner, RowOf(enc, o))
    ensures KeyFor(RowOf(enc, o)) in db <==> KeyOf(o) in rows
  {
    var key := KeyFor(RowOf(enc, o));
    if key in db { TypedTables.KeyIsIdentity(owner, db[key], RowOf(enc, o)); }
  }

  lemma PutRepresents(enc: Encoding, owner: TypedTables.Owner, db: Db, rows: map<Key, Occurrence>, o: Occurrence)
    requires Represents(enc, owner, db, rows) && TypedTables.RowShaped(owner, RowOf(enc, o))
    ensures Represents(enc, owner, db[KeyFor(RowOf(enc, o)) := RowOf(enc, o)], rows[KeyOf(o) := o])
  {
    var row, key := RowOf(enc, o), KeyFor(RowOf(enc, o));
    var db', rows' := db[key := row], rows[KeyOf(o) := o];
    forall k | k in rows'
      ensures KeyOf(rows'[k]) == k && OccurrenceKey(k.0, k.1) in db'
      ensures db'[OccurrenceKey(k.0, k.1)] == RowOf(enc, rows'[k])
    {
      if k != KeyOf(o) { TypedTables.KeyIsIdentity(owner, row, RowOf(enc, rows[k])); }
    }
  }

  /** Create-if-absent on the flat map is the protocol's: it succeeds exactly when the key is not in the table, and then
      adds the record and nothing else. */
  lemma CreateIs(enc: Encoding, owner: TypedTables.Owner, db: Db, rows: map<Key, Occurrence>, o: Occurrence,
                 db': Db, reply: Reply)
    requires Represents(enc, owner, db, rows) && TypedTables.RowShaped(owner, RowOf(enc, o))
    requires FlatStep(db, Create(RowOf(enc, o)), db', reply)
    ensures reply == Done <==> KeyOf(o) !in rows
    ensures Represents(enc, owner, db', if KeyOf(o) in rows then rows else rows[KeyOf(o) := o])
  {
    RowIsStored(enc, owner, db, rows, o);
    PutRepresents(enc, owner, db, rows, o);
  }

  /** So is update-if-present. */
  lemma UpdateIs(enc: Encoding, owner: TypedTables.Owner, db: Db, rows: map<Key, Occurrence>, o: Occurrence,
                 db': Db, reply: Reply)
    requires Represents(enc, owner, db, rows) && TypedTables.RowShaped(owner, RowOf(enc, o))
    requires FlatStep(db, Update(RowOf(enc, o)), db', reply)
    ensures reply == Done <==> KeyOf(o) in rows
    ensures Represents(enc, owner, db', Protocol.Write(rows, o, true))
  {
    RowIsStored(enc, owner, db, rows, o);
    PutRepresents(enc, owner, db, rows, o);
  }
}
