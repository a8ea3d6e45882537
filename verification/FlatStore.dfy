/** The key-value store: one string-keyed map searched by prefix, substring, suffix and slash count. */
module FlatStore {
  import opened Types
  import opened Records

  /** A stored row. `body` stands for the fields no store operation looks at. */
  datatype Row =
    | JobRow(id: string, body: string)
    | TaskRow(id: string, jobId: string, body: string)
    | OccurrenceRow(id: string, jobId: string, status: JobStatus, startTime: Option<Time>, body: string)
    | RunRow(id: string, occurrenceId: string, body: string)
    | AttemptRow(id: string, runId: string, body: string)

  datatype Kind = JobKind | TaskKind | OccurrenceKind | RunKind | AttemptKind

  function KindOf(row: Row): Kind {
    match row
    case JobRow(_, _) => JobKind
    case TaskRow(_, _, _) => TaskKind
    case OccurrenceRow(_, _, _, _, _) => OccurrenceKind
    case RunRow(_, _, _) => RunKind
    case AttemptRow(_, _, _) => AttemptKind
  }

  // ----- Keys and key tests -----

  function JobKey(id: string): string { "job/" + id }

  function TaskKey(jobId: string, id: string): string { "job/" + jobId + "/task/" + id }

  function OccurrenceKey(jobId: string, id: string): string { "job/" + jobId + "/occurrence/" + id }

  function RunKey(id: string): string { "taskrun/" + id }

  function AttemptKey(id: string): string { "attempt/" + id }

  function KeyFor(row: Row): string {
    match row
    case JobRow(id, _) => JobKey(id)
    case TaskRow(id, jobId, _) => TaskKey(jobId, id)
    case OccurrenceRow(id, jobId, _, _, _) => OccurrenceKey(jobId, id)
    case RunRow(id, _, _) => RunKey(id)
    case AttemptRow(id, _, _) => AttemptKey(id)
  }

  predicate HasPrefix(s: string, p: string) { |p| <= |s| && s[..|p|] == p }

  predicate HasSuffix(s: string, p: string) { |p| <= |s| && s[|s| - |p|..] == p }

  predicate MatchesAt(s: string, p: string, i: nat) { i + |p| <= |s| && s[i..i + |p|] == p }

  predicate Contains(s: string, p: string) { exists i | 0 <= i <= |s| :: MatchesAt(s, p, i) }

  function SlashPositions(s: string): set<int> { set i | 0 <= i < |s| && s[i] == '/' }

  predicate JobKeyTest(k: string) { HasPrefix(k, "job/") && |SlashPositions(k)| <= 1 }

  predicate TaskSearchTest(k: string, id: string) {
    HasPrefix(k, "job/") && Contains(k, "/task/") && HasSuffix(k, id)
  }

  predicate OccurrenceTest(k: string) { HasPrefix(k, "job/") && Contains(k, "/occurrence/") }

  predicate OccurrenceSearchTest(k: string, id: string) { OccurrenceTest(k) && HasSuffix(k, id) }

  predicate TasksOfTest(k: string, jobId: string) { HasPrefix(k, "job/" + jobId + "/task/") }

  predicate OccurrencesOfTest(k: string, jobId: string) { HasPrefix(k, "job/" + jobId + "/occurrence/") }

  // ----- Operations -----

  datatype Op =
    | Create(row: Row)
    | Update(row: Row)
    | Get(kind: Kind, id: string)
    | Erase(row: Row)
    | DeleteJob(id: string)
    | DeleteRun(id: string)
    | ListJobs
    | ListTasks(jobId: string)
    | ListRunning
    | ListStale(cutoff: Time)
    | ListWithStatus(jobId: string, status: JobStatus)
    | ListRuns(occurrenceId: string)
    | ListAttempts(runId: string)

  datatype Reply = Refused | Done | One(row: Row) | Many(rows: set<Row>)

  predicate Stale(row: Row, cutoff: Time) {
    row.OccurrenceRow? && row.status == Running && row.startTime.Some? && row.startTime.value < cutoff
  }

  /** Which rows a listing collects: a test on the key and a test on the decoded row. */
  predicate Collected(op: Op, k: string, row: Row) {
    match op
    case ListJobs => JobKeyTest(k)
    case ListTasks(jobId) => TasksOfTest(k, jobId)
    case ListRunning => OccurrenceTest(k) && row.OccurrenceRow? && row.status == Running
    case ListStale(cutoff) => OccurrenceTest(k) && Stale(row, cutoff)
    case ListWithStatus(jobId, status) => OccurrencesOfTest(k, jobId) && row.OccurrenceRow? && row.status == status
    case ListRuns(occurrenceId) => HasPrefix(k, "taskrun/") && row.RunRow? && row.occurrenceId == occurrenceId
    case ListAttempts(runId) => HasPrefix(k, "attempt/") && row.AttemptRow? && row.runId == runId
    case _ => false
  }

  predicate IsListing(op: Op) {
    op.ListJobs? || op.ListTasks? || op.ListRunning? || op.ListStale? || op.ListWithStatus? || op.ListRuns?
      || op.ListAttempts?
  }

  /** The key test by which a row is found from its id alone. */
  predicate Found(kind: Kind, k: string, id: string) {
    match kind
    case JobKind => k == JobKey(id)
    case TaskKind => TaskSearchTest(k, id)
    case OccurrenceKind => OccurrenceSearchTest(k, id)
    case RunKind => k == RunKey(id)
    case AttemptKind => k == AttemptKey(id)
  }

  type Db = map<string, Row>

  /** What one transaction may do on the flat map. Deleting a task or an occurrence takes two: a Get finds its
      row, and an Erase deletes the key that row's fields name, whatever is stored there by then. A search may
      stop at any key that passes its test: the order of the key scan is left open. */
  ghost predicate FlatStep(db: Db, op: Op, db': Db, reply: Reply) {
    match op
    case Create(row) =>
      if KeyFor(row) in db then db' == db && reply == Refused else db' == db[KeyFor(row) := row] && reply == Done
    case Update(row) =>
      if KeyFor(row) in db then db' == db[KeyFor(row) := row] && reply == Done else db' == db && reply == Refused
    case Get(kind, id) =>
      db' == db
      && ((reply == Refused && forall k | k in db :: !Found(kind, k, id))
          || (exists k :: k in db && Found(kind, k, id) && reply == One(db[k])))
    case Erase(row) => reply == Done && db' == db - {KeyFor(row)}
    case DeleteJob(id) => reply == Done && db' == db - {JobKey(id)}
    case DeleteRun(id) => reply == Done && db' == db - {RunKey(id)}
    case _ =>
      db' == db && reply == Many(FlatRows(db, op))
  }

  /** A listing's rows. */
  function FlatRows(db: Db, op: Op): set<Row> { set k | k in db && Collected(op, k, db[k]) :: db[k] }

  /** The rows collected from the keys visited so far. */
  function Visited(db: Db, op: Op, rest: set<string>): set<Row> {
    set k | k in db && k !in rest && Collected(op, k, db[k]) :: db[k]
  }

  lemma VisitOne(db: Db, op: Op, rest: set<string>, k: string)
    requires k in rest && k in db
    ensures Visited(db, op, rest - {k}) == Visited(db, op, rest) + if Collected(op, k, db[k]) then {db[k]} else {}
  {
  }

  lemma VisitedAll(db: Db, op: Op)
    requires IsListing(op)
    ensures Visited(db, op, db.Keys) == {} && FlatStep(db, op, db, Many(Visited(db, op, {})))
  {
    assert Visited(db, op, {}) == FlatRows(db, op);
  }

  /** The store, with each operation as its code performs it. */
  class BadgerStorage {
    var db: Db

    constructor ()
      ensures db == map[]
    {
      db := map[];
    }

    method CreateRow(row: Row) returns (reply: Reply)
      modifies this
      ensures FlatStep(old(db), Create(row), db, reply)
    {
      if KeyFor(row) in db { return Refused; }
      db := db[KeyFor(row) := row];
      reply := Done;
    }

    method UpdateRow(row: Row) returns (reply: Reply)
      modifies this
      ensures FlatStep(old(db), Update(row), db, reply)
    {
      if KeyFor(row) !in db { return Refused; }
      db := db[KeyFor(row) := row];
      reply := Done;
    }

    /** Walks the keys until one passes the test. */
    method Search(kind: Kind, id: string) returns (found: Option<string>)
      ensures found.Some? ==> found.value in db && Found(kind, found.value, id)
      ensures found.None? ==> forall k | k in db :: !Found(kind, k, id)
    {
      var rest := db.Keys;
      while rest != {}
        invariant rest <= db.Keys && forall k | k in db && k !in rest :: !Found(kind, k, id)
        decreases |rest|
      {
        var k :| k in rest;
        if Found(kind, k, id) { return Some(k); }
        rest := rest - {k};
      }
      found := None;
    }

    method GetRow(kind: Kind, id: string) returns (reply: Reply)
      ensures FlatStep(db, Get(kind, id), db, reply) && (reply.One? || reply == Refused)
    {
      var found := Search(kind, id);
      reply := if found.Some? then One(db[found.value]) else Refused;
    }

    /** The second transaction of a deletion. */
    method EraseRow(row: Row)
      modifies this
      ensures FlatStep(old(db), Erase(row), db, Done)
    {
      db := db - {KeyFor(row)};
    }

    /** Deletes a task or an occurrence in two transactions: what the search finds is erased under the key its own
        fields name. Nothing else runs in between here; as separate steps of a run, anything may. */
    method DeleteRow(kind: Kind, id: string) returns (reply: Reply, ghost found: Reply)
      modifies this
      ensures FlatStep(old(db), Get(kind, id), old(db), found) && (found.One? || found == Refused)
      ensures if found.One? then FlatStep(old(db), Erase(found.row), db, Done) && reply == Done
              else reply == Refused && db == old(db)
    {
      var row := GetRow(kind, id);
      found := row;
      if row == Refused { return Refused, row; }
      EraseRow(row.row);
      reply := Done;
    }

    method DeleteJobRow(id: string)
      modifies this
      ensures FlatStep(old(db), DeleteJob(id), db, Done)
    {
      db := db - {JobKey(id)};
    }

    method DeleteRunRow(id: string)
      modifies this
      ensures FlatStep(old(db), DeleteRun(id), db, Done)
    {
      db := db - {RunKey(id)};
    }

    /** Walks all keys, keeping the rows that pass the listing's tests. */
    method List(op: Op) returns (reply: Reply)
      requires IsListing(op)
      ensures FlatStep(db, op, db, reply)
    {
      var rows: set<Row> := {};
      var rest := db.Keys;
      VisitedAll(db, op);
      while rest != {}
        invariant rest <= db.Keys && rows == Visited(db, op, rest)
        decreases |rest|
      {
        var k :| k in rest;
        VisitOne(db, op, rest, k);
        rest := rest - {k};
        if Collected(op, k, db[k]) { rows := rows + {db[k]}; }
      }
      reply := Many(rows);
    }
  }
}
