/** Typed tables keyed by id, and the proof that the flat store behaves like them. */
module TypedTables {
  import opened Types
  import opened Records
  import opened FlatStore
  import Ids

  /** One table per kind of row, each keyed by id alone. */
  type Tables = map<(Kind, string), Row>

  function IdOf(row: Row): (Kind, string) { (KindOf(row), row.id) }

  /** What a listing asks of a typed row. */
  predicate Wanted(op: Op, row: Row) {
    match op
    case ListJobs => row.JobRow?
    case ListTasks(jobId) => row.TaskRow? && row.jobId == jobId
    case ListRunning => row.OccurrenceRow? && row.status == Running
    case ListStale(cutoff) =>
      row.OccurrenceRow? && row.status == Running && row.startTime.Some? && row.startTime.value < cutoff
    case ListWithStatus(jobId, status) => row.OccurrenceRow? && row.jobId == jobId && row.status == status
    case ListRuns(occurrenceId) => row.RunRow? && row.occurrenceId == occurrenceId
    case ListAttempts(runId) => row.AttemptRow? && row.runId == runId
    case _ => false
  }

  function TypedRows(t: Tables, op: Op): set<Row> { set x | x in t && Wanted(op, t[x]) :: t[x] }

  /** What the operations mean on typed tables. */
  function TypedReply(t: Tables, op: Op): Reply {
    match op
    case Create(row) => if IdOf(row) in t then Refused else Done
    case Update(row) => if IdOf(row) in t then Done else Refused
    case Get(kind, id) => if (kind, id) in t then One(t[(kind, id)]) else Refused
    case Erase(_) => Done
    case DeleteJob(_) => Done
    case DeleteRun(_) => Done
    case _ => Many(TypedRows(t, op))
  }

  function TypedNext(t: Tables, op: Op): Tables {
    match op
    case Create(row) => if IdOf(row) in t then t else t[IdOf(row) := row]
    case Update(row) => if IdOf(row) in t then t[IdOf(row) := row] else t
    case Erase(row) => t - {IdOf(row)}
    case DeleteJob(id) => t - {(JobKind, id)}
    case DeleteRun(id) => t - {(RunKind, id)}
    case _ => t
  }

  // ----- Ids of the generated shape -----

  function NamespaceFor(kind: Kind): Ids.Namespace {
    match kind
    case JobKind => Ids.JobNs
    case TaskKind => Ids.TaskNs
    case OccurrenceKind => Ids.OccurrenceNs
    case RunKind => Ids.TaskRunNs
    case AttemptKind => Ids.AttemptNs
  }

  /** Prefix, fixed length and no slash: what Ids.IdShape proves of every generated id. */
  predicate Shaped(kind: Kind, id: string) {
    var prefix := Ids.Prefix(NamespaceFor(kind));
    |id| == |prefix| + 36 && prefix <= id && '/' !in id
  }

  /** A task's or an occurrence's id belongs to one job: generated ids determine their parent. */
  type Owner = string -> string

  predicate RowShaped(owner: Owner, row: Row) {
    && Shaped(KindOf(row), row.id)
    && (row.TaskRow? || row.OccurrenceRow? ==> Shaped(JobKind, row.jobId) && owner(row.id) == row.jobId)
  }

  predicate OpShaped(owner: Owner, op: Op) {
    match op
    case Create(row) => RowShaped(owner, row)
    case Update(row) => RowShaped(owner, row)
    case Get(kind, id) => Shaped(kind, id)
    case Erase(row) => RowShaped(owner, row)
    case DeleteJob(id) => Shaped(JobKind, id)
    case DeleteRun(id) => Shaped(RunKind, id)
    case ListTasks(jobId) => Shaped(JobKind, jobId)
    case ListWithStatus(jobId, _) => Shaped(JobKind, jobId)
    case _ => true
  }

  // ----- Refinement -----

  /** The flat map holds exactly the rows of the typed tables, each under its own key. */
  ghost predicate Refines(owner: Owner, db: Db, t: Tables) {
    && (forall k | k in db ::
         k == KeyFor(db[k]) && RowShaped(owner, db[k]) && IdOf(db[k]) in t && t[IdOf(db[k])] == db[k])
    && (forall x | x in t :: IdOf(t[x]) == x && KeyFor(t[x]) in db && db[KeyFor(t[x])] == t[x])
  }

  // ----- What the key tests mean on keys of generated ids -----

  lemma JobSlashes(id: string)
    requires Shaped(JobKind, id)
    ensures SlashPositions(JobKey(id)) == {3}
  {
    var k := JobKey(id);
    assert forall i | 4 <= i < |k| :: k[i] == id[i - 4];
  }

  lemma TaskSlashes(jobId: string, id: string)
    requires Shaped(JobKind, jobId) && Shaped(TaskKind, id)
    ensures SlashPositions(TaskKey(jobId, id)) == {3, 44, 49} && |TaskKey(jobId, id)| == 91
  {
    var k := TaskKey(jobId, id);
    assert forall i | 4 <= i < 44 :: k[i] == jobId[i - 4];
    assert forall i | 44 <= i < 50 :: k[i] == "/task/"[i - 44];
    assert forall i | 50 <= i < |k| :: k[i] == id[i - 50];
  }

  lemma OccurrenceSlashes(jobId: string, id: string)
    requires Shaped(JobKind, jobId) && Shaped(OccurrenceKind, id)
    ensures SlashPositions(OccurrenceKey(jobId, id)) == {3, 44, 55} && |OccurrenceKey(jobId, id)| == 96
  {
    var k := OccurrenceKey(jobId, id);
    assert forall i | 4 <= i < 44 :: k[i] == jobId[i - 4];
    assert forall i | 44 <= i < 56 :: k[i] == "/occurrence/"[i - 44];
    assert forall i | 56 <= i < |k| :: k[i] == id[i - 56];
  }

  /** A segment between slashes occurs only where two slashes are as far apart. */
  lemma ContainsNeedsSlashes(k: string, p: string)
    requires Contains(k, p) && |p| >= 2 && p[0] == '/' && p[|p| - 1] == '/'
    ensures exists i :: i in SlashPositions(k) && i + |p| - 1 in SlashPositions(k)
  {
    var i :| 0 <= i <= |k| && MatchesAt(k, p, i);
    assert k[i] == p[0] && k[i + |p| - 1] == p[|p| - 1];
    assert i in SlashPositions(k) && i + |p| - 1 in SlashPositions(k);
  }

  /** What the prefix, slash-count and substring tests answer on each kind of key. */
  lemma KeyTests(owner: Owner, row: Row)
    requires RowShaped(owner, row)
    ensures HasPrefix(KeyFor(row), "job/") <==> row.JobRow? || row.TaskRow? || row.OccurrenceRow?
    ensures HasPrefix(KeyFor(row), "taskrun/") <==> row.RunRow?
    ensures HasPrefix(KeyFor(row), "attempt/") <==> row.AttemptRow?
    ensures JobKeyTest(KeyFor(row)) <==> row.JobRow?
    ensures HasPrefix(KeyFor(row), "job/") ==> (Contains(KeyFor(row), "/task/") <==> row.TaskRow?)
    ensures OccurrenceTest(KeyFor(row)) <==> row.OccurrenceRow?
  {
    var k := KeyFor(row);
    match row
    case JobRow(id, _) =>
      JobSlashes(id);
      assert k[0] == 'j';
      NoSegment(k, "/task/");
      NoSegment(k, "/occurrence/");
    case TaskRow(id, jobId, _) => TaskKeyTests(jobId, id);
    case OccurrenceRow(id, jobId, _, _, _) => OccurrenceKeyTests(jobId, id);
    case RunRow(id, _, _) => assert k[0] == 't';
    case AttemptRow(id, _, _) => assert k[0] == 'a';
  }

  lemma TaskKeyTests(jobId: string, id: string)
    requires Shaped(JobKind, jobId) && Shaped(TaskKind, id)
    ensures var k := TaskKey(jobId, id);
            && HasPrefix(k, "job/") && !HasPrefix(k, "taskrun/") && !HasPrefix(k, "attempt/")
            && !JobKeyTest(k) && Contains(k, "/task/") && !OccurrenceTest(k)
  {
    var k := TaskKey(jobId, id);
    TaskSlashes(jobId, id);
    assert MatchesAt(k, "/task/", 44);
    NoSegment(k, "/occurrence/");
    assert k[0] == 'j';
  }

  lemma OccurrenceKeyTests(jobId: string, id: string)
    requires Shaped(JobKind, jobId) && Shaped(OccurrenceKind, id)
    ensures var k := OccurrenceKey(jobId, id);
            && HasPrefix(k, "job/") && !HasPrefix(k, "taskrun/") && !HasPrefix(k, "attempt/")
            && !JobKeyTest(k) && !Contains(k, "/task/") && OccurrenceTest(k)
  {
    var k := OccurrenceKey(jobId, id);
    OccurrenceSlashes(jobId, id);
    NoSegment(k, "/task/");
    assert MatchesAt(k, "/occurrence/", 44);
    assert k[0] == 'j';
  }

  /** The slash count tells a job's own key from all keys under it. */
  lemma JobKeyTestMeans(k: string)
    ensures JobKeyTest(k) <==> HasPrefix(k, "job/") && forall i | 4 <= i < |k| :: k[i] != '/'
  {
    if HasPrefix(k, "job/") {
      assert k[3] == "job/"[3];
      if i :| 4 <= i < |k| && k[i] == '/' {
        TwoMembers(SlashPositions(k), 3, i);
      } else {
        forall i | 0 <= i < 3 ensures k[i] != '/' { assert k[i] == k[..4][i] == "job/"[i]; }
        assert SlashPositions(k) == {3};
      }
    }
  }

  lemma TwoMembers(s: set<int>, a: int, b: int)
    requires a in s && b in s && a != b
    ensures |s| >= 2
  {
    assert s == {a, b} + (s - {a, b});
    assert |s| == |{a, b}| + |s - {a, b}|;
  }

  lemma NoSegment(k: string, p: string)
    requires |p| >= 2 && p[0] == '/' && p[|p| - 1] == '/'
    requires forall i | i in SlashPositions(k) :: i + |p| - 1 !in SlashPositions(k)
    ensures !Contains(k, p)
  {
    if Contains(k, p) { ContainsNeedsSlashes(k, p); }
  }

  lemma SuffixIsId(s: string, id: string, other: string)
    requires |id| == |other|
    ensures HasSuffix(s + id, other) <==> id == other
  {
    assert (s + id)[|s|..] == id;
  }

  /** An id search passes on a shaped row's key exactly when the row is of that kind and has that id. */
  lemma FoundMeansSame(owner: Owner, row: Row, kind: Kind, id: string)
    requires RowShaped(owner, row) && Shaped(kind, id)
    ensures Found(kind, KeyFor(row), id) <==> KindOf(row) == kind && row.id == id
  {
    KeyTests(owner, row);
    var k := KeyFor(row);
    match kind
    case TaskKind => if row.TaskRow? { SuffixIsId("job/" + row.jobId + "/task/", row.id, id); }
    case OccurrenceKind => if row.OccurrenceRow? { SuffixIsId("job/" + row.jobId + "/occurrence/", row.id, id); }
    case JobKind =>
      if k == JobKey(id) {
        JobSlashes(id);
        assert HasPrefix(k, "job/") && JobKeyTest(k);
        assert k[4..] == id;
      }
    case RunKind => if k == RunKey(id) { assert k[..8] == "taskrun/" && k[8..] == id; }
    case AttemptKind => if k == AttemptKey(id) { assert k[..8] == "attempt/" && k[8..] == id; }
  }

  /** The listing prefixes select exactly the job's own tasks and occurrences. */
  lemma ListPrefixes(owner: Owner, row: Row, jobId: string)
    requires RowShaped(owner, row) && Shaped(JobKind, jobId)
    ensures TasksOfTest(KeyFor(row), jobId) <==> row.TaskRow? && row.jobId == jobId
    ensures OccurrencesOfTest(KeyFor(row), jobId) <==> row.OccurrenceRow? && row.jobId == jobId
  {
    KeyTests(owner, row);
    if row.TaskRow? {
      SegmentPrefix(row.jobId, "/task/", row.id, jobId, "/task/");
      SegmentPrefix(row.jobId, "/task/", row.id, jobId, "/occurrence/");
    } else if row.OccurrenceRow? {
      SegmentPrefix(row.jobId, "/occurrence/", row.id, jobId, "/task/");
      SegmentPrefix(row.jobId, "/occurrence/", row.id, jobId, "/occurrence/");
    } else {
      PrefixStart(KeyFor(row), jobId, "/task/");
      PrefixStart(KeyFor(row), jobId, "/occurrence/");
    }
  }

  lemma PrefixStart(k: string, jobId: string, segment: string)
    ensures HasPrefix(k, "job/" + jobId + segment) ==> HasPrefix(k, "job/")
  {
    var p := "job/" + jobId + segment;
    if HasPrefix(k, p) { assert k[..4] == p[..4]; }
  }

  lemma SegmentPrefix(jobId: string, segment: string, id: string, other: string, wanted: string)
    requires |jobId| == |other| == 40
    requires segment in {"/task/", "/occurrence/"} && wanted in {"/task/", "/occurrence/"}
    ensures HasPrefix("job/" + jobId + segment + id, "job/" + other + wanted) <==> jobId == other && segment == wanted
  {
    var k, p := "job/" + jobId + segment + id, "job/" + other + wanted;
    assert k[4..44] == jobId && p[4..44] == other && p[44..] == wanted;
    assert k[44..44 + |segment|] == segment;
    if HasPrefix(k, p) {
      assert k[4..44] == p[4..44];
      assert k[45] == p[45] == wanted[1];
      assert k[45] == segment[1];
    }
    if jobId == other && segment == wanted { assert k[..|p|] == p; }
  }

  /** Two shaped rows share a key exactly when they are of one kind with one id. */
  lemma KeyIsIdentity(owner: Owner, a: Row, b: Row)
    requires RowShaped(owner, a) && RowShaped(owner, b)
    ensures KeyFor(a) == KeyFor(b) <==> KindOf(a) == KindOf(b) && a.id == b.id
  {
    FoundMeansSame(owner, a, KindOf(b), b.id);
    FoundMeansSame(owner, b, KindOf(b), b.id);
  }

  lemma RowLookup(owner: Owner, db: Db, t: Tables, row: Row)
    requires Refines(owner, db, t) && RowShaped(owner, row)
    ensures KeyFor(row) in db <==> IdOf(row) in t
  {
    if KeyFor(row) in db { KeyIsIdentity(owner, row, db[KeyFor(row)]); }
    if IdOf(row) in t { KeyIsIdentity(owner, row, t[IdOf(row)]); }
  }

  lemma PutRefines(owner: Owner, db: Db, t: Tables, row: Row)
    requires Refines(owner, db, t) && RowShaped(owner, row)
    ensures Refines(owner, db[KeyFor(row) := row], t[IdOf(row) := row])
  {
    var key, x := KeyFor(row), IdOf(row);
    forall k | k in db && k != key ensures IdOf(db[k]) != x { KeyIsIdentity(owner, row, db[k]); }
    forall y | y in t && y != x ensures KeyFor(t[y]) != key {
      assert RowShaped(owner, db[KeyFor(t[y])]);
      KeyIsIdentity(owner, row, t[y]);
    }
    PutKeepsShape(owner, db, t, row, key, x);
  }

  lemma PutKeepsShape(owner: Owner, db: Db, t: Tables, row: Row, key: string, x: (Kind, string))
    requires Refines(owner, db, t) && RowShaped(owner, row) && key == KeyFor(row) && x == IdOf(row)
    requires forall k | k in db && k != key :: IdOf(db[k]) != x
    requires forall y | y in t && y != x :: KeyFor(t[y]) != key
    ensures Refines(owner, db[key := row], t[x := row])
  {
    var db', t' := db[key := row], t[x := row];
    forall k | k in db'
      ensures k == KeyFor(db'[k]) && RowShaped(owner, db'[k]) && IdOf(db'[k]) in t' && t'[IdOf(db'[k])] == db'[k]
    {
      assert k != key ==> db'[k] == db[k];
    }
    forall y | y in t' ensures IdOf(t'[y]) == y && KeyFor(t'[y]) in db' && db'[KeyFor(t'[y])] == t'[y] {
      assert y != x ==> t'[y] == t[y];
    }
  }

  /** A search meets a key exactly when the table holds the id, and then only that row's key. */
  lemma SearchMeansTable(owner: Owner, db: Db, t: Tables, kind: Kind, id: string)
    requires Refines(owner, db, t) && Shaped(kind, id)
    ensures forall k | k in db :: Found(kind, k, id) <==> IdOf(db[k]) == (kind, id)
    ensures (kind, id) in t ==> KeyFor(t[(kind, id)]) in db && Found(kind, KeyFor(t[(kind, id)]), id)
  {
    forall k | k in db ensures Found(kind, k, id) <==> IdOf(db[k]) == (kind, id) {
      FoundMeansSame(owner, db[k], kind, id);
    }
  }

  lemma GetSimulates(owner: Owner, db: Db, t: Tables, kind: Kind, id: string, db': Db, reply: Reply)
    requires Refines(owner, db, t) && Shaped(kind, id) && FlatStep(db, Get(kind, id), db', reply)
    ensures reply == TypedReply(t, Get(kind, id)) && db' == db
  {
    SearchMeansTable(owner, db, t, kind, id);
  }

  /** Erasing a row's key removes whatever is stored under that row's id by then. */
  lemma EraseSimulates(owner: Owner, db: Db, t: Tables, row: Row)
    requires Refines(owner, db, t) && RowShaped(owner, row)
    ensures Refines(owner, db - {KeyFor(row)}, t - {IdOf(row)})
  {
    forall k | k in db ensures k == KeyFor(row) <==> IdOf(db[k]) == IdOf(row) { KeyIsIdentity(owner, db[k], row); }
    DropRefines(owner, db, t, IdOf(row), db - {KeyFor(row)});
  }

  lemma DeleteSimulates(owner: Owner, db: Db, t: Tables, kind: Kind, id: string, key: string)
    requires Refines(owner, db, t) && Shaped(kind, id)
    requires (kind == JobKind && key == JobKey(id)) || (kind == RunKind && key == RunKey(id))
    ensures Refines(owner, db - {key}, t - {(kind, id)})
  {
    SearchMeansTable(owner, db, t, kind, id);
    DropRefines(owner, db, t, (kind, id), db - {key});
  }

  lemma DropRefines(owner: Owner, db: Db, t: Tables, x: (Kind, string), db': Db)
    requires Refines(owner, db, t)
    requires forall k | k in db' :: k in db && db'[k] == db[k]
    requires forall k | k in db :: k in db' <==> IdOf(db[k]) != x
    ensures Refines(owner, db', t - {x})
  {
  }

  lemma CollectedMeansWanted(owner: Owner, op: Op, row: Row)
    requires RowShaped(owner, row) && OpShaped(owner, op) && IsListing(op)
    ensures Collected(op, KeyFor(row), row) <==> Wanted(op, row)
  {
    KeyTests(owner, row);
    match op
    case ListTasks(jobId) => ListPrefixes(owner, row, jobId);
    case ListWithStatus(jobId, _) => ListPrefixes(owner, row, jobId);
    case _ =>
  }

  lemma ListSimulates(owner: Owner, db: Db, t: Tables, op: Op, db': Db, reply: Reply)
    requires Refines(owner, db, t) && OpShaped(owner, op) && IsListing(op) && FlatStep(db, op, db', reply)
    ensures reply == TypedReply(t, op) && db' == db
  {
    forall k | k in db ensures Collected(op, k, db[k]) <==> Wanted(op, db[k]) {
      CollectedMeansWanted(owner, op, db[k]);
    }
    SameListing(owner, db, t, op);
  }

  lemma SameListing(owner: Owner, db: Db, t: Tables, op: Op)
    requires Refines(owner, db, t) && forall k | k in db :: Collected(op, k, db[k]) <==> Wanted(op, db[k])
    ensures FlatRows(db, op) == TypedRows(t, op)
  {
    forall row ensures row in FlatRows(db, op) <==> row in TypedRows(t, op) {
      if row in FlatRows(db, op) { CollectedIsWanted(owner, db, t, op, row); }
      if row in TypedRows(t, op) { WantedIsCollected(owner, db, t, op, row); }
    }
  }

  lemma CollectedIsWanted(owner: Owner, db: Db, t: Tables, op: Op, row: Row)
    requires Refines(owner, db, t) && forall k | k in db :: Collected(op, k, db[k]) <==> Wanted(op, db[k])
    requires row in FlatRows(db, op)
    ensures row in TypedRows(t, op)
  {
    var k :| k in db && Collected(op, k, db[k]) && db[k] == row;
    assert IdOf(row) in t && t[IdOf(row)] == row;
  }

  lemma WantedIsCollected(owner: Owner, db: Db, t: Tables, op: Op, row: Row)
    requires Refines(owner, db, t) && forall k | k in db :: Collected(op, k, db[k]) <==> Wanted(op, db[k])
    requires row in TypedRows(t, op)
    ensures row in FlatRows(db, op)
  {
    var x :| x in t && Wanted(op, t[x]) && t[x] == row;
    assert KeyFor(row) in db && db[KeyFor(row)] == row;
  }

  /** One operation: the flat store answers as the typed tables do, and refines them again afterwards. */
  lemma StepSimulates(owner: Owner, db: Db, t: Tables, op: Op, db': Db, reply: Reply)
    requires Refines(owner, db, t) && OpShaped(owner, op) && FlatStep(db, op, db', reply)
    ensures reply == TypedReply(t, op) && Refines(owner, db', TypedNext(t, op))
  {
    match op
    case Create(row) => RowLookup(owner, db, t, row); PutRefines(owner, db, t, row);
    case Update(row) => RowLookup(owner, db, t, row); PutRefines(owner, db, t, row);
    case Get(kind, id) => GetSimulates(owner, db, t, kind, id, db', reply);
    case Erase(row) => EraseSimulates(owner, db, t, row);
    case DeleteJob(id) => DeleteSimulates(owner, db, t, JobKind, id, JobKey(id));
    case DeleteRun(id) => DeleteSimulates(owner, db, t, RunKind, id, RunKey(id));
    case _ => ListSimulates(owner, db, t, op, db', reply);
  }

  // ----- Every sequence of operations -----

  ghost predicate FlatRun(dbs: seq<Db>, ops: seq<Op>, replies: seq<Reply>) {
    && |dbs| == |ops| + 1 && |replies| == |ops| && dbs[0] == map[]
    && forall i | 0 <= i < |ops| :: FlatStep(dbs[i], ops[i], dbs[i + 1], replies[i])
  }

  function TypedAfter(ops: seq<Op>): Tables {
    if ops == [] then map[] else TypedNext(TypedAfter(ops[..|ops| - 1]), ops[|ops| - 1])
  }

  /** From an empty store, every sequence of operations on generated ids is answered as typed tables would
      answer it, whatever order keys are scanned in. */
  lemma {:induction false} FlatStoreRefinesTables(owner: Owner, dbs: seq<Db>, ops: seq<Op>, replies: seq<Reply>, i: nat)
    requires FlatRun(dbs, ops, replies) && i <= |ops|
    requires forall op | op in ops :: OpShaped(owner, op)
    ensures Refines(owner, dbs[i], TypedAfter(ops[..i]))
    ensures i < |ops| ==> replies[i] == TypedReply(TypedAfter(ops[..i]), ops[i])
  {
    if i == 0 {
    } else {
      FlatStoreRefinesTables(owner, dbs, ops, replies, i - 1);
      assert ops[..i][..i - 1] == ops[..i - 1] && ops[..i] != [] && ops[..i][i - 1] == ops[i - 1];
      StepSimulates(owner, dbs[i - 1], TypedAfter(ops[..i - 1]), ops[i - 1], dbs[i], replies[i - 1]);
    }
    if i < |ops| {
      var next := TypedAfter(ops[..i]);
      StepSimulates(owner, dbs[i], next, ops[i], dbs[i + 1], replies[i]);
    }
  }

  /** A deletion's two transactions, with anything between them: after the second, no key is left that a search
      for the id would find, even if the row was rewritten or created anew in the meantime. */
  lemma DeletionLeavesNothing(owner: Owner, dbs: seq<Db>, ops: seq<Op>, replies: seq<Reply>, i: nat, j: nat)
    requires FlatRun(dbs, ops, replies) && i < j < |ops| && forall op | op in ops :: OpShaped(owner, op)
    requires ops[i].Get? && replies[i].One? && ops[j] == Erase(replies[i].row)
    ensures (ops[i].kind, ops[i].id) !in TypedAfter(ops[..j + 1])
    ensures forall k | k in dbs[j + 1] :: !Found(ops[i].kind, k, ops[i].id)
  {
    GotRow(owner, dbs, ops, replies, i);
    FlatStoreRefinesTables(owner, dbs, ops, replies, j + 1);
    ErasedIsGone(ops, j);
    GoneMeansNotFound(owner, dbs[j + 1], TypedAfter(ops[..j + 1]), ops[i].kind, ops[i].id);
  }

  lemma ErasedIsGone(ops: seq<Op>, j: nat)
    requires j < |ops| && ops[j].Erase?
    ensures IdOf(ops[j].row) !in TypedAfter(ops[..j + 1])
  {
    assert ops[..j + 1][..j] == ops[..j] && ops[..j + 1][j] == ops[j];
  }

  lemma GotRow(owner: Owner, dbs: seq<Db>, ops: seq<Op>, replies: seq<Reply>, i: nat)
    requires FlatRun(dbs, ops, replies) && i < |ops| && forall op | op in ops :: OpShaped(owner, op)
    requires ops[i].Get? && replies[i].One?
    ensures Shaped(ops[i].kind, ops[i].id) && IdOf(replies[i].row) == (ops[i].kind, ops[i].id)
  {
    assert ops[i] in ops && OpShaped(owner, ops[i]);
    FlatStoreRefinesTables(owner, dbs, ops, replies, i);
    TypedGet(owner, dbs[i], TypedAfter(ops[..i]), ops[i].kind, ops[i].id, replies[i]);
  }

  lemma TypedGet(owner: Owner, db: Db, t: Tables, kind: Kind, id: string, reply: Reply)
    requires Refines(owner, db, t) && reply == TypedReply(t, Get(kind, id)) && reply.One?
    ensures IdOf(reply.row) == (kind, id)
  {
  }

  lemma GoneMeansNotFound(owner: Owner, db: Db, t: Tables, kind: Kind, id: string)
    requires Refines(owner, db, t) && Shaped(kind, id) && (kind, id) !in t
    ensures forall k | k in db :: !Found(kind, k, id)
  {
    SearchMeansTable(owner, db, t, kind, id);
  }
}
