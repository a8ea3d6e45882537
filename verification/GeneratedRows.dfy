/** Rows and operations built with generated identifiers have the shape the refinement asks for. */
module GeneratedRows {
  import opened FlatStore
  import TypedTables
  import Ids

  /** One scheduler installation: its hash, its rendering of seconds, and the inputs it ever hashes. */
  datatype Generator = Generator(hash: Ids.Hash, text: Ids.TimeText, inputs: set<(Ids.Namespace, string)>)

  ghost predicate Sound(g: Generator) {
    && Ids.Distinguishes(g.hash, g.inputs)
    && forall x, y :: g.text(x) == g.text(y) ==> x == y
  }

  ghost predicate Generated(g: Generator, e: Ids.Entity) {
    Ids.WellFormed(e) && Ids.Inputs(g.hash, g.text, e) <= g.inputs
  }

  ghost function Id(g: Generator, e: Ids.Entity): string { Ids.IdOf(g.hash, g.text, e) }

  /** A row of an entity: its id, and for tasks and occurrences the id of their job. */
  ghost predicate RowOf(g: Generator, e: Ids.Entity, row: Row) {
    && row.id == Id(g, e)
    && match row
       case JobRow(_, _) => e.Job?
       case TaskRow(_, jobId, _) => e.Task? && jobId == Id(g, e.job)
       case OccurrenceRow(_, jobId, _, _, _) => e.Occurrence? && jobId == Id(g, e.job)
       case RunRow(_, _, _) => e.TaskRun?
       case AttemptRow(_, _, _) => e.Attempt?
  }

  ghost predicate GeneratedRow(g: Generator, row: Row) { exists e :: Generated(g, e) && RowOf(g, e, row) }

  ghost predicate GeneratedId(g: Generator, kind: Kind, id: string) {
    exists e :: Generated(g, e) && Ids.NamespaceOf(e) == TypedTables.NamespaceFor(kind) && id == Id(g, e)
  }

  ghost predicate GeneratedOp(g: Generator, op: Op) {
    match op
    case Create(row) => GeneratedRow(g, row)
    case Update(row) => GeneratedRow(g, row)
    case Erase(row) => GeneratedRow(g, row)
    case Get(kind, id) => GeneratedId(g, kind, id)
    case DeleteJob(id) => GeneratedId(g, JobKind, id)
    case DeleteRun(id) => GeneratedId(g, RunKind, id)
    case ListTasks(jobId) => GeneratedId(g, JobKind, jobId)
    case ListWithStatus(jobId, _) => GeneratedId(g, JobKind, jobId)
    case _ => true
  }

  // ----- The owner of a generated id -----

  ghost predicate Owned(g: Generator, e: Ids.Entity, id: string) {
    Generated(g, e) && (e.Task? || e.Occurrence?) && Id(g, e) == id
  }

  /** The job id of the task or occurrence with this id. */
  ghost function OwnerOf(g: Generator): TypedTables.Owner {
    id => if exists e :: Owned(g, e, id) then (var e :| Owned(g, e, id); Id(g, e.job)) else ""
  }

  lemma OwnerIsJob(g: Generator, e: Ids.Entity)
    requires Sound(g) && Owned(g, e, Id(g, e))
    ensures OwnerOf(g)(Id(g, e)) == Id(g, e.job)
  {
    forall f | Owned(g, f, Id(g, e)) ensures f == e {
      Ids.IdsIdentify(g.hash, g.text, f, e, g.inputs);
    }
  }

  lemma GeneratedIsShaped(g: Generator, kind: Kind, e: Ids.Entity)
    requires Sound(g) && Generated(g, e) && Ids.NamespaceOf(e) == TypedTables.NamespaceFor(kind)
    ensures TypedTables.Shaped(kind, Id(g, e))
  {
    Ids.IdShape(g.hash, g.text, e);
  }

  lemma GeneratedRowIsShaped(g: Generator, row: Row)
    requires Sound(g) && GeneratedRow(g, row)
    ensures TypedTables.RowShaped(OwnerOf(g), row)
  {
    var e :| Generated(g, e) && RowOf(g, e, row);
    GeneratedIsShaped(g, KindOf(row), e);
    if e.Task? || e.Occurrence? {
      GeneratedIsShaped(g, JobKind, e.job);
      OwnerIsJob(g, e);
    }
  }

  lemma GeneratedIdIsShaped(g: Generator, kind: Kind, id: string)
    requires Sound(g) && GeneratedId(g, kind, id)
    ensures TypedTables.Shaped(kind, id)
  {
    var e :| Generated(g, e) && Ids.NamespaceOf(e) == TypedTables.NamespaceFor(kind) && id == Id(g, e);
    GeneratedIsShaped(g, kind, e);
  }

  lemma GeneratedOpIsShaped(g: Generator, op: Op)
    requires Sound(g) && GeneratedOp(g, op)
    ensures TypedTables.OpShaped(OwnerOf(g), op)
  {
    match op
    case Create(row) => GeneratedRowIsShaped(g, row);
    case Update(row) => GeneratedRowIsShaped(g, row);
    case Erase(row) => GeneratedRowIsShaped(g, row);
    case Get(kind, id) => GeneratedIdIsShaped(g, kind, id);
    case DeleteJob(id) => GeneratedIdIsShaped(g, JobKind, id);
    case DeleteRun(id) => GeneratedIdIsShaped(g, RunKind, id);
    case ListTasks(jobId) => GeneratedIdIsShaped(g, JobKind, jobId);
    case ListWithStatus(jobId, _) => GeneratedIdIsShaped(g, JobKind, jobId);
    case _ =>
  }

  /** From an empty store, any sequence of operations on generated ids, whose hash does not collide on the inputs
      really hashed, is answered as typed tables would answer it. */
  lemma GeneratedOpsRefineTables(g: Generator, dbs: seq<Db>, ops: seq<Op>, replies: seq<Reply>, i: nat)
    requires Sound(g) && TypedTables.FlatRun(dbs, ops, replies) && i < |ops|
    requires forall op | op in ops :: GeneratedOp(g, op)
    ensures replies[i] == TypedTables.TypedReply(TypedTables.TypedAfter(ops[..i]), ops[i])
    ensures TypedTables.Refines(OwnerOf(g), dbs[i], TypedTables.TypedAfter(ops[..i]))
  {
    forall op | op in ops ensures TypedTables.OpShaped(OwnerOf(g), op) { GeneratedOpIsShaped(g, op); }
    TypedTables.FlatStoreRefinesTables(OwnerOf(g), dbs, ops, replies, i);
  }
}
