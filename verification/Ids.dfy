/** Deterministic identifiers: a namespaced hash of a parent identifier and a child name, under a prefix.
    The hash is any function to UUID text; the rendering of a second is any injective function. */
module Ids {

  datatype Namespace = JobNs | TaskNs | OccurrenceNs | TaskRunNs | AttemptNs

  type Hash = (Namespace, string) -> string
  type TimeText = int -> string

  /** The entities that get generated identifiers. */
  datatype Entity =
    | Job(name: string)
    | Task(job: Entity, name: string)
    | Occurrence(job: Entity, second: int)
    | TaskRun(occurrence: Entity, task: Entity)
    | Attempt(run: Entity, number: nat)

  predicate WellFormed(e: Entity) {
    match e
    case Job(_) => true
    case Task(job, _) => job.Job?
    case Occurrence(job, _) => job.Job?
    case TaskRun(occurrence, task) => occurrence.Occurrence? && task.Task? && WellFormed(occurrence) && WellFormed(task)
    case Attempt(run, _) => run.TaskRun? && WellFormed(run)
  }

  function Digit(n: nat): char
    requires n < 10
  {
    ['0', '1', '2', '3', '4', '5', '6', '7', '8', '9'][n]
  }

  function Decimal(n: nat): string {
    if n < 10 then [Digit(n)] else Decimal(n / 10) + [Digit(n % 10)]
  }

  function Combine(parent: string, child: string): string { parent + ":" + child }

  function NamespaceOf(e: Entity): Namespace {
    match e
    case Job(_) => JobNs
    case Task(_, _) => TaskNs
    case Occurrence(_, _) => OccurrenceNs
    case TaskRun(_, _) => TaskRunNs
    case Attempt(_, _) => AttemptNs
  }

  function Prefix(ns: Namespace): string {
    match ns
    case JobNs => "job_"
    case TaskNs => "task_"
    case OccurrenceNs => "occ_"
    case TaskRunNs => "run_"
    case AttemptNs => "attempt_"
  }

  /** The string that is hashed. */
  function PreHash(hash: Hash, text: TimeText, e: Entity): string
    decreases e, 0
  {
    match e
    case Job(name) => name
    case Task(job, name) => Combine(IdOf(hash, text, job), name)
    case Occurrence(job, second) => Combine(IdOf(hash, text, job), text(second))
    case TaskRun(occurrence, task) => Combine(IdOf(hash, text, occurrence), IdOf(hash, text, task))
    case Attempt(run, number) => Combine(IdOf(hash, text, run), Decimal(number))
  }

  function IdOf(hash: Hash, text: TimeText, e: Entity): string
    decreases e, 1
  {
    Prefix(NamespaceOf(e)) + hash(NamespaceOf(e), PreHash(hash, text, e))
  }

  predicate UuidText(s: string) { |s| == 36 && ':' !in s && '/' !in s }

  /** Every hash input on the way to an entity's identifier. */
  function Inputs(hash: Hash, text: TimeText, e: Entity): set<(Namespace, string)> {
    {(NamespaceOf(e), PreHash(hash, text, e))} +
    match e
    case Job(_) => {}
    case Task(job, _) => Inputs(hash, text, job)
    case Occurrence(job, _) => Inputs(hash, text, job)
    case TaskRun(occurrence, task) => Inputs(hash, text, occurrence) + Inputs(hash, text, task)
    case Attempt(run, _) => Inputs(hash, text, run)
  }

  /** On these inputs the hash yields UUID text and does not collide. */
  ghost predicate Distinguishes(hash: Hash, inputs: set<(Namespace, string)>) {
    && (forall p | p in inputs :: UuidText(hash(p.0, p.1)))
    && (forall p, q | p in inputs && q in inputs && p.0 == q.0 && hash(p.0, p.1) == hash(q.0, q.1) :: p == q)
  }

  /** A colon-free parent can be read back from the combined string, whatever the child contains. */
  lemma {:induction false} CombineInjective(a: string, b: string, c: string, d: string)
    requires ':' !in a && ':' !in c && Combine(a, b) == Combine(c, d)
    ensures a == c && b == d
  {
    var s := Combine(a, b);
    assert s[|a|] == ':' && s[|c|] == ':';
    assert forall i | 0 <= i < |a| :: s[i] == a[i] && s[i] != ':';
    assert forall i | 0 <= i < |c| :: s[i] == c[i] && s[i] != ':';
    assert |a| == |c|;
    assert a == s[..|a|] == c;
    assert b == s[|a| + 1..] == d;
  }

  lemma {:induction false} DecimalInjective(m: nat, n: nat)
    requires Decimal(m) == Decimal(n)
    ensures m == n
  {
    var a, b := Decimal(m), Decimal(n);
    LastDigit(m);
    LastDigit(n);
    if m >= 10 && n >= 10 {
      assert a[..|a| - 1] == Decimal(m / 10) && b[..|b| - 1] == Decimal(n / 10);
      DecimalInjective(m / 10, n / 10);
    }
  }

  lemma LastDigit(n: nat)
    ensures |Decimal(n)| >= 1 && Decimal(n)[|Decimal(n)| - 1] == Digit(n % 10)
    ensures |Decimal(n)| == 1 <==> n < 10
  {
  }

  lemma IdShape(hash: Hash, text: TimeText, e: Entity)
    requires Distinguishes(hash, Inputs(hash, text, e))
    ensures var id := IdOf(hash, text, e);
            |id| == |Prefix(NamespaceOf(e))| + 36 && Prefix(NamespaceOf(e)) <= id && ':' !in id && '/' !in id
  {
    assert (NamespaceOf(e), PreHash(hash, text, e)) in Inputs(hash, text, e);
  }

  lemma SameHashInput(hash: Hash, text: TimeText, e: Entity, f: Entity, inputs: set<(Namespace, string)>)
    requires Inputs(hash, text, e) <= inputs && Inputs(hash, text, f) <= inputs && Distinguishes(hash, inputs)
    requires IdOf(hash, text, e) == IdOf(hash, text, f)
    ensures NamespaceOf(e) == NamespaceOf(f) && PreHash(hash, text, e) == PreHash(hash, text, f)
  {
    var p, q := (NamespaceOf(e), PreHash(hash, text, e)), (NamespaceOf(f), PreHash(hash, text, f));
    assert p in inputs && q in inputs;
    var id := IdOf(hash, text, e);
    assert id[0] == Prefix(p.0)[0] == Prefix(q.0)[0];
    assert hash(p.0, p.1) == id[|Prefix(p.0)|..] == hash(q.0, q.1);
  }

  /** Identifiers tell entities apart across the whole hierarchy: unless the hash collides on an input
      that was really hashed, equal identifiers mean the same job, task, occurrence, run or attempt. */
  lemma {:induction false} IdsIdentify(hash: Hash, text: TimeText, e: Entity, f: Entity,
      inputs: set<(Namespace, string)>)
    requires WellFormed(e) && WellFormed(f)
    requires forall x, y :: text(x) == text(y) ==> x == y
    requires Inputs(hash, text, e) <= inputs && Inputs(hash, text, f) <= inputs && Distinguishes(hash, inputs)
    requires IdOf(hash, text, e) == IdOf(hash, text, f)
    ensures e == f
    decreases e
  {
    SameHashInput(hash, text, e, f, inputs);
    match e
    case Job(_) =>
    case Task(job, name) =>
      IdShape(hash, text, job);
      IdShape(hash, text, f.job);
      CombineInjective(IdOf(hash, text, job), name, IdOf(hash, text, f.job), f.name);
      IdsIdentify(hash, text, job, f.job, inputs);
    case Occurrence(job, second) =>
      IdShape(hash, text, job);
      IdShape(hash, text, f.job);
      CombineInjective(IdOf(hash, text, job), text(second), IdOf(hash, text, f.job), text(f.second));
      IdsIdentify(hash, text, job, f.job, inputs);
    case TaskRun(occurrence, task) =>
      IdShape(hash, text, occurrence);
      IdShape(hash, text, f.occurrence);
      CombineInjective(IdOf(hash, text, occurrence), IdOf(hash, text, task),
                       IdOf(hash, text, f.occurrence), IdOf(hash, text, f.task));
      IdsIdentify(hash, text, occurrence, f.occurrence, inputs);
      IdsIdentify(hash, text, task, f.task, inputs);
    case Attempt(run, number) =>
      IdShape(hash, text, run);
      IdShape(hash, text, f.run);
      CombineInjective(IdOf(hash, text, run), Decimal(number), IdOf(hash, text, f.run), Decimal(f.number));
      DecimalInjective(number, f.number);
      IdsIdentify(hash, text, run, f.run, inputs);
  }

  /** What is hashed, and the prefixes: the parent's id, a colon, and the name, the rendered second, the task's id or
      the attempt's number. */
  lemma HashInputs(hash: Hash, text: TimeText, name: string, second: int, number: nat)
    ensures var job := Job(name);
            var jobId := "job_" + hash(JobNs, name);
            var taskId := "task_" + hash(TaskNs, jobId + ":" + name);
            var occId := "occ_" + hash(OccurrenceNs, jobId + ":" + text(second));
            var runId := "run_" + hash(TaskRunNs, occId + ":" + taskId);
            var attemptId := "attempt_" + hash(AttemptNs, runId + ":" + Decimal(number));
            && IdOf(hash, text, job) == jobId && IdOf(hash, text, Task(job, name)) == taskId
            && IdOf(hash, text, Occurrence(job, second)) == occId
            && IdOf(hash, text, TaskRun(Occurrence(job, second), Task(job, name))) == runId
            && IdOf(hash, text, Attempt(TaskRun(Occurrence(job, second), Task(job, name)), number)) == attemptId
  {
  }

  /** The number a string of digits denotes. */
  function ValueOf(s: string): int {
    if s == "" then 0 else 10 * ValueOf(s[..|s| - 1]) + (s[|s| - 1] as int - '0' as int)
  }

  /** Decimal writes a number so that it reads back. */
  lemma {:induction false} DecimalReadsBack(n: nat)
    ensures ValueOf(Decimal(n)) == n
  {
    var s := Decimal(n);
    LastDigit(n);
    if n < 10 {
      assert s[..|s| - 1] == "";
    } else {
      assert s[..|s| - 1] == Decimal(n / 10);
      DecimalReadsBack(n / 10);
    }
  }
}
