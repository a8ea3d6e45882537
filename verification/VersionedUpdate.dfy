/** Versioned job updates on one node: the in-memory job, the stored job, and how an update that fails
    half-way separates them for good. */
module VersionedUpdate {
  import opened Types

  datatype Info = Info(name: string, order: int)

  datatype Task = Task(id: string, info: Info)

  datatype StoredTask = StoredTask(jobId: string, info: Info)

  /** A ticker by name, and whether it was started. */
  datatype Ticker = Ticker(name: string, started: bool)

  /** A job as the scheduler holds it. */
  datatype MemJob = MemJob(version: int, config: string, ticker: Ticker, active: bool, paused: bool, tasks: seq<Task>)

  /** The job record in the store. */
  datatype StoredJob = StoredJob(version: int, config: string)

  datatype JobUpdate = JobUpdate(
    jobId: string, expectedVersion: int, newConfig: Option<string>, newTicker: Option<string>,
    added: seq<Task>, removed: seq<string>, updated: seq<Task>)

  /** Which store calls fail for reasons of their own: reading and writing the job record, the calls for each
      task change, and those of the schedule update. */
  datatype Faults = Faults(
    read: bool, write: bool, add: nat -> bool, remove: nat -> bool, update: nat -> bool, schedule: bool)

  type Infos = map<string, Info>
  type StoredTasks = map<string, StoredTask>

  // ----- Task changes, in the store's order and with its errors -----

  datatype Effect = Effect(ok: bool, tasks: StoredTasks)

  /** Creates each task; stops at the first id that exists or call that fails. */
  function AddAll(tasks: StoredTasks, jobId: string, added: seq<Task>, fails: nat -> bool, n: nat): Effect
    requires n <= |added|
  {
    if n == 0 then Effect(true, tasks)
    else
      var before, t := AddAll(tasks, jobId, added, fails, n - 1), added[n - 1];
      if !before.ok then before
      else if fails(n - 1) || t.id in before.tasks then Effect(false, before.tasks)
      else Effect(true, before.tasks[t.id := StoredTask(jobId, t.info)])
  }

  /** Deletes each task; stops at the first id that is not found or call that fails. */
  function RemoveAll(tasks: StoredTasks, removed: seq<string>, fails: nat -> bool, n: nat): Effect
    requires n <= |removed|
  {
    if n == 0 then Effect(true, tasks)
    else
      var before, id := RemoveAll(tasks, removed, fails, n - 1), removed[n - 1];
      if !before.ok then before
      else if fails(n - 1) || id !in before.tasks then Effect(false, before.tasks)
      else Effect(true, before.tasks - {id})
  }

  /** Rewrites each task's name and order; stops at the first id that is not found or call that fails. */
  function UpdateAll(tasks: StoredTasks, updated: seq<Task>, fails: nat -> bool, n: nat): Effect
    requires n <= |updated|
  {
    if n == 0 then Effect(true, tasks)
    else
      var before, t := UpdateAll(tasks, updated, fails, n - 1), updated[n - 1];
      if !before.ok then before
      else if fails(n - 1) || t.id !in before.tasks then Effect(false, before.tasks)
      else Effect(true, before.tasks[t.id := before.tasks[t.id].(info := t.info)])
  }

  /** Everything after the write of the job record: task changes in turn, then the schedule update of a new ticker. */
  function ChangeTasks(tasks: StoredTasks, u: JobUpdate, f: Faults): Effect {
    var a := AddAll(tasks, u.jobId, u.added, f.add, |u.added|);
    if !a.ok then a
    else
      var r := RemoveAll(a.tasks, u.removed, f.remove, |u.removed|);
      if !r.ok then r
      else
        var e := UpdateAll(r.tasks, u.updated, f.update, |u.updated|);
        if u.newTicker.Some? && f.schedule then Effect(false, e.tasks) else e
  }

  /** The job record an update writes; serialising a configuration yields no bytes. */
  function Rewritten(job: StoredJob, u: JobUpdate): StoredJob {
    StoredJob(job.version + 1, if u.newConfig.Some? then "" else job.config)
  }

  /** The update reaches the write of the job record and that write succeeds. */
  predicate WritesJob(jobs: map<string, StoredJob>, u: JobUpdate, f: Faults) {
    !f.read && u.jobId in jobs && jobs[u.jobId].version == u.expectedVersion && !f.write
  }

  /** The store's job and task tables. Tasks are found by id alone. */
  class JobStore {
    var jobs: map<string, StoredJob>
    var tasks: StoredTasks

    constructor (jobs: map<string, StoredJob>, tasks: StoredTasks)
      ensures this.jobs == jobs && this.tasks == tasks
    {
      this.jobs, this.tasks := jobs, tasks;
    }

    /** Checks the stored version, writes the job record, then applies the task changes one by one and the
        schedule update; an error in these leaves what was already written. */
    method ApplyUpdate(u: JobUpdate, f: Faults) returns (ok: bool)
      modifies this
      ensures var e := ChangeTasks(old(tasks), u, f);
              if WritesJob(old(jobs), u, f) then
                ok == e.ok && jobs == old(jobs)[u.jobId := Rewritten(old(jobs)[u.jobId], u)] && tasks == e.tasks
              else !ok && jobs == old(jobs) && tasks == old(tasks)
    {
      if f.read || u.jobId !in jobs || jobs[u.jobId].version != u.expectedVersion || f.write { return false; }
      jobs := jobs[u.jobId := Rewritten(jobs[u.jobId], u)];
      ok := AddTasks(u.jobId, u.added, f.add);
      if !ok { return; }
      ok := RemoveTasks(u.removed, f.remove);
      if !ok { return; }
      ok := UpdateTasks(u.updated, f.update);
      if ok && u.newTicker.Some? && f.schedule { ok := false; }
    }

    method AddTasks(jobId: string, added: seq<Task>, fails: nat -> bool) returns (ok: bool)
      modifies this`tasks
      ensures AddAll(old(tasks), jobId, added, fails, |added|) == Effect(ok, tasks)
    {
      for i := 0 to |added|
        invariant AddAll(old(tasks), jobId, added, fails, i) == Effect(true, tasks)
      {
        if fails(i) || added[i].id in tasks {
          AddStuck(old(tasks), jobId, added, fails, i + 1, |added|);
          return false;
        }
        tasks := tasks[added[i].id := StoredTask(jobId, added[i].info)];
      }
      ok := true;
    }

    method RemoveTasks(removed: seq<string>, fails: nat -> bool) returns (ok: bool)
      modifies this`tasks
      ensures RemoveAll(old(tasks), removed, fails, |removed|) == Effect(ok, tasks)
    {
      for i := 0 to |removed|
        invariant RemoveAll(old(tasks), removed, fails, i) == Effect(true, tasks)
      {
        if fails(i) || removed[i] !in tasks {
          RemoveStuck(old(tasks), removed, fails, i + 1, |removed|);
          return false;
        }
        tasks := tasks - {removed[i]};
      }
      ok := true;
    }

    method UpdateTasks(updated: seq<Task>, fails: nat -> bool) returns (ok: bool)
      modifies this`tasks
      ensures UpdateAll(old(tasks), updated, fails, |updated|) == Effect(ok, tasks)
    {
      for i := 0 to |updated|
        invariant UpdateAll(old(tasks), updated, fails, i) == Effect(true, tasks)
      {
        if fails(i) || updated[i].id !in tasks {
          UpdateStuck(old(tasks), updated, fails, i + 1, |updated|);
          return false;
        }
        tasks := tasks[updated[i].id := tasks[updated[i].id].(info := updated[i].info)];
      }
      ok := true;
    }
  }

  lemma {:induction false} AddStuck(tasks: StoredTasks, jobId: string, added: seq<Task>, fails: nat -> bool, m: nat,
      n: nat)
    requires m <= n <= |added| && !AddAll(tasks, jobId, added, fails, m).ok
    ensures AddAll(tasks, jobId, added, fails, n) == AddAll(tasks, jobId, added, fails, m)
  {
    if m < n { AddStuck(tasks, jobId, added, fails, m, n - 1); }
  }

  lemma {:induction false} RemoveStuck(tasks: StoredTasks, removed: seq<string>, fails: nat -> bool, m: nat, n: nat)
    requires m <= n <= |removed| && !RemoveAll(tasks, removed, fails, m).ok
    ensures RemoveAll(tasks, removed, fails, n) == RemoveAll(tasks, removed, fails, m)
  {
    if m < n { RemoveStuck(tasks, removed, fails, m, n - 1); }
  }

  lemma {:induction false} UpdateStuck(tasks: StoredTasks, updated: seq<Task>, fails: nat -> bool, m: nat, n: nat)
    requires m <= n <= |updated| && !UpdateAll(tasks, updated, fails, m).ok
    ensures UpdateAll(tasks, updated, fails, n) == UpdateAll(tasks, updated, fails, m)
  {
    if m < n { UpdateStuck(tasks, updated, fails, m, n - 1); }
  }

  // ----- The in-memory side -----

  /** The task list as a map; with distinct ids it loses only the order, which a rebuild makes arbitrary. */
  function AsMap(tasks: seq<Task>): Infos {
    if tasks == [] then map[] else AsMap(tasks[..|tasks| - 1])[tasks[|tasks| - 1].id := tasks[|tasks| - 1].info]
  }

  function Without(m: Infos, ids: seq<string>): Infos { map id | id in m && id !in ids :: m[id] }

  function Overwrite(m: Infos, updated: seq<Task>): Infos {
    if updated == [] then m
    else
      var before, t := Overwrite(m, updated[..|updated| - 1]), updated[|updated| - 1];
      if t.id in before then before[t.id := t.info] else before
  }

  function ChangeInfos(m: Infos, u: JobUpdate): Infos {
    Overwrite(Without(m + AsMap(u.added), u.removed), u.updated)
  }

  /** The tasks after the scheduler's changes, id by id: those it had or got added and not removed; the last update of a
      remaining task decides its info, and updates of tasks that are not there do nothing. */
  lemma ChangeInfosMeans(m: Infos, u: JobUpdate, id: string)
    ensures id in ChangeInfos(m, u) <==> (id in m || exists t :: t in u.added && t.id == id) && id !in u.removed
    ensures id in ChangeInfos(m, u) && (forall t | t in u.added + u.updated :: t.id != id) ==>
              ChangeInfos(m, u)[id] == m[id]
    ensures forall j | 0 <= j < |u.updated| && u.updated[j].id == id && id in ChangeInfos(m, u) ::
              (forall i | j < i < |u.updated| :: u.updated[i].id != id) ==> ChangeInfos(m, u)[id] == u.updated[j].info
  {
    AsMapIds(u.added);
    OverwriteMeans(Without(m + AsMap(u.added), u.removed), u.updated, id);
    assert id in AsMap(u.added) <==> exists t :: t in u.added && t.id == id;
  }

  lemma {:induction false} OverwriteMeans(m: Infos, updated: seq<Task>, id: string)
    ensures id in Overwrite(m, updated) <==> id in m
    ensures id in m && (forall t | t in updated :: t.id != id) ==> Overwrite(m, updated)[id] == m[id]
    ensures forall j | 0 <= j < |updated| && updated[j].id == id && id in m ::
              (forall i | j < i < |updated| :: updated[i].id != id) ==> Overwrite(m, updated)[id] == updated[j].info
  {
    if updated == [] {
    } else {
      var front, t := updated[..|updated| - 1], updated[|updated| - 1];
      OverwriteMeans(m, front, id);
      assert forall x | x in front :: x in updated;
      assert t in updated;
    }
  }

  ghost predicate DistinctIds(tasks: seq<Task>) { forall i, j | 0 <= i < j < |tasks| :: tasks[i].id != tasks[j].id }

  lemma {:induction false} AsMapIds(tasks: seq<Task>)
    ensures forall id :: id in AsMap(tasks) <==> exists i :: 0 <= i < |tasks| && tasks[i].id == id
  {
    if tasks == [] {
    } else {
      AsMapIds(tasks[..|tasks| - 1]);
    }
  }

  lemma AppendFresh(tasks: seq<Task>, t: Task)
    requires DistinctIds(tasks) && t.id !in AsMap(tasks)
    ensures DistinctIds(tasks + [t]) && AsMap(tasks + [t]) == AsMap(tasks)[t.id := t.info]
  {
    AsMapIds(tasks);
    assert (tasks + [t])[..|tasks|] == tasks;
  }

  // ----- One node -----

  /** A job in memory without the order of its tasks. */
  datatype MemView = MemView(version: int, config: string, ticker: Ticker, active: bool, paused: bool, infos: Infos)

  function ViewOf(job: MemJob): MemView {
    MemView(job.version, job.config, job.ticker, job.active, job.paused, AsMap(job.tasks))
  }

  function Views(jobs: map<string, MemJob>): map<string, MemView> { map id | id in jobs :: ViewOf(jobs[id]) }

  lemma ViewsPut(jobs: map<string, MemJob>, id: string, job: MemJob)
    ensures Views(jobs[id := job]) == Views(jobs)[id := ViewOf(job)]
  {
  }

  /** What the node holds and what is stored, as values. */
  datatype World = World(mem: map<string, MemView>, jobs: map<string, StoredJob>, tasks: StoredTasks)

  /** The job in memory after an accepted update. A new ticker is started if the job and the scheduler run. */
  function Accepted(job: MemView, u: JobUpdate, running: bool): MemView {
    MemView(job.version + 1,
            if u.newConfig.Some? then u.newConfig.value else job.config,
            if u.newTicker.Some? then Ticker(u.newTicker.value, job.active && !job.paused && running) else job.ticker,
            job.active, job.paused, ChangeInfos(job.infos, u))
  }

  /** One UpdateJob call. */
  function Next(w: World, u: JobUpdate, f: Faults, running: bool): (World, bool) {
    if u.jobId !in w.mem || w.mem[u.jobId].version != u.expectedVersion || !WritesJob(w.jobs, u, f) then (w, false)
    else
      var e := ChangeTasks(w.tasks, u, f);
      var stored := w.(jobs := w.jobs[u.jobId := Rewritten(w.jobs[u.jobId], u)], tasks := e.tasks);
      if !e.ok then (stored, false) else (stored.(mem := w.mem[u.jobId := Accepted(w.mem[u.jobId], u, running)]), true)
  }

  class Scheduler {
    var jobs: map<string, MemJob>
    var running: bool
    const store: JobStore

    constructor (jobs: map<string, MemJob>, running: bool, store: JobStore)
      ensures this.jobs == jobs && this.running == running && this.store == store
    {
      this.jobs, this.running, this.store := jobs, running, store;
    }

    ghost function ToWorld(): World
      reads this, store
    {
      World(Views(jobs), store.jobs, store.tasks)
    }

    /** Verifies the version, applies the update to the store, and only then changes the job in memory: its
        configuration, its ticker, and its task list, which is rebuilt from a map in no particular order. */
    method UpdateJob(u: JobUpdate, f: Faults) returns (ok: bool)
      modifies this`jobs, store
      ensures (ToWorld(), ok) == Next(old(ToWorld()), u, f, running)
      ensures ok ==> u.jobId in jobs && DistinctIds(jobs[u.jobId].tasks)
    {
      if u.jobId !in jobs || jobs[u.jobId].version != u.expectedVersion { return false; }
      ok := store.ApplyUpdate(u, f);
      if !ok { return; }
      Accept(u);
    }

    /** The changes in memory once the store accepted the update. */
    method Accept(u: JobUpdate)
      requires u.jobId in jobs
      modifies this`jobs
      ensures Views(jobs) == Views(old(jobs))[u.jobId := Accepted(ViewOf(old(jobs)[u.jobId]), u, running)]
      ensures u.jobId in jobs && DistinctIds(jobs[u.jobId].tasks)
    {
      var job := jobs[u.jobId];
      if u.newConfig.Some? { job := job.(config := u.newConfig.value); }
      if u.newTicker.Some? { job := job.(ticker := Ticker(u.newTicker.value, job.active && !job.paused && running)); }
      var infos := BuildMap(job.tasks, u);
      var tasks := Rebuild(infos);
      jobs := jobs[u.jobId := job.(version := job.version + 1, tasks := tasks)];
      ViewsPut(old(jobs), u.jobId, jobs[u.jobId]);
    }
  }

  /** Adds, removes and updates entries of the map over the old list. */
  method BuildMap(tasks: seq<Task>, u: JobUpdate) returns (infos: Infos)
    ensures infos == ChangeInfos(AsMap(tasks), u)
  {
    infos := map[];
    for i := 0 to |tasks|
      invariant infos == AsMap(tasks[..i])
    {
      assert tasks[..i + 1][..i] == tasks[..i];
      infos := infos[tasks[i].id := tasks[i].info];
    }
    assert tasks[..|tasks|] == tasks;
    for i := 0 to |u.added|
      invariant infos == AsMap(tasks) + AsMap(u.added[..i])
    {
      assert u.added[..i + 1][..i] == u.added[..i];
      infos := infos[u.added[i].id := u.added[i].info];
    }
    assert u.added[..|u.added|] == u.added;
    ghost var all := infos;
    for i := 0 to |u.removed|
      invariant infos == Without(all, u.removed[..i])
    {
      infos := infos - {u.removed[i]};
      assert forall id :: id in u.removed[..i + 1] <==> id in u.removed[..i] || id == u.removed[i];
    }
    assert u.removed[..|u.removed|] == u.removed;
    ghost var kept := infos;
    for i := 0 to |u.updated|
      invariant infos == Overwrite(kept, u.updated[..i])
    {
      assert u.updated[..i + 1][..i] == u.updated[..i];
      if u.updated[i].id in infos { infos := infos[u.updated[i].id := u.updated[i].info]; }
    }
    assert u.updated[..|u.updated|] == u.updated;
  }

  /** Lists a map's entries in no particular order. */
  method Rebuild(infos: Infos) returns (tasks: seq<Task>)
    ensures AsMap(tasks) == infos && DistinctIds(tasks)
  {
    tasks := [];
    var rest := infos;
    while rest != map[]
      invariant rest.Keys <= infos.Keys && forall id | id in rest :: rest[id] == infos[id]
      invariant AsMap(tasks) == map id | id in infos && id !in rest :: infos[id]
      invariant DistinctIds(tasks)
      decreases |rest|
    {
      var id :| id in rest;
      AppendFresh(tasks, Task(id, infos[id]));
      tasks := tasks + [Task(id, infos[id])];
      rest := rest - {id};
    }
  }

  // ----- The mirror -----

  /** Generated task ids determine their job. */
  type Owner = string -> string

  predicate UpdateOwned(owner: Owner, u: JobUpdate) {
    && (forall t | t in u.added :: owner(t.id) == u.jobId)
    && (forall id | id in u.removed :: owner(id) == u.jobId)
    && (forall t | t in u.updated :: owner(t.id) == u.jobId)
  }

  ghost predicate StoreOwned(owner: Owner, tasks: StoredTasks) {
    forall id | id in tasks :: tasks[id].jobId == owner(id)
  }

  function OwnTasks(tasks: StoredTasks, jobId: string): Infos {
    map id | id in tasks && tasks[id].jobId == jobId :: tasks[id].info
  }

  /** Same version, and the same tasks with the same name and order. */
  ghost predicate InSync(w: World, jobId: string) {
    jobId in w.mem && jobId in w.jobs
    && w.mem[jobId].version == w.jobs[jobId].version && w.mem[jobId].infos == OwnTasks(w.tasks, jobId)
  }

  /** The stored version has moved on without the one in memory. */
  ghost predicate Diverged(w: World, jobId: string) {
    jobId in w.mem && jobId in w.jobs && w.jobs[jobId].version == w.mem[jobId].version + 1
  }

  lemma PutOwn(tasks: StoredTasks, id: string, t: StoredTask, jobId: string)
    requires id in tasks ==> tasks[id].jobId == t.jobId
    ensures OwnTasks(tasks[id := t], jobId)
         == if t.jobId == jobId then OwnTasks(tasks, jobId)[id := t.info] else OwnTasks(tasks, jobId)
  {
  }

  lemma DropOwn(tasks: StoredTasks, id: string, jobId: string)
    requires id in tasks
    ensures OwnTasks(tasks - {id}, jobId)
         == if tasks[id].jobId == jobId then OwnTasks(tasks, jobId) - {id} else OwnTasks(tasks, jobId)
  {
  }

  /** What a run of changes to one job's tasks does, seen from any job. */
  ghost predicate Mirrors(owner: Owner, tasks: StoredTasks, e: Effect, changed: string, own: Infos, jobId: string) {
    && StoreOwned(owner, e.tasks)
    && (jobId != changed ==> OwnTasks(e.tasks, jobId) == OwnTasks(tasks, jobId))
    && (jobId == changed && e.ok ==> OwnTasks(e.tasks, jobId) == own)
  }

  lemma {:induction false} AddMirrors(
    owner: Owner, tasks: StoredTasks, u: JobUpdate, fails: nat -> bool, n: nat, jobId: string)
    requires StoreOwned(owner, tasks) && UpdateOwned(owner, u) && n <= |u.added|
    ensures Mirrors(owner, tasks, AddAll(tasks, u.jobId, u.added, fails, n), u.jobId,
                    OwnTasks(tasks, u.jobId) + AsMap(u.added[..n]), jobId)
  {
    if n == 0 {
    } else {
      AddMirrors(owner, tasks, u, fails, n - 1, jobId);
      var before, t := AddAll(tasks, u.jobId, u.added, fails, n - 1), u.added[n - 1];
      assert t in u.added;
      if before.ok && !fails(n - 1) && t.id !in before.tasks {
        AsMapNext(u.added, n);
        OneMoreAdded(owner, tasks, before, u.jobId, t, AsMap(u.added[..n - 1]), jobId);
      }
    }
  }

  lemma OneMoreAdded(
    owner: Owner, tasks: StoredTasks, before: Effect, changed: string, t: Task, added: Infos, jobId: string)
    requires owner(t.id) == changed && before.ok && t.id !in before.tasks
    requires Mirrors(owner, tasks, before, changed, OwnTasks(tasks, changed) + added, jobId)
    ensures Mirrors(owner, tasks, Effect(true, before.tasks[t.id := StoredTask(changed, t.info)]), changed,
                    OwnTasks(tasks, changed) + added[t.id := t.info], jobId)
  {
    MergeThenPut(OwnTasks(tasks, changed), added, t);
    PutOwn(before.tasks, t.id, StoredTask(changed, t.info), jobId);
  }

  lemma MergeThenPut(m: Infos, added: Infos, t: Task)
    ensures m + added[t.id := t.info] == (m + added)[t.id := t.info]
  {
  }

  lemma AsMapNext(tasks: seq<Task>, n: nat)
    requires 0 < n <= |tasks|
    ensures AsMap(tasks[..n]) == AsMap(tasks[..n - 1])[tasks[n - 1].id := tasks[n - 1].info]
  {
    assert tasks[..n][..n - 1] == tasks[..n - 1];
  }

  lemma {:induction false} RemoveMirrors(
    owner: Owner, tasks: StoredTasks, u: JobUpdate, fails: nat -> bool, n: nat, jobId: string)
    requires StoreOwned(owner, tasks) && UpdateOwned(owner, u) && n <= |u.removed|
    ensures Mirrors(owner, tasks, RemoveAll(tasks, u.removed, fails, n), u.jobId,
                    Without(OwnTasks(tasks, u.jobId), u.removed[..n]), jobId)
  {
    if n == 0 {
    } else {
      RemoveMirrors(owner, tasks, u, fails, n - 1, jobId);
      var before, id := RemoveAll(tasks, u.removed, fails, n - 1), u.removed[n - 1];
      assert id in u.removed;
      if before.ok && !fails(n - 1) && id in before.tasks { DropOwn(before.tasks, id, jobId); }
      WithoutNext(OwnTasks(tasks, u.jobId), u.removed, n);
    }
  }

  lemma WithoutNext(m: Infos, removed: seq<string>, n: nat)
    requires 0 < n <= |removed|
    ensures Without(m, removed[..n]) == Without(m, removed[..n - 1]) - {removed[n - 1]}
  {
    assert forall id :: id in removed[..n] <==> id in removed[..n - 1] || id == removed[n - 1];
  }

  lemma {:induction false} UpdateMirrors(
    owner: Owner, tasks: StoredTasks, u: JobUpdate, fails: nat -> bool, n: nat, jobId: string)
    requires StoreOwned(owner, tasks) && UpdateOwned(owner, u) && n <= |u.updated|
    ensures Mirrors(owner, tasks, UpdateAll(tasks, u.updated, fails, n), u.jobId,
                    Overwrite(OwnTasks(tasks, u.jobId), u.updated[..n]), jobId)
  {
    if n == 0 {
    } else {
      UpdateMirrors(owner, tasks, u, fails, n - 1, jobId);
      var before, t := UpdateAll(tasks, u.updated, fails, n - 1), u.updated[n - 1];
      assert t in u.updated;
      if before.ok && !fails(n - 1) && t.id in before.tasks {
        OverwriteNext(OwnTasks(tasks, u.jobId), u.updated, n);
        OneMoreUpdated(owner, tasks, before, u.jobId, t, Overwrite(OwnTasks(tasks, u.jobId), u.updated[..n - 1]),
          jobId);
      }
    }
  }

  lemma OverwriteNext(m: Infos, updated: seq<Task>, n: nat)
    requires 0 < n <= |updated|
    ensures var before, t := Overwrite(m, updated[..n - 1]), updated[n - 1];
            Overwrite(m, updated[..n]) == if t.id in before then before[t.id := t.info] else before
  {
    assert updated[..n][..n - 1] == updated[..n - 1];
  }

  lemma OneMoreUpdated(
    owner: Owner, tasks: StoredTasks, before: Effect, changed: string, t: Task, own: Infos, jobId: string)
    requires owner(t.id) == changed && before.ok && t.id in before.tasks
    requires Mirrors(owner, tasks, before, changed, own, jobId)
    ensures Mirrors(owner, tasks, Effect(true, before.tasks[t.id := before.tasks[t.id].(info := t.info)]), changed,
                    if t.id in own then own[t.id := t.info] else own, jobId)
  {
    PutOwn(before.tasks, t.id, before.tasks[t.id].(info := t.info), jobId);
  }

  /** Task changes that succeed do to the stored tasks what the scheduler does to its own; whether or not they
      succeed, other jobs' tasks are untouched. */
  lemma ChangesMirror(owner: Owner, tasks: StoredTasks, u: JobUpdate, f: Faults, jobId: string)
    requires StoreOwned(owner, tasks) && UpdateOwned(owner, u)
    ensures var e := ChangeTasks(tasks, u, f);
            && StoreOwned(owner, e.tasks)
            && (jobId != u.jobId ==> OwnTasks(e.tasks, jobId) == OwnTasks(tasks, jobId))
            && (jobId == u.jobId && e.ok ==> OwnTasks(e.tasks, jobId) == ChangeInfos(OwnTasks(tasks, jobId), u))
  {
    AddMirrors(owner, tasks, u, f.add, |u.added|, jobId);
    assert u.added[..|u.added|] == u.added && u.removed[..|u.removed|] == u.removed
      && u.updated[..|u.updated|] == u.updated;
    var a := AddAll(tasks, u.jobId, u.added, f.add, |u.added|);
    if a.ok {
      RemoveMirrors(owner, a.tasks, u, f.remove, |u.removed|, jobId);
      var r := RemoveAll(a.tasks, u.removed, f.remove, |u.removed|);
      if r.ok { UpdateMirrors(owner, r.tasks, u, f.update, |u.updated|, jobId); }
    }
  }

  /** A store call after the write of the job record fails for reasons of its own. */
  ghost predicate Faulty(u: JobUpdate, f: Faults) {
    || !NoneFails(f.add, |u.added|) || !NoneFails(f.remove, |u.removed|) || !NoneFails(f.update, |u.updated|)
    || (u.newTicker.Some? && f.schedule)
  }

  /** One call, seen from any job: a job in sync stays so, except that its own update leaves it diverged
      exactly when its record was written and then the update does not apply to the tasks held in memory or a
      later store call fails; and a successful one moves it one version on. */
  lemma UpdateKeepsSyncOrDiverges(owner: Owner, w: World, u: JobUpdate, f: Faults, running: bool, jobId: string)
    requires StoreOwned(owner, w.tasks) && UpdateOwned(owner, u) && InSync(w, jobId)
    ensures var (w', ok) := Next(w, u, f, running);
            && StoreOwned(owner, w'.tasks)
            && (InSync(w', jobId) || Diverged(w', jobId))
            && (Diverged(w', jobId) <==>
                  u.jobId == jobId && w.mem[jobId].version == u.expectedVersion && !f.read && !f.write
                  && (!Applicable(w.mem[jobId].infos.Keys, u) || Faulty(u, f)))
            && (ok && u.jobId == jobId ==> InSync(w', jobId) && w'.jobs[jobId].version == w.jobs[jobId].version + 1)
  {
    ChangesMirror(owner, w.tasks, u, f, jobId);
    ChangesOkIff(w.tasks, u, f);
    if u.jobId == jobId { ApplicableToOwn(owner, w.tasks, u); }
  }

  /** What an accepted update leaves in memory: a new ticker replaces the old one and is started exactly when the job is
      active and not paused and the scheduler runs; without one the old ticker stays as it is. */
  lemma TickerReplaced(w: World, u: JobUpdate, f: Faults, running: bool)
    requires Next(w, u, f, running).1
    ensures u.jobId in w.mem && u.jobId in Next(w, u, f, running).0.mem
    ensures var before, after := w.mem[u.jobId], Next(w, u, f, running).0.mem[u.jobId];
            && (u.newTicker.Some? ==> after.ticker.name == u.newTicker.value)
            && (u.newTicker.Some? ==> (after.ticker.started <==> before.active && !before.paused && running))
            && (u.newTicker.None? ==> after.ticker == before.ticker)
            && (u.newConfig.Some? ==> after.config == u.newConfig.value)
            && (u.newConfig.None? ==> after.config == before.config)
            && after.active == before.active && after.paused == before.paused && after.version == before.version + 1
    ensures forall id | id in w.mem && id != u.jobId ::
              id in Next(w, u, f, running).0.mem && Next(w, u, f, running).0.mem[id] == w.mem[id]
  {
  }

  /** The configuration is not mirrored: after an accepted update, memory and store agree on it exactly when
      the update brought none and they agreed before, or it brought an empty one. */
  lemma ConfigAgreesIff(w: World, u: JobUpdate, f: Faults, running: bool)
    requires Next(w, u, f, running).1
    ensures var w' := Next(w, u, f, running).0;
            && u.jobId in w'.mem && u.jobId in w'.jobs
            && (w'.mem[u.jobId].config == w'.jobs[u.jobId].config <==>
                  if u.newConfig.Some? then u.newConfig.value == ""
                    else w.mem[u.jobId].config == w.jobs[u.jobId].config)
  {
  }

  /** Ids of other jobs make no difference to whether an update applies. */
  lemma ApplicableToOwn(owner: Owner, tasks: StoredTasks, u: JobUpdate)
    requires StoreOwned(owner, tasks) && UpdateOwned(owner, u)
    ensures Applicable(tasks.Keys, u) <==> Applicable(OwnTasks(tasks, u.jobId).Keys, u)
  {
    var own := OwnTasks(tasks, u.jobId);
    assert forall id | owner(id) == u.jobId :: id in tasks <==> id in own;
  }

  /** Divergence is for good: no later update of the job succeeds, and none changes anything. */
  lemma DivergedForever(w: World, u: JobUpdate, f: Faults, running: bool, jobId: string)
    requires Diverged(w, jobId)
    ensures var (w', ok) := Next(w, u, f, running);
            Diverged(w', jobId) && (u.jobId == jobId ==> !ok && w' == w)
  {
  }

  /** One call with what the store does during it. */
  datatype Call = Call(update: JobUpdate, faults: Faults, running: bool)

  function After(w: World, c: Call): (World, bool) { Next(w, c.update, c.faults, c.running) }

  /** The worlds a sequence of updates goes through. */
  ghost predicate IsRun(owner: Owner, worlds: seq<World>, calls: seq<Call>) {
    && |worlds| == |calls| + 1 && StoreOwned(owner, worlds[0].tasks)
    && forall i | 0 <= i < |calls| ::
         UpdateOwned(owner, calls[i].update) && worlds[i + 1] == After(worlds[i], calls[i]).0
  }

  /** Over any sequence of updates naming only their job's own tasks, and any failures of the store, a job that
      starts in sync is in sync or diverged at every point, and in sync while its own updates succeed. */
  lemma {:induction false} MirrorOverRuns(owner: Owner, worlds: seq<World>, calls: seq<Call>, jobId: string, i: nat)
    requires IsRun(owner, worlds, calls) && InSync(worlds[0], jobId) && i < |worlds|
    ensures InSync(worlds[i], jobId) || Diverged(worlds[i], jobId)
    ensures StoreOwned(owner, worlds[i].tasks)
    ensures (forall j | 0 <= j < i :: calls[j].update.jobId == jobId ==> After(worlds[j], calls[j]).1)
            ==> InSync(worlds[i], jobId)
  {
    if i == 0 {
    } else {
      MirrorOverRuns(owner, worlds, calls, jobId, i - 1);
      var w, c := worlds[i - 1], calls[i - 1];
      ChangesMirror(owner, w.tasks, c.update, c.faults, jobId);
      if InSync(w, jobId) {
        UpdateKeepsSyncOrDiverges(owner, w, c.update, c.faults, c.running, jobId);
      } else {
        DivergedForever(w, c.update, c.faults, c.running, jobId);
      }
    }
  }

  /** Once an update failed after its job record was written, no later UpdateJob of that job succeeds, rerun or
      new. */
  lemma {:induction false} FailedUpdateLocksOut(owner: Owner, worlds: seq<World>, calls: seq<Call>, jobId: string,
      i: nat, j: nat)
    requires IsRun(owner, worlds, calls) && i <= j < |calls|
    requires Diverged(worlds[i], jobId)
    ensures Diverged(worlds[j], jobId)
    ensures calls[j].update.jobId == jobId ==> !After(worlds[j], calls[j]).1 && worlds[j + 1] == worlds[j]
  {
    if i < j {
      FailedUpdateLocksOut(owner, worlds, calls, jobId, i, j - 1);
      var c := calls[j - 1];
      DivergedForever(worlds[j - 1], c.update, c.faults, c.running, jobId);
    }
    DivergedForever(worlds[j], calls[j].update, calls[j].faults, calls[j].running, jobId);
  }

  // ----- When task changes succeed -----

  /** What a caller can check beforehand: new ids are new and distinct, removed ids exist and are distinct, and
      updated ids exist and are not removed. */
  ghost predicate Applicable(ids: set<string>, u: JobUpdate) {
    var added := IdsOf(u.added);
    && Addable(ids, u.added) && Removable(ids + added, u.removed)
    && forall t | t in u.updated :: t.id in ids + added && t.id !in u.removed
  }

  ghost predicate Addable(ids: set<string>, added: seq<Task>) {
    (forall t | t in added :: t.id !in ids) && DistinctIds(added)
  }

  ghost predicate Removable(ids: set<string>, removed: seq<string>) {
    (forall id | id in removed :: id in ids) && forall i, j | 0 <= i < j < |removed| :: removed[i] != removed[j]
  }

  ghost predicate NoneFails(fails: nat -> bool, n: nat) { forall i: nat | i < n :: !fails(i) }

  function IdsOf(tasks: seq<Task>): set<string> { set t | t in tasks :: t.id }

  lemma {:induction false} AddOk(tasks: StoredTasks, jobId: string, added: seq<Task>, fails: nat -> bool, n: nat)
    requires n <= |added|
    ensures var e := AddAll(tasks, jobId, added, fails, n);
            && (e.ok ==> e.tasks.Keys == tasks.Keys + IdsOf(added[..n]))
            && (e.ok <==> Addable(tasks.Keys, added[..n]) && NoneFails(fails, n))
  {
    if n == 0 {
    } else {
      AddOk(tasks, jobId, added, fails, n - 1);
      assert NoneFails(fails, n) <==> NoneFails(fails, n - 1) && !fails(n - 1);
      var t, p := added[n - 1], added[..n - 1];
      assert added[..n] == p + [t];
      AddableSnoc(tasks.Keys, p, t);
    }
  }

  lemma AddableSnoc(ids: set<string>, p: seq<Task>, t: Task)
    ensures IdsOf(p + [t]) == IdsOf(p) + {t.id}
    ensures Addable(ids, p + [t]) <==> Addable(ids, p) && t.id !in ids + IdsOf(p)
  {
    var all := p + [t];
    assert forall x :: x in all <==> x in p || x == t;
    assert forall i | 0 <= i < |p| :: all[i] == p[i] && p[i] in p;
    assert all[|p|] == t;
    if t.id in IdsOf(p) {
      var i :| 0 <= i < |p| && p[i].id == t.id;
      assert all[i].id == all[|p|].id;
    }
    if Addable(ids, all) {
      assert forall i, j | 0 <= i < j < |p| :: p[i].id == all[i].id && p[j].id == all[j].id;
    }
  }

  lemma {:induction false} RemoveOk(tasks: StoredTasks, removed: seq<string>, fails: nat -> bool, n: nat)
    requires n <= |removed|
    ensures var e := RemoveAll(tasks, removed, fails, n);
            && (e.ok ==> e.tasks.Keys == tasks.Keys - (set id | id in removed[..n]))
            && (e.ok <==> Removable(tasks.Keys, removed[..n]) && NoneFails(fails, n))
  {
    if n == 0 {
    } else {
      RemoveOk(tasks, removed, fails, n - 1);
      assert NoneFails(fails, n) <==> NoneFails(fails, n - 1) && !fails(n - 1);
      var id, p := removed[n - 1], removed[..n - 1];
      assert removed[..n] == p + [id];
      assert forall x :: x in p + [id] <==> x in p || x == id;
      RemovableSnoc(tasks.Keys, p, id);
    }
  }

  lemma RemovableSnoc(ids: set<string>, p: seq<string>, id: string)
    ensures Removable(ids, p + [id]) <==> Removable(ids, p) && id in ids && id !in p
  {
    var all := p + [id];
    assert forall x :: x in all <==> x in p || x == id;
    assert forall i | 0 <= i < |p| :: all[i] == p[i] && p[i] in p;
    assert all[|p|] == id;
    if id in p {
      var i :| 0 <= i < |p| && p[i] == id;
      assert all[i] == all[|p|];
    }
    if Removable(ids, all) {
      assert forall i, j | 0 <= i < j < |p| :: p[i] == all[i] && p[j] == all[j];
    }
  }

  lemma {:induction false} UpdateOk(tasks: StoredTasks, updated: seq<Task>, fails: nat -> bool, n: nat)
    requires n <= |updated|
    ensures var e := UpdateAll(tasks, updated, fails, n);
            && e.tasks.Keys == tasks.Keys
            && (e.ok <==> (forall t | t in updated[..n] :: t.id in tasks) && NoneFails(fails, n))
  {
    if n == 0 {
    } else {
      UpdateOk(tasks, updated, fails, n - 1);
      assert NoneFails(fails, n) <==> NoneFails(fails, n - 1) && !fails(n - 1);
      assert updated[..n] == updated[..n - 1] + [updated[n - 1]];
    }
  }

  /** What follows the write of the job record succeeds exactly when the update is applicable to the stored ids
      and no store call fails. */
  lemma ChangesOkIff(tasks: StoredTasks, u: JobUpdate, f: Faults)
    ensures ChangeTasks(tasks, u, f).ok <==> Applicable(tasks.Keys, u) && !Faulty(u, f)
  {
    AddOk(tasks, u.jobId, u.added, f.add, |u.added|);
    assert u.added[..|u.added|] == u.added && u.removed[..|u.removed|] == u.removed
      && u.updated[..|u.updated|] == u.updated;
    var a := AddAll(tasks, u.jobId, u.added, f.add, |u.added|);
    if a.ok {
      RemoveOk(a.tasks, u.removed, f.remove, |u.removed|);
      var r := RemoveAll(a.tasks, u.removed, f.remove, |u.removed|);
      if r.ok {
        UpdateOk(r.tasks, u.updated, f.update, |u.updated|);
        assert forall id :: id in r.tasks <==> id in tasks.Keys + IdsOf(u.added) && id !in u.removed;
      }
    }
  }
}
