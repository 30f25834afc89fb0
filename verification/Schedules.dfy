/** Declared schedules from settings to the spawn: the rows and jobs a reconcile makes of them, what a firing
    of such a job spawns, and what the beat spawns in its place. */
module Schedules {
  import opened Wrappers
  import opened SpawnOptions
  import opened Backend
  import opened CronOptions
  import opened Catalog
  import opened Reconcile
  import opened Divergence

  /** One entry of SCHEDULE. */
  datatype Schedule = Schedule(path: string, cron: string, queue: Option<string>, args: seq<Json>, kwargs: map<string, Json>)

  /** What the paths of the entries import to. */
  type Imports = map<string, Task>

  ghost predicate AllImport(schedules: map<string, Schedule>, imports: Imports) {
    forall name | name in schedules :: ':' !in name && schedules[name].path in imports
  }

  function RowFor(schedule: Schedule, definition: Task, attempts: int): ScheduleRow {
    BuildScheduledRow(schedule.path, definition, attempts, schedule.queue, schedule.args, schedule.kwargs, schedule.cron)
  }

  function DeclaredRows(schedules: map<string, Schedule>, imports: Imports, attempts: int): Declared
    requires AllImport(schedules, imports)
  {
    map name | name in schedules :: RowFor(schedules[name], imports[schedules[name].path], attempts)
  }

  /** The condition under which a firing spawns what an enqueue of the task would. */
  predicate FiresAsEnqueued(backends: Backends, backend: AbsurdBackend, schedule: Schedule, definition: Task) {
    && schedule.path == definition.func.modulePath
    && definition.backend in backends && backends[definition.backend].database == backend.database
    && Takes(backends[definition.backend], definition.queueName)
    && definition.runAfter.None?
    && EffectiveOptions(definition, backends[definition.backend].defaultMaxAttempts)
       == Stripped(DecoratorOptions(definition, backend.defaultMaxAttempts))
    && OwnQueue(definition, schedule.queue)
  }

  /** The job of a declared schedule is armed on the schedule's own cadence, and one firing of it spawns one
      request for the schedule's path, call and queue. */
  ghost predicate Works(rows: Rows, jobs: Jobs, database: string, name: string, schedule: Schedule, definition: Task) {
    var jobname := JobName(database, SETTINGS, name);
    && jobname in jobs
    && jobs[jobname] == Job(database, schedule.cron, RunScheduled(SETTINGS, name), true)
    && forall spawned ::
         var after := Divergence.Apply(database, Divergence.System(rows, jobs, spawned), FireEvent(jobname));
         && after.rows == rows && after.jobs == jobs
         && |after.spawned| == |spawned| + 1 && after.spawned[..|spawned|] == spawned
         && var request := after.spawned[|spawned|].request;
           && request.name == schedule.path
           && request.params == Call(schedule.args, schedule.kwargs)
           && request.queue == QueueFor(schedule, definition)
  }

  lemma ScheduleFires(
      rows: Rows, jobs: Jobs, database: string, name: string, schedule: Schedule, definition: Task, attempts: int,
      spawned: seq<Firing>)
    requires var jobname := JobName(database, SETTINGS, name);
      jobname in jobs && jobs[jobname] == JobOf(database, RowKey(SETTINGS, name), RowFor(schedule, definition, attempts))
    requires RowKey(SETTINGS, name) in rows && rows[RowKey(SETTINGS, name)] == RowFor(schedule, definition, attempts)
    ensures var jobname := JobName(database, SETTINGS, name);
      Divergence.Apply(database, Divergence.System(rows, jobs, spawned), FireEvent(jobname))
      == Divergence.System(rows, jobs, spawned + [Firing(jobname, rows, RequestOf(RowFor(schedule, definition, attempts)))])
  {
  }

  lemma ScheduleWorks(
      rows: Rows, jobs: Jobs, database: string, name: string, schedule: Schedule, definition: Task, attempts: int)
    requires var jobname := JobName(database, SETTINGS, name);
      jobname in jobs && jobs[jobname] == JobOf(database, RowKey(SETTINGS, name), RowFor(schedule, definition, attempts))
    requires RowKey(SETTINGS, name) in rows && rows[RowKey(SETTINGS, name)] == RowFor(schedule, definition, attempts)
    ensures Works(rows, jobs, database, name, schedule, definition)
  {
    forall spawned: seq<Firing>
      ensures var jobname := JobName(database, SETTINGS, name);
        Divergence.Apply(database, Divergence.System(rows, jobs, spawned), FireEvent(jobname))
        == Divergence.System(rows, jobs, spawned + [Firing(jobname, rows, RequestOf(RowFor(schedule, definition, attempts)))])
    {
      ScheduleFires(rows, jobs, database, name, schedule, definition, attempts, spawned);
    }
  }

  /** `sync_crons` on the schedules as settings declare them: build each row, then reconcile. Afterwards every
      schedule works, and what its firing spawns is what an enqueue of its task writes exactly under the
      condition of `FiresAsEnqueued`. */
  method SyncSchedules(
      reconciler: Reconciler, backends: Backends, backend: AbsurdBackend,
      schedules: map<string, Schedule>, imports: Imports, cleanup: Option<string>)
    returns (created: nat, pruned: nat)
    requires reconciler.Valid() && AllImport(schedules, imports)
    modifies reconciler, reconciler.cron
    ensures reconciler.Valid()
    ensures forall name | name in schedules ::
              Works(reconciler.rows, reconciler.cron.jobs, reconciler.database, name, schedules[name], imports[schedules[name].path])
    ensures forall name | name in schedules ::
              SpawnsAsEnqueued(reconciler.rows, reconciler.cron.jobs, reconciler.database, backends, backend, name,
                               schedules[name], imports[schedules[name].path])
    ensures LaneWithin(reconciler.cron.jobs, reconciler.database, SETTINGS, schedules.Keys)
    ensures CleanupMatches(reconciler.cron.jobs, reconciler.database, cleanup)
  {
    var declared := DeclaredRows(schedules, imports, backend.defaultMaxAttempts);
    created, pruned := reconciler.SyncCrons(declared, cleanup, {});
    forall name | name in schedules
      ensures Works(reconciler.rows, reconciler.cron.jobs, reconciler.database, name, schedules[name], imports[schedules[name].path])
      ensures SpawnsAsEnqueued(reconciler.rows, reconciler.cron.jobs, reconciler.database, backends, backend, name,
                               schedules[name], imports[schedules[name].path])
    {
      var schedule, definition := schedules[name], imports[schedules[name].path];
      SyncedRow(reconciler.rows, declared, name);
      ScheduleWorks(reconciler.rows, reconciler.cron.jobs, reconciler.database, name, schedule, definition, backend.defaultMaxAttempts);
      SpawnDecided(reconciler.rows, reconciler.cron.jobs, reconciler.database, backends, backend, name, schedule, definition);
    }
  }

  lemma SyncedRow(rows: Rows, declared: Declared, name: string)
    requires RowsAfterSync(rows, declared) == rows && name in declared
    ensures RowKey(SETTINGS, name) in rows && rows[RowKey(SETTINGS, name)] == declared[name]
  {
    assert RowKey(SETTINGS, name) in RowsAfterSync(rows, declared);
  }

  /** A firing's request is the write an enqueue of the task makes exactly when the condition holds. */
  ghost predicate SpawnsAsEnqueued(
      rows: Rows, jobs: Jobs, database: string, backends: Backends, backend: AbsurdBackend, name: string,
      schedule: Schedule, definition: Task)
  {
    var fired := Divergence.Apply(database, Divergence.System(rows, jobs, []), FireEvent(JobName(database, SETTINGS, name)));
    && |fired.spawned| == 1
    && (EnqueueWrite(backends, definition, schedule.args, schedule.kwargs)
          == Some(Write(backend.database, fired.spawned[0].request))
        <==> FiresAsEnqueued(backends, backend, schedule, definition))
  }

  lemma SpawnDecided(
      rows: Rows, jobs: Jobs, database: string, backends: Backends, backend: AbsurdBackend, name: string,
      schedule: Schedule, definition: Task)
    requires var jobname := JobName(database, SETTINGS, name);
      && jobname in jobs
      && jobs[jobname] == JobOf(database, RowKey(SETTINGS, name), RowFor(schedule, definition, backend.defaultMaxAttempts))
    requires RowKey(SETTINGS, name) in rows
    requires rows[RowKey(SETTINGS, name)] == RowFor(schedule, definition, backend.defaultMaxAttempts)
    ensures SpawnsAsEnqueued(rows, jobs, database, backends, backend, name, schedule, definition)
  {
    ScheduleFires(rows, jobs, database, name, schedule, definition, backend.defaultMaxAttempts, []);
    FiringMatchesEnqueue(backends, backend, schedule.path, definition, schedule.queue, schedule.args, schedule.kwargs, schedule.cron);
  }

  /*******************************************************************************
   *  The other scheduler
   *******************************************************************************/

  /** `spawn_scheduled`: the imported task, put on the scheduling backend and the schedule's queue, and given
      the occurrence's key. */
  function BeatTask(backend: AbsurdBackend, schedule: Schedule, definition: Task, key: string): Task {
    var queue := if schedule.queue.Some? && schedule.queue.value != "" then Set(schedule.queue.value) else Unset;
    ApplyRebuild(ApplyRebuild(definition, Using(queue, Set(backend.alias), Unset)),
                 Bind(EMPTY.(idempotencyKey := Set(key))))
  }

  /** The write the beat asks for at an occurrence. */
  function BeatWrite(backends: Backends, backend: AbsurdBackend, schedule: Schedule, definition: Task, key: string): Option<Write> {
    EnqueueWrite(backends, BeatTask(backend, schedule, definition, key), schedule.args, schedule.kwargs)
  }

  function WithKey(options: SpawnKwargs, key: string): SpawnKwargs {
    options.(idempotencyKey := Set(key))
  }

  function QueueFor(schedule: Schedule, definition: Task): string {
    if schedule.queue.Some? && schedule.queue.value != "" then schedule.queue.value else definition.queueName
  }

  /** The beat asks the scheduling backend, whatever alias the task was declared on, for the task's own options
      with the occurrence's key over them, on the schedule's queue. */
  lemma BeatAsks(backends: Backends, backend: AbsurdBackend, schedule: Schedule, definition: Task, key: string)
    requires Built(definition) && definition.runAfter.None?
    requires backend.alias in backends && backends[backend.alias] == backend
    ensures BeatWrite(backends, backend, schedule, definition, key)
            == if !Takes(backend, QueueFor(schedule, definition)) then None
               else Some(Write(backend.database, SpawnRequest(
                 QueueFor(schedule, definition), definition.func.modulePath, Call(schedule.args, schedule.kwargs),
                 WithKey(EffectiveOptions(definition, backend.defaultMaxAttempts), key))))
  {
    BuiltFoldsDefaults(definition);
    MergeLaws(LayerOf(definition.func.defaults), LayerOf(definition.params), EMPTY.(idempotencyKey := Set(key)));
  }

  /** A deferred task is not spawned by the beat at all: its wrapper is. */
  lemma BeatDefers(backends: Backends, backend: AbsurdBackend, schedule: Schedule, definition: Task, key: string)
    requires definition.runAfter.Some? && BeatWrite(backends, backend, schedule, definition, key).Some?
    ensures BeatWrite(backends, backend, schedule, definition, key).value.request.params.Deferral?
  {
  }

  /** The two schedulers make the same write for one schedule, the beat's key aside, if and only if the backend
      takes the schedule's queue, the schedule names the task by its module path, the task is not deferred, and
      its own options are its decorator's, stripped of nulls. */
  lemma SchedulersAgree(backends: Backends, backend: AbsurdBackend, schedule: Schedule, definition: Task, key: string)
    requires Built(definition) && backend.alias in backends && backends[backend.alias] == backend
    ensures var fired := RequestOf(RowFor(schedule, definition, backend.defaultMaxAttempts));
      BeatWrite(backends, backend, schedule, definition, key)
      == Some(Write(backend.database, fired.(options := WithKey(fired.options, key))))
      <==>
      && Takes(backend, QueueFor(schedule, definition))
      && schedule.path == definition.func.modulePath && definition.runAfter.None?
      && WithKey(EffectiveOptions(definition, backend.defaultMaxAttempts), key)
         == WithKey(Stripped(DecoratorOptions(definition, backend.defaultMaxAttempts)), key)
  {
    var row := RowFor(schedule, definition, backend.defaultMaxAttempts);
    assert Merge(definition.func.defaults, None) == LayerOf(definition.func.defaults);
    RowKeepsStripped(row.columns.queue, DecoratorOptions(definition, backend.defaultMaxAttempts));
    if definition.runAfter.None? {
      BeatAsks(backends, backend, schedule, definition, key);
    }
  }

  /** A task bound at module level to three attempts: the beat asks for three, the job's firing for five. */
  lemma SchedulersDisagree(path: string, cron: string, key: string)
    ensures var definition := ApplyRebuild(Declare(Func(path, None), "q", "a", true), Bind(EMPTY.(maxAttempts := Set(Some(3)))));
      var schedule := Schedule(path, cron, None, [], map[]);
      var beat := BeatWrite(map["a" := ON_A], ON_A, schedule, definition, key);
      && beat.Some? && beat.value.request.options.maxAttempts == Set(Some(3))
      && RequestOf(RowFor(schedule, definition, ON_A.defaultMaxAttempts)).options.maxAttempts == Set(Some(5))
  {
  }
}
