/** Rows and jobs drifting apart: writes without signals, lost and late emissions, pruning and firing in
    any order. A drifted job may miss a fire or keep an old cadence; it never spawns the wrong thing. */
module Divergence {
  import opened Wrappers
  import opened Backend
  import opened CronOptions
  import opened Catalog
  import opened Reconcile

  /** One spawn a firing made, with the rows as they were at that moment. */
  datatype Firing = Firing(jobname: string, rows: Rows, request: SpawnRequest)

  datatype System = System(rows: Rows, jobs: Jobs, spawned: seq<Firing>)

  datatype Event =
    | SaveEvent(key: RowKey, row: ScheduleRow, lost: bool)
    | DeleteEvent(key: RowKey, lost: bool)
    | RawWriteEvent(rows: Rows)                        // bulk and SQL writes send no signal
    | LateEmitEvent(key: RowKey, row: ScheduleRow)     // a commit hook of a stale instance, or a reconciler
    | LateUnscheduleEvent(key: RowKey)
    | PruneEvent(source: string, keep: set<string>)
    | CleanupEvent(cron: Option<string>)
    | VanishEvent(jobname: string)                     // a job removed out of band
    | FireEvent(jobname: string)

  /** The run wrapper re-reads the row: nothing happens without an enabled one. */
  function Fire(rows: Rows, command: Command): Option<SpawnRequest> {
    match command
    case CleanupAllQueues => None
    case RunScheduled(source, name) =>
      var key := RowKey(source, name);
      if key in rows && rows[key].enabled then Some(RequestOf(rows[key])) else None
  }

  predicate KeyOk(key: RowKey) {
    ':' !in key.source && ':' !in key.name && key.source != CLEANUP_SOURCE
  }

  function Emit(jobs: Jobs, database: string, key: RowKey, row: ScheduleRow): Jobs {
    Scheduled(jobs, JobName(database, key.source, key.name), JobOf(database, key, row))
  }

  function Unschedule(jobs: Jobs, database: string, key: RowKey): Jobs {
    jobs - {JobName(database, key.source, key.name)}
  }

  function Apply(database: string, s: System, event: Event): System {
    match event
    case SaveEvent(key, row, lost) =>
      if !KeyOk(key) then s
      else s.(rows := s.rows[key := row], jobs := if lost then s.jobs else Emit(s.jobs, database, key, row))
    case DeleteEvent(key, lost) =>
      if !KeyOk(key) then s
      else s.(rows := s.rows - {key}, jobs := if lost then s.jobs else Unschedule(s.jobs, database, key))
    case RawWriteEvent(rows) => s.(rows := rows)
    case LateEmitEvent(key, row) => if KeyOk(key) then s.(jobs := Emit(s.jobs, database, key, row)) else s
    case LateUnscheduleEvent(key) => if KeyOk(key) then s.(jobs := Unschedule(s.jobs, database, key)) else s
    case PruneEvent(source, keep) => s.(jobs := PruneLane(s.jobs, database, source, keep))
    case CleanupEvent(cron) =>
      var jobname := JobName(database, CLEANUP_SOURCE, CLEANUP_NAME);
      s.(jobs := if cron.Some? then Scheduled(s.jobs, jobname, Job(database, cron.value, CleanupAllQueues, true))
                 else s.jobs - {jobname})
    case VanishEvent(jobname) => s.(jobs := s.jobs - {jobname})
    case FireEvent(jobname) =>
      if jobname in s.jobs && s.jobs[jobname].active && s.jobs[jobname].database == database then
        match Fire(s.rows, s.jobs[jobname].command)
        case None => s
        case Some(request) => s.(spawned := s.spawned + [Firing(jobname, s.rows, request)])
      else s
  }

  function Run(database: string, s: System, events: seq<Event>): System {
    if events == [] then s else Apply(database, Run(database, s, events[..|events| - 1]), events[|events| - 1])
  }

  /** A job named for a row runs that row's wrapper and no other command. */
  ghost predicate CommandsOk(jobs: Jobs, database: string) {
    forall source, name | JobName(database, source, name) in jobs && KeyOk(RowKey(source, name)) ::
      jobs[JobName(database, source, name)].command == RunScheduled(source, name)
  }

  /** The spawn is that of a row which exists and is enabled when the job fires, with the contents it has
      then; and a job named for one row spawns no other. */
  ghost predicate SpawnOk(database: string, spawned: Firing) {
    exists key ::
      && key in spawned.rows && spawned.rows[key].enabled
      && spawned.request == RequestOf(spawned.rows[key])
      && forall source, name | KeyOk(RowKey(source, name)) && spawned.jobname == JobName(database, source, name) ::
           key == RowKey(source, name)
  }

  lemma EmitKeepsCommands(jobs: Jobs, database: string, key: RowKey, row: ScheduleRow)
    requires KeyOk(key) && CommandsOk(jobs, database)
    ensures CommandsOk(Emit(jobs, database, key, row), database)
  {
    var after := Emit(jobs, database, key, row);
    forall source, name | JobName(database, source, name) in after && KeyOk(RowKey(source, name))
      ensures after[JobName(database, source, name)].command == RunScheduled(source, name)
    {
      if JobName(database, source, name) == JobName(database, key.source, key.name) {
        JobNameInjective(database, source, name, database, key.source, key.name);
      } else {
        assert JobName(database, source, name) in jobs;
      }
    }
  }

  lemma CleanupKeepsCommands(jobs: Jobs, database: string, job: Job)
    requires CommandsOk(jobs, database)
    ensures CommandsOk(Scheduled(jobs, JobName(database, CLEANUP_SOURCE, CLEANUP_NAME), job), database)
  {
    var after := Scheduled(jobs, JobName(database, CLEANUP_SOURCE, CLEANUP_NAME), job);
    forall source, name | JobName(database, source, name) in after && KeyOk(RowKey(source, name))
      ensures after[JobName(database, source, name)].command == RunScheduled(source, name)
    {
      if JobName(database, source, name) == JobName(database, CLEANUP_SOURCE, CLEANUP_NAME) {
        JobNameInjective(database, source, name, database, CLEANUP_SOURCE, CLEANUP_NAME);
      } else {
        assert JobName(database, source, name) in jobs;
      }
    }
  }

  lemma FireSpawnsItsRow(database: string, s: System, jobname: string)
    requires CommandsOk(s.jobs, database)
    requires jobname in s.jobs && Fire(s.rows, s.jobs[jobname].command).Some?
    ensures SpawnOk(database, Firing(jobname, s.rows, Fire(s.rows, s.jobs[jobname].command).value))
  {
    var command := s.jobs[jobname].command;
    var key := RowKey(command.source, command.name);
    assert key in s.rows && s.rows[key].enabled;
  }

  /** A firing spawns if and only if its job is armed, bound to this database, and runs the wrapper of a row
      that exists and is enabled; then it spawns that row, once, and touches neither rows nor jobs. */
  lemma FireSpawnsExactly(database: string, s: System, jobname: string)
    ensures var after := Apply(database, s, FireEvent(jobname));
      && after.rows == s.rows && after.jobs == s.jobs
      && (after.spawned != s.spawned <==>
            && jobname in s.jobs && s.jobs[jobname].active && s.jobs[jobname].database == database
            && exists key: RowKey ::
                 s.jobs[jobname].command == RunScheduled(key.source, key.name) && key in s.rows && s.rows[key].enabled)
      && forall key: RowKey | key in s.rows && jobname in s.jobs && s.jobs[jobname].command == RunScheduled(key.source, key.name) ::
           after.spawned == s.spawned || after.spawned == s.spawned + [Firing(jobname, s.rows, RequestOf(s.rows[key]))]
  {
    var after := Apply(database, s, FireEvent(jobname));
    if jobname in s.jobs && s.jobs[jobname].command.RunScheduled? {
      var key := RowKey(s.jobs[jobname].command.source, s.jobs[jobname].command.name);
      assert after.spawned != s.spawned ==> key in s.rows && s.rows[key].enabled;
      assert after.spawned == s.spawned || |after.spawned| == |s.spawned| + 1;
    }
  }

  lemma ApplyKeepsCommands(database: string, s: System, event: Event)
    requires CommandsOk(s.jobs, database)
    ensures CommandsOk(Apply(database, s, event).jobs, database)
  {
    match event
    case SaveEvent(key, row, lost) =>
      if KeyOk(key) && !lost { EmitKeepsCommands(s.jobs, database, key, row); }
    case LateEmitEvent(key, row) =>
      if KeyOk(key) { EmitKeepsCommands(s.jobs, database, key, row); }
    case CleanupEvent(cron) =>
      if cron.Some? { CleanupKeepsCommands(s.jobs, database, Job(database, cron.value, CleanupAllQueues, true)); }
    case _ =>
  }

  lemma ApplySpawnsRight(database: string, s: System, event: Event)
    requires CommandsOk(s.jobs, database)
    requires forall i | 0 <= i < |s.spawned| :: SpawnOk(database, s.spawned[i])
    ensures var after := Apply(database, s, event); forall i | 0 <= i < |after.spawned| :: SpawnOk(database, after.spawned[i])
  {
    if event.FireEvent? && event.jobname in s.jobs && Fire(s.rows, s.jobs[event.jobname].command).Some? {
      FireSpawnsItsRow(database, s, event.jobname);
    }
  }

  /** Over any run of saves, deletes, signal-less writes, lost or late emissions, pruning and firings,
      every spawn is right at the moment it is made. */
  lemma {:induction false} DivergenceIsNeverAWrongSpawn(database: string, start: System, events: seq<Event>)
    requires CommandsOk(start.jobs, database) && start.spawned == []
    ensures var s := Run(database, start, events);
      && CommandsOk(s.jobs, database)
      && forall i | 0 <= i < |s.spawned| :: SpawnOk(database, s.spawned[i])
  {
    if events != [] {
      var front, last := events[..|events| - 1], events[|events| - 1];
      DivergenceIsNeverAWrongSpawn(database, start, front);
      ApplyKeepsCommands(database, Run(database, start, front), last);
      ApplySpawnsRight(database, Run(database, start, front), last);
    }
  }
}
