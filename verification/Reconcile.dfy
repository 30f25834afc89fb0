/** The two stores, schedule rows and `cron.job`, and the reconcilers that bring the second back to
    the first from any state. */
module Reconcile {
  import opened Wrappers
  import opened CronOptions
  import opened Catalog

  datatype RowKey = RowKey(source: string, name: string)

  type Rows = map<RowKey, ScheduleRow>

  /** Names pass the charset rule, so hold no colon. */
  ghost predicate NamesOk(rows: Rows) {
    forall key | key in rows :: ':' !in key.name && ':' !in key.source
  }

  function JobOf(database: string, key: RowKey, row: ScheduleRow): Job {
    Job(database, row.cron, RunScheduled(key.source, key.name), row.enabled)
  }

  /** One lane in bijection with its rows: each row has its job, on its cadence and armed as it says,
      and each job of the lane is some row's. */
  ghost predicate LaneMatches(rows: Rows, jobs: Jobs, database: string, source: string) {
    && (forall name | RowKey(source, name) in rows ::
          var jobname := JobName(database, source, name);
          jobname in jobs && jobs[jobname] == JobOf(database, RowKey(source, name), rows[RowKey(source, name)]))
    && (forall jobname | InLane(jobs, jobname, database, source) ::
          RowKey(source, jobname[|LanePrefix(database, source)|..]) in rows)
  }

  /** What a matching lane says of each of its rows: a job on the row's own cadence, bound to the database,
      running the row's wrapper, armed exactly when the row is enabled. */
  lemma MatchedJob(rows: Rows, jobs: Jobs, database: string, key: RowKey)
    requires LaneMatches(rows, jobs, database, key.source) && key in rows
    ensures var jobname := JobName(database, key.source, key.name);
      && jobname in jobs
      && jobs[jobname].cron == rows[key].cron && (jobs[jobname].active <==> rows[key].enabled)
      && jobs[jobname].database == database && jobs[jobname].command == RunScheduled(key.source, key.name)
  {
    assert key == RowKey(key.source, key.name);
  }

  ghost predicate CleanupMatches(jobs: Jobs, database: string, cleanup: Option<string>) {
    var jobname := JobName(database, CLEANUP_SOURCE, CLEANUP_NAME);
    if cleanup.Some?
    then jobname in jobs && jobs[jobname] == Job(database, cleanup.value, CleanupAllQueues, true)
    else jobname !in jobs
  }

  /** Declared schedules by name, each with the row it should have. */
  type Declared = map<string, ScheduleRow>

  ghost predicate DeclaredOk(declared: Declared) {
    forall name | name in declared :: ':' !in name && declared[name].enabled
  }

  /** The rows a settings reconcile leaves: the declared ones in place of every settings row. */
  function RowsAfterSync(rows: Rows, declared: Declared): Rows {
    map key | key in rows.Keys + (set name | name in declared :: RowKey(SETTINGS, name))
              && (key.source == SETTINGS ==> key.name in declared) ::
      if key.source == SETTINGS then declared[key.name] else rows[key]
  }

  /** Outside the lane and the cleanup job, nothing differs. */
  ghost predicate OnlyLaneDiffers(before: Jobs, after: Jobs, database: string, source: string) {
    forall jobname ::
      (jobname in before && !InLane(before, jobname, database, source))
      || (jobname in after && !InLane(after, jobname, database, source)) ==>
        jobname in before && jobname in after && before[jobname] == after[jobname]
  }

  /** A lane is determined by its rows: two catalogs that match it and agree elsewhere are equal. */
  lemma LaneDetermined(rows: Rows, before: Jobs, after: Jobs, database: string, source: string)
    requires LaneMatches(rows, before, database, source) && LaneMatches(rows, after, database, source)
    requires OnlyLaneDiffers(before, after, database, source)
    ensures before == after
  {
    forall jobname | jobname in before.Keys + after.Keys
      ensures jobname in before && jobname in after && before[jobname] == after[jobname]
    {
      var prefix := LanePrefix(database, source);
      if prefix <= jobname {
        JobNameIsPrefixed(database, source, jobname[|prefix|..]);
        assert jobname == JobName(database, source, jobname[|prefix|..]);
      }
    }
  }

  /** Pruning the lane to the rows' names, once every row has its job, makes the lane match. */
  lemma PruneMatches(rows: Rows, jobs: Jobs, database: string, source: string, names: set<string>)
    requires forall name :: name in names <==> RowKey(source, name) in rows
    requires forall name | name in names ::
               var jobname := JobName(database, source, name);
               jobname in jobs && jobs[jobname] == JobOf(database, RowKey(source, name), rows[RowKey(source, name)])
    ensures var keep := set name | name in names :: JobName(database, source, name);
      && LaneMatches(rows, PruneLane(jobs, database, source, keep), database, source)
      && OnlyLaneDiffers(jobs, PruneLane(jobs, database, source, keep), database, source)
  {
    var keep := set name | name in names :: JobName(database, source, name);
    var after := PruneLane(jobs, database, source, keep);
    forall jobname | InLane(after, jobname, database, source)
      ensures RowKey(source, jobname[|LanePrefix(database, source)|..]) in rows
    {
      assert jobname in keep;
      var name :| name in names && jobname == JobName(database, source, name);
      JobNameIsPrefixed(database, source, name);
    }
  }

  /** Upserting one of the lane's own jobs writes exactly that job and stays in the lane. */
  lemma UpsertInLane(start: Jobs, jobs: Jobs, database: string, source: string, name: string, job: Job)
    requires ':' !in source && ':' !in name && job.database == database
    requires WellBound(jobs, database) && OnlyLaneDiffers(start, jobs, database, source)
    ensures var after := Scheduled(jobs, JobName(database, source, name), job);
      && WellBound(after, database) && OnlyLaneDiffers(start, after, database, source)
      && after[JobName(database, source, name)] == job
  {
    JobNameIsPrefixed(database, source, name);
  }

  /** So does removing one. */
  lemma RemoveInLane(start: Jobs, jobs: Jobs, database: string, source: string, name: string)
    requires ':' !in source && ':' !in name
    requires WellBound(jobs, database) && OnlyLaneDiffers(start, jobs, database, source)
    ensures var after := jobs - {JobName(database, source, name)};
      WellBound(after, database) && OnlyLaneDiffers(start, after, database, source)
  {
    JobNameIsPrefixed(database, source, name);
  }

  lemma NamesDiffer(database: string, source: string, name: string, other: string)
    requires JobName(database, source, name) == JobName(database, source, other)
    ensures name == other
  {
    JobNameIsPrefixed(database, source, name);
    JobNameIsPrefixed(database, source, other);
  }

  /** A lane only sees its own rows and jobs. */
  lemma OtherLaneKeeps(rows: Rows, jobs: Jobs, rows': Rows, jobs': Jobs, database: string, source: string, other: string)
    requires ':' !in source && ':' !in other && source != other
    requires NamesOk(rows)
    requires forall name :: RowKey(other, name) in rows <==> RowKey(other, name) in rows'
    requires forall name | RowKey(other, name) in rows :: rows[RowKey(other, name)] == rows'[RowKey(other, name)]
    requires OnlyLaneDiffers(jobs, jobs', database, source)
    requires LaneMatches(rows, jobs, database, other)
    ensures LaneMatches(rows', jobs', database, other)
  {
    forall name | RowKey(other, name) in rows'
      ensures JobName(database, other, name) in jobs'
      ensures jobs'[JobName(database, other, name)] == JobOf(database, RowKey(other, name), rows'[RowKey(other, name)])
    {
      LaneSelectsItsSource(database, source, other, name);
    }
    forall jobname | InLane(jobs', jobname, database, other)
      ensures RowKey(other, jobname[|LanePrefix(database, other)|..]) in rows'
    {
      var name := jobname[|LanePrefix(database, other)|..];
      JobNameIsPrefixed(database, other, name);
      assert jobname == JobName(database, other, name);
      LaneSelectsItsSource(database, source, other, name);
    }
  }

  /** `after` is `before` with the declared rows of `names` written over it. */
  ghost predicate Overlaid(before: Rows, after: Rows, declared: Declared, names: set<string>)
    requires names <= declared.Keys
  {
    && (forall key :: key in after <==> key in before || (key.source == SETTINGS && key.name in names))
    && (forall key | key in after ::
          after[key] == if key.source == SETTINGS && key.name in names then declared[key.name] else before[key])
  }

  /** Each of `names` has its job, as its declaration says. */
  ghost predicate Emitted(jobs: Jobs, database: string, declared: Declared, names: set<string>)
    requires names <= declared.Keys
  {
    forall name | name in names ::
      var jobname := JobName(database, SETTINGS, name);
      jobname in jobs && jobs[jobname] == JobOf(database, RowKey(SETTINGS, name), declared[name])
  }

  lemma EmitOneMore(jobs: Jobs, database: string, declared: Declared, names: set<string>, name: string)
    requires names <= declared.Keys && name in declared && ':' !in name
    requires WellBound(jobs, database) && Emitted(jobs, database, declared, names)
    ensures Emitted(
        Scheduled(jobs, JobName(database, SETTINGS, name), JobOf(database, RowKey(SETTINGS, name), declared[name])),
        database, declared, names + {name})
  {
    var job := JobOf(database, RowKey(SETTINGS, name), declared[name]);
    var after := Scheduled(jobs, JobName(database, SETTINGS, name), job);
    forall other | other in names + {name}
      ensures var jobname := JobName(database, SETTINGS, other);
        jobname in after && after[jobname] == JobOf(database, RowKey(SETTINGS, other), declared[other])
    {
      if JobName(database, SETTINGS, other) == JobName(database, SETTINGS, name) {
        NamesDiffer(database, SETTINGS, other, name);
      }
    }
  }

  /** No job of the lane is named for anything but `names`. */
  ghost predicate LaneWithin(jobs: Jobs, database: string, source: string, names: set<string>) {
    forall jobname | InLane(jobs, jobname, database, source) :: jobname[|LanePrefix(database, source)|..] in names
  }

  /** After a prune the lane holds jobs of the kept names only, and those it held of them. */
  lemma PruneKeepsWithin(jobs: Jobs, database: string, source: string, names: set<string>)
    ensures var keep := set name | name in names :: JobName(database, source, name);
      && LaneWithin(PruneLane(jobs, database, source, keep), database, source, names)
      && forall name | name in names && JobName(database, source, name) in jobs ::
           var jobname := JobName(database, source, name);
           jobname in PruneLane(jobs, database, source, keep) && PruneLane(jobs, database, source, keep)[jobname] == jobs[jobname]
  {
    var keep := set name | name in names :: JobName(database, source, name);
    var after := PruneLane(jobs, database, source, keep);
    forall jobname | InLane(after, jobname, database, source)
      ensures jobname[|LanePrefix(database, source)|..] in names
    {
      var name :| name in names && jobname == JobName(database, source, name);
      JobNameIsPrefixed(database, source, name);
    }
  }

  lemma LessToDo(all: set<string>, done: set<string>, name: string)
    requires name in all - done
    ensures |all - (done + {name})| < |all - done|
  {
    assert all - (done + {name}) == (all - done) - {name};
  }

  predicate TornDown(source: string, includeAdmin: bool) {
    source == SETTINGS || (includeAdmin && source == ADMIN)
  }

  function Undeclared(rows: Rows, declared: Declared): set<RowKey> {
    set key | key in rows && key.source == SETTINGS && key.name !in declared
  }

  /** Each admin row of `names` has its job. */
  ghost predicate AdminEmitted(rows: Rows, jobs: Jobs, database: string, names: set<string>) {
    forall name | name in names && RowKey(ADMIN, name) in rows ::
      var jobname := JobName(database, ADMIN, name);
      jobname in jobs && jobs[jobname] == JobOf(database, RowKey(ADMIN, name), rows[RowKey(ADMIN, name)])
  }

  lemma RowsAfterSyncAt(rows: Rows, declared: Declared, key: RowKey)
    ensures var after := RowsAfterSync(rows, declared);
      && (key in after <==> if key.source == SETTINGS then key.name in declared else key in rows)
      && (key in after ==> after[key] == if key.source == SETTINGS then declared[key.name] else rows[key])
  {
  }

  lemma OverlayThenDelete(rows0: Rows, rows1: Rows, declared: Declared)
    requires Overlaid(rows0, rows1, declared, declared.Keys)
    ensures rows1 - Undeclared(rows1, declared) == RowsAfterSync(rows0, declared)
    ensures Undeclared(rows1, declared) == Undeclared(rows0, declared)
    ensures |rows1 - Undeclared(rows1, declared)| + |Undeclared(rows0, declared)| == |rows1|
  {
    var gone := Undeclared(rows1, declared);
    assert gone == Undeclared(rows0, declared);
    var rows2 := rows1 - gone;
    assert rows2.Keys == rows1.Keys - gone;
    SameRows(rows2, rows0, declared);
  }

  lemma SameRows(rows2: Rows, rows0: Rows, declared: Declared)
    requires forall key :: key in rows2 <==> if key.source == SETTINGS then key.name in declared else key in rows0
    requires forall key | key in rows2 :: rows2[key] == if key.source == SETTINGS then declared[key.name] else rows0[key]
    ensures rows2 == RowsAfterSync(rows0, declared)
  {
    forall key
      ensures key in rows2 <==> key in RowsAfterSync(rows0, declared)
      ensures key in rows2 ==> rows2[key] == RowsAfterSync(rows0, declared)[key]
    {
      RowsAfterSyncAt(rows0, declared, key);
    }
  }

  lemma AdminRowsStay(rows: Rows, declared: Declared)
    ensures var after := RowsAfterSync(rows, declared);
      forall name ::
        && (RowKey(ADMIN, name) in after <==> RowKey(ADMIN, name) in rows)
        && (RowKey(ADMIN, name) in after ==> after[RowKey(ADMIN, name)] == rows[RowKey(ADMIN, name)])
  {
    forall name
      ensures RowKey(ADMIN, name) in RowsAfterSync(rows, declared) <==> RowKey(ADMIN, name) in rows
      ensures RowKey(ADMIN, name) in RowsAfterSync(rows, declared) ==>
                RowsAfterSync(rows, declared)[RowKey(ADMIN, name)] == rows[RowKey(ADMIN, name)]
    {
      RowsAfterSyncAt(rows, declared, RowKey(ADMIN, name));
    }
  }

  lemma SyncIsIdempotent(rows: Rows, declared: Declared)
    ensures RowsAfterSync(RowsAfterSync(rows, declared), declared) == RowsAfterSync(rows, declared)
    ensures RowsAfterSync(rows, declared) == rows ==> Undeclared(rows, declared) == {}
  {
    var after := RowsAfterSync(rows, declared);
    assert RowsAfterSync(after, declared).Keys == after.Keys;
    assert forall key | key in after && key.source == SETTINGS :: key.name in declared;
  }

  lemma DifferTransitive(a: Jobs, b: Jobs, c: Jobs, database: string, source: string)
    requires OnlyLaneDiffers(a, b, database, source) && OnlyLaneDiffers(b, c, database, source)
    ensures OnlyLaneDiffers(a, c, database, source)
  {
  }

  lemma PruneKeepsBinding(start: Jobs, jobs: Jobs, database: string, source: string, keep: set<string>)
    requires WellBound(jobs, database) && OnlyLaneDiffers(start, jobs, database, source)
    ensures WellBound(PruneLane(jobs, database, source, keep), database)
    ensures OnlyLaneDiffers(start, PruneLane(jobs, database, source, keep), database, source)
  {
  }

  /** Everything but one job is the same. */
  ghost predicate OnlyJobDiffers(before: Jobs, after: Jobs, jobname: string) {
    forall other | other != jobname ::
      (other in before <==> other in after) && (other in before && other in after ==> before[other] == after[other])
  }

  /** Outside the lane and one more job, nothing differs. */
  ghost predicate OnlyLaneAndJobDiffer(before: Jobs, after: Jobs, database: string, source: string, jobname: string) {
    forall other | other != jobname ::
      (other in before && !InLane(before, other, database, source))
      || (other in after && !InLane(after, other, database, source)) ==>
        other in before && other in after && before[other] == after[other]
  }

  lemma LaneAndJobDiffer(before: Jobs, mid: Jobs, after: Jobs, database: string, source: string, jobname: string)
    requires OnlyLaneDiffers(before, mid, database, source) && OnlyJobDiffers(mid, after, jobname)
    ensures OnlyLaneAndJobDiffer(before, after, database, source, jobname)
  {
    forall other | other != jobname
      && ((other in before && !InLane(before, other, database, source)) || (other in after && !InLane(after, other, database, source)))
      ensures other in before && other in after && before[other] == after[other]
    {
      assert other in mid <==> other in after;
    }
  }

  /** The cleanup job sits in no schedule lane. */
  lemma CleanupLeavesLane(rows: Rows, jobs: Jobs, after: Jobs, database: string, source: string)
    requires source == SETTINGS || source == ADMIN
    requires OnlyJobDiffers(jobs, after, JobName(database, CLEANUP_SOURCE, CLEANUP_NAME))
    ensures LaneMatches(rows, jobs, database, source) ==> LaneMatches(rows, after, database, source)
  {
    var c := JobName(database, CLEANUP_SOURCE, CLEANUP_NAME);
    LaneSelectsItsSource(database, source, CLEANUP_SOURCE, CLEANUP_NAME);
    if LaneMatches(rows, jobs, database, source) {
      forall name | RowKey(source, name) in rows
        ensures var jobname := JobName(database, source, name);
          jobname in after && after[jobname] == JobOf(database, RowKey(source, name), rows[RowKey(source, name)])
      {
        JobNameIsPrefixed(database, source, name);
        assert JobName(database, source, name) != c;
      }
      forall jobname | InLane(after, jobname, database, source)
        ensures RowKey(source, jobname[|LanePrefix(database, source)|..]) in rows
      {
        assert InLane(jobs, jobname, database, source);
      }
    }
  }

  lemma CleanupLeavesEmitted(declared: Declared, jobs: Jobs, after: Jobs, database: string, names: set<string>)
    requires names <= declared.Keys
    requires OnlyJobDiffers(jobs, after, JobName(database, CLEANUP_SOURCE, CLEANUP_NAME))
    ensures Emitted(jobs, database, declared, names) ==> Emitted(after, database, declared, names)
    ensures LaneWithin(jobs, database, SETTINGS, declared.Keys) ==> LaneWithin(after, database, SETTINGS, declared.Keys)
  {
    var c := JobName(database, CLEANUP_SOURCE, CLEANUP_NAME);
    LaneSelectsItsSource(database, SETTINGS, CLEANUP_SOURCE, CLEANUP_NAME);
    forall name ensures JobName(database, SETTINGS, name) != c {
      JobNameIsPrefixed(database, SETTINGS, name);
    }
    assert forall jobname | InLane(after, jobname, database, SETTINGS) :: jobname != c && InLane(jobs, jobname, database, SETTINGS);
  }

  class Reconciler {
    const database: string
    const cron: CronJobs
    var rows: Rows

    constructor (database: string, cron: CronJobs, rows: Rows)
      requires cron.database == database
      ensures this.database == database && this.cron == cron && this.rows == rows
    {
      this.database, this.cron, this.rows := database, cron, rows;
    }

    ghost predicate Valid()
      reads this, cron
    {
      cron.database == database && NamesOk(rows) && WellBound(cron.jobs, database)
    }

    /** A saved row, and the emission its commit hook makes unless the central write is lost. */
    method SaveRow(key: RowKey, row: ScheduleRow, lost: bool) returns (created: bool)
      requires Valid() && ':' !in key.name && ':' !in key.source
      modifies this, cron
      ensures Valid() && rows == old(rows)[key := row] && created == (key !in old(rows))
      ensures cron.jobs == if lost then old(cron.jobs)
              else Scheduled(old(cron.jobs), JobName(database, key.source, key.name), JobOf(database, key, row))
    {
      created := key !in rows;
      rows := rows[key := row];
      if !lost {
        assert OnlyLaneDiffers(cron.jobs, cron.jobs, database, key.source);
        UpsertInLane(cron.jobs, cron.jobs, database, key.source, key.name, JobOf(database, key, row));
        cron.ScheduleJob(key.name, key.source, row.cron, RunScheduled(key.source, key.name), row.enabled);
      }
    }

    method DeleteRow(key: RowKey, lost: bool)
      requires Valid() && ':' !in key.name && ':' !in key.source
      modifies this, cron
      ensures Valid() && rows == old(rows) - {key}
      ensures cron.jobs == if lost then old(cron.jobs)
              else old(cron.jobs) - {JobName(database, key.source, key.name)}
    {
      rows := rows - {key};
      if !lost {
        RemoveInLane(cron.jobs, cron.jobs, database, key.source, key.name);
        cron.UnscheduleJob(key.name, key.source);
      }
    }

    /** Upsert a row per declared schedule. `lost` names the schedules whose emission fails. */
    method UpsertDeclared(declared: Declared, lost: set<string>) returns (created: nat)
      requires Valid() && DeclaredOk(declared)
      modifies this, cron
      ensures Valid() && OnlyLaneDiffers(old(cron.jobs), cron.jobs, database, SETTINGS)
      ensures Overlaid(old(rows), rows, declared, declared.Keys)
      ensures Emitted(cron.jobs, database, declared, declared.Keys - lost)
      ensures created == |rows| - |old(rows)|
    {
      created := 0;
      var done: set<string> := {};
      while done != declared.Keys
        invariant done <= declared.Keys && Valid()
        invariant OnlyLaneDiffers(old(cron.jobs), cron.jobs, database, SETTINGS)
        invariant Overlaid(old(rows), rows, declared, done)
        invariant Emitted(cron.jobs, database, declared, done - lost)
        invariant created == |rows| - |old(rows)|
        decreases |declared.Keys - done|
      {
        var name :| name in declared.Keys - done;
        var wasCreated := UpsertOne(old(rows), old(cron.jobs), declared, done, lost, name);
        created := created + if wasCreated then 1 else 0;
        LessToDo(declared.Keys, done, name);
        done := done + {name};
      }
    }

    /** One `update_or_create`, seen from where the loop started. */
    method UpsertOne(ghost rows0: Rows, ghost jobs0: Jobs, declared: Declared, ghost done: set<string>,
                     lost: set<string>, name: string) returns (created: bool)
      requires Valid() && DeclaredOk(declared)
      requires done <= declared.Keys && name in declared.Keys - done
      requires OnlyLaneDiffers(jobs0, cron.jobs, database, SETTINGS)
      requires Overlaid(rows0, rows, declared, done)
      requires Emitted(cron.jobs, database, declared, done - lost)
      modifies this, cron
      ensures Valid() && OnlyLaneDiffers(jobs0, cron.jobs, database, SETTINGS)
      ensures Overlaid(rows0, rows, declared, done + {name})
      ensures Emitted(cron.jobs, database, declared, done + {name} - lost)
      ensures |rows| == |old(rows)| + if created then 1 else 0
    {
      ghost var before := cron.jobs;
      created := SaveRow(RowKey(SETTINGS, name), declared[name], name in lost);
      if name in lost {
        assert done + {name} - lost == done - lost;
      } else {
        UpsertInLane(jobs0, before, database, SETTINGS, name, JobOf(database, RowKey(SETTINGS, name), declared[name]));
        EmitOneMore(before, database, declared, done - lost, name);
        assert done + {name} - lost == (done - lost) + {name};
      }
    }

    /** Delete the settings rows nothing declares, each with its own emission. */
    method DeleteUndeclared(declared: Declared, lost: set<string>) returns (pruned: nat)
      requires Valid()
      modifies this, cron
      ensures Valid() && OnlyLaneDiffers(old(cron.jobs), cron.jobs, database, SETTINGS)
      ensures var gone := set key | key in old(rows) && key.source == SETTINGS && key.name !in declared;
        rows == old(rows) - gone && pruned == |gone| && (gone == {} ==> cron.jobs == old(cron.jobs))
      ensures forall name | name in declared ::
                var jobname := JobName(database, SETTINGS, name);
                (jobname in cron.jobs <==> jobname in old(cron.jobs))
                && (jobname in cron.jobs ==> cron.jobs[jobname] == old(cron.jobs)[jobname])
    {
      ghost var gone := set key | key in rows && key.source == SETTINGS && key.name !in declared;
      var todo := set key | key in rows && key.source == SETTINGS && key.name !in declared;
      pruned := |todo|;
      while todo != {}
        invariant todo <= gone && Valid() && rows == old(rows) - (gone - todo)
        invariant OnlyLaneDiffers(old(cron.jobs), cron.jobs, database, SETTINGS)
        invariant todo == gone ==> cron.jobs == old(cron.jobs)
        invariant forall name | name in declared ::
                    var jobname := JobName(database, SETTINGS, name);
                    (jobname in cron.jobs <==> jobname in old(cron.jobs))
                    && (jobname in cron.jobs ==> cron.jobs[jobname] == old(cron.jobs)[jobname])
        decreases |todo|
      {
        var key :| key in todo;
        ghost var before := cron.jobs;
        RemoveInLane(old(cron.jobs), before, database, SETTINGS, key.name);
        DeleteRow(key, key.name in lost);
        forall name | name in declared && JobName(database, SETTINGS, name) == JobName(database, SETTINGS, key.name)
          ensures name == key.name
        {
          NamesDiffer(database, SETTINGS, name, key.name);
        }
        todo := todo - {key};
      }
    }

    /** Rows and settings lane of `sync_crons`: upsert, delete, prune. With every emission working the
        lane ends in bijection with the rows, whatever it held before. */
    method SyncSettings(declared: Declared, lost: set<string>) returns (created: nat, pruned: nat)
      requires Valid() && DeclaredOk(declared)
      modifies this, cron
      ensures Valid() && rows == RowsAfterSync(old(rows), declared)
      ensures OnlyLaneDiffers(old(cron.jobs), cron.jobs, database, SETTINGS)
      ensures Emitted(cron.jobs, database, declared, declared.Keys - lost)
      ensures LaneWithin(cron.jobs, database, SETTINGS, declared.Keys)
      ensures lost == {} ==> LaneMatches(rows, cron.jobs, database, SETTINGS)
      ensures pruned == |Undeclared(old(rows), declared)| && |rows| + pruned == |old(rows)| + created
    {
      ghost var rows0, jobs0 := rows, cron.jobs;
      SyncIsIdempotent(rows0, declared);
      created := UpsertDeclared(declared, lost);
      ghost var rows1, jobs1 := rows, cron.jobs;
      pruned := DeleteUndeclared(declared, lost);
      OverlayThenDelete(rows0, rows1, declared);
      DifferTransitive(jobs0, jobs1, cron.jobs, database, SETTINGS);
      PruneSettings(jobs0, declared, lost);
    }

    method PruneSettings(ghost jobs0: Jobs, declared: Declared, ghost lost: set<string>)
      requires Valid() && RowsAfterSync(rows, declared) == rows
      requires OnlyLaneDiffers(jobs0, cron.jobs, database, SETTINGS)
      requires Emitted(cron.jobs, database, declared, declared.Keys - lost)
      modifies cron
      ensures Valid() && OnlyLaneDiffers(jobs0, cron.jobs, database, SETTINGS)
      ensures Emitted(cron.jobs, database, declared, declared.Keys - lost)
      ensures LaneWithin(cron.jobs, database, SETTINGS, declared.Keys)
      ensures lost == {} ==> LaneMatches(rows, cron.jobs, database, SETTINGS)
    {
      ghost var jobs2 := cron.jobs;
      cron.PruneJobs(SETTINGS, declared.Keys);
      PruneKeepsBinding(jobs0, jobs2, database, SETTINGS, set name | name in declared.Keys :: JobName(database, SETTINGS, name));
      PruneKeepsWithin(jobs2, database, SETTINGS, declared.Keys);
      if lost == {} {
        assert declared.Keys - lost == declared.Keys;
        forall name
          ensures name in declared <==> RowKey(SETTINGS, name) in rows
          ensures name in declared && RowKey(SETTINGS, name) in rows ==> rows[RowKey(SETTINGS, name)] == declared[name]
        {
          assert RowKey(SETTINGS, name) in RowsAfterSync(rows, declared) <==> name in declared;
        }
        PruneMatches(rows, jobs2, database, SETTINGS, declared.Keys);
      }
    }

    /** `reconcile_cleanup_job`: the cleanup job is there on its cadence exactly when declared, and no
        other job is touched. */
    method ReconcileCleanupJob(cleanup: Option<string>)
      requires Valid()
      modifies cron
      ensures Valid() && CleanupMatches(cron.jobs, database, cleanup)
      ensures OnlyJobDiffers(old(cron.jobs), cron.jobs, JobName(database, CLEANUP_SOURCE, CLEANUP_NAME))
      ensures old(CleanupMatches(cron.jobs, database, cleanup)) ==> cron.jobs == old(cron.jobs)
    {
      ghost var jobs0 := cron.jobs;
      assert OnlyLaneDiffers(jobs0, jobs0, database, CLEANUP_SOURCE);
      if cleanup.Some? {
        UpsertInLane(jobs0, jobs0, database, CLEANUP_SOURCE, CLEANUP_NAME, Job(database, cleanup.value, CleanupAllQueues, true));
        cron.ScheduleJob(CLEANUP_NAME, CLEANUP_SOURCE, cleanup.value, CleanupAllQueues, true);
      } else {
        RemoveInLane(jobs0, jobs0, database, CLEANUP_SOURCE, CLEANUP_NAME);
        cron.UnscheduleJob(CLEANUP_NAME, CLEANUP_SOURCE);
      }
    }

    /** Nothing left for a settings reconcile to do. */
    ghost predicate Settled(declared: Declared, cleanup: Option<string>)
      reads this, cron
    {
      && RowsAfterSync(rows, declared) == rows
      && LaneMatches(rows, cron.jobs, database, SETTINGS)
      && CleanupMatches(cron.jobs, database, cleanup)
    }

    /** The same, seen as a fixpoint, and from the admin lane. */
    method SyncSettingsLane(declared: Declared, lost: set<string>) returns (created: nat, pruned: nat)
      requires Valid() && DeclaredOk(declared)
      modifies this, cron
      ensures Valid() && rows == RowsAfterSync(old(rows), declared)
      ensures OnlyLaneDiffers(old(cron.jobs), cron.jobs, database, SETTINGS)
      ensures Emitted(cron.jobs, database, declared, declared.Keys - lost)
      ensures LaneWithin(cron.jobs, database, SETTINGS, declared.Keys)
      ensures lost == {} ==> LaneMatches(rows, cron.jobs, database, SETTINGS)
      ensures lost == {} && rows == old(rows) && old(LaneMatches(rows, cron.jobs, database, SETTINGS)) ==>
                cron.jobs == old(cron.jobs) && created == 0 && pruned == 0
      ensures old(LaneMatches(rows, cron.jobs, database, ADMIN)) ==> LaneMatches(rows, cron.jobs, database, ADMIN)
      ensures pruned == |Undeclared(old(rows), declared)| && |rows| + pruned == |old(rows)| + created
    {
      ghost var rows0, jobs0 := rows, cron.jobs;
      created, pruned := SyncSettings(declared, lost);
      SyncIsIdempotent(rows0, declared);
      if lost == {} && LaneMatches(rows0, jobs0, database, SETTINGS) && rows == rows0 {
        LaneDetermined(rows, jobs0, cron.jobs, database, SETTINGS);
      }
      if LaneMatches(rows0, jobs0, database, ADMIN) {
        AdminRowsStay(rows0, declared);
        OtherLaneKeeps(rows0, jobs0, rows, cron.jobs, database, SETTINGS, ADMIN);
      }
    }

    /** `sync_crons` converges from any rows and jobs; once settled, it changes nothing and reports
        (0, 0). Neither other lanes nor other databases notice. Emissions that are lost cost only the
        lost names: every other declared name has its exact job, and no undeclared name keeps one. */
    method SyncCrons(declared: Declared, cleanup: Option<string>, lost: set<string>) returns (created: nat, pruned: nat)
      requires Valid() && DeclaredOk(declared)
      modifies this, cron
      ensures Valid() && rows == RowsAfterSync(old(rows), declared)
      ensures CleanupMatches(cron.jobs, database, cleanup)
      ensures Emitted(cron.jobs, database, declared, declared.Keys - lost)
      ensures LaneWithin(cron.jobs, database, SETTINGS, declared.Keys)
      ensures lost == {} ==> Settled(declared, cleanup)
      ensures lost == {} && old(Settled(declared, cleanup)) ==>
                rows == old(rows) && cron.jobs == old(cron.jobs) && created == 0 && pruned == 0
      ensures OnlyLaneAndJobDiffer(old(cron.jobs), cron.jobs, database, SETTINGS,
                                   JobName(database, CLEANUP_SOURCE, CLEANUP_NAME))
      ensures old(LaneMatches(rows, cron.jobs, database, ADMIN)) ==> LaneMatches(rows, cron.jobs, database, ADMIN)
      ensures pruned == |Undeclared(old(rows), declared)| && |rows| + pruned == |old(rows)| + created
    {
      SyncIsIdempotent(rows, declared);
      ghost var jobs0 := cron.jobs;
      created, pruned := SyncSettingsLane(declared, lost);
      ghost var jobs1 := cron.jobs;
      CleanUpBesideLanes(declared, declared.Keys - lost, cleanup);
      LaneAndJobDiffer(jobs0, jobs1, cron.jobs, database, SETTINGS, JobName(database, CLEANUP_SOURCE, CLEANUP_NAME));
    }

    /** The cleanup job, seen from the lanes: it disturbs neither. */
    method CleanUpBesideLanes(ghost declared: Declared, ghost names: set<string>, cleanup: Option<string>)
      requires Valid() && names <= declared.Keys
      requires Emitted(cron.jobs, database, declared, names) && LaneWithin(cron.jobs, database, SETTINGS, declared.Keys)
      modifies cron
      ensures Valid() && CleanupMatches(cron.jobs, database, cleanup)
      ensures OnlyJobDiffers(old(cron.jobs), cron.jobs, JobName(database, CLEANUP_SOURCE, CLEANUP_NAME))
      ensures old(CleanupMatches(cron.jobs, database, cleanup)) ==> cron.jobs == old(cron.jobs)
      ensures Emitted(cron.jobs, database, declared, names) && LaneWithin(cron.jobs, database, SETTINGS, declared.Keys)
      ensures old(LaneMatches(rows, cron.jobs, database, SETTINGS)) ==> LaneMatches(rows, cron.jobs, database, SETTINGS)
      ensures old(LaneMatches(rows, cron.jobs, database, ADMIN)) ==> LaneMatches(rows, cron.jobs, database, ADMIN)
    {
      ghost var jobs1 := cron.jobs;
      ReconcileCleanupJob(cleanup);
      CleanupLeavesLane(rows, jobs1, cron.jobs, database, SETTINGS);
      CleanupLeavesLane(rows, jobs1, cron.jobs, database, ADMIN);
      CleanupLeavesEmitted(declared, jobs1, cron.jobs, database, names);
    }

    /** `sync_admin_crons`: re-emit every admin row's job, then prune the jobs of rows that are gone. It
        converges from any state too, and changes nothing once its lane matches. */
    method SyncAdminCrons(ghost declared: Declared, ghost cleanup: Option<string>)
      requires Valid()
      modifies cron
      ensures Valid() && LaneMatches(rows, cron.jobs, database, ADMIN)
      ensures OnlyLaneDiffers(old(cron.jobs), cron.jobs, database, ADMIN)
      ensures old(LaneMatches(rows, cron.jobs, database, ADMIN)) ==> cron.jobs == old(cron.jobs)
      ensures old(Settled(declared, cleanup)) ==> Settled(declared, cleanup)
    {
      ghost var jobs0 := cron.jobs;
      EmitAdminRows();
      ghost var jobs1 := cron.jobs;
      var all := set key | key in rows && key.source == ADMIN :: key.name;
      cron.PruneJobs(ADMIN, all);
      PruneKeepsBinding(jobs0, jobs1, database, ADMIN, set name | name in all :: JobName(database, ADMIN, name));
      PruneMatches(rows, jobs1, database, ADMIN, all);
      if LaneMatches(rows, jobs0, database, ADMIN) {
        LaneDetermined(rows, jobs0, cron.jobs, database, ADMIN);
      }
      if LaneMatches(rows, jobs0, database, SETTINGS) {
        OtherLaneKeeps(rows, jobs0, rows, cron.jobs, database, ADMIN, SETTINGS);
      }
      LaneSelectsItsSource(database, ADMIN, CLEANUP_SOURCE, CLEANUP_NAME);
    }

    method EmitAdminRows()
      requires Valid()
      modifies cron
      ensures Valid() && OnlyLaneDiffers(old(cron.jobs), cron.jobs, database, ADMIN)
      ensures AdminEmitted(rows, cron.jobs, database, set key | key in rows && key.source == ADMIN :: key.name)
    {
      var all := set key | key in rows && key.source == ADMIN :: key.name;
      var done: set<string> := {};
      while done != all
        invariant done <= all && Valid()
        invariant OnlyLaneDiffers(old(cron.jobs), cron.jobs, database, ADMIN)
        invariant AdminEmitted(rows, cron.jobs, database, done)
        decreases |all - done|
      {
        var name :| name in all - done;
        EmitAdminRow(old(cron.jobs), done, name);
        LessToDo(all, done, name);
        done := done + {name};
      }
    }

    method EmitAdminRow(ghost jobs0: Jobs, ghost done: set<string>, name: string)
      requires Valid() && RowKey(ADMIN, name) in rows
      requires OnlyLaneDiffers(jobs0, cron.jobs, database, ADMIN)
      requires AdminEmitted(rows, cron.jobs, database, done)
      modifies cron
      ensures Valid() && OnlyLaneDiffers(jobs0, cron.jobs, database, ADMIN)
      ensures AdminEmitted(rows, cron.jobs, database, done + {name})
    {
      var row := rows[RowKey(ADMIN, name)];
      UpsertInLane(jobs0, cron.jobs, database, ADMIN, name, JobOf(database, RowKey(ADMIN, name), row));
      forall other | other in done && JobName(database, ADMIN, other) == JobName(database, ADMIN, name)
        ensures other == name
      {
        NamesDiffer(database, ADMIN, other, name);
      }
      cron.ScheduleJob(name, ADMIN, row.cron, RunScheduled(ADMIN, name), row.enabled);
    }

    /** Both reconcilers, as after a migrate: from any rows and any jobs the two lanes end in bijection
        with the rows and the cleanup job as declared, and doing it again is a no-op. */
    method ReconcileAfterMigrate(declared: Declared, cleanup: Option<string>) returns (created: nat, pruned: nat)
      requires Valid() && DeclaredOk(declared)
      modifies this, cron
      ensures Valid() && Settled(declared, cleanup) && LaneMatches(rows, cron.jobs, database, ADMIN)
      ensures rows == RowsAfterSync(old(rows), declared)
      ensures old(Settled(declared, cleanup) && LaneMatches(rows, cron.jobs, database, ADMIN)) ==>
                rows == old(rows) && cron.jobs == old(cron.jobs) && created == 0 && pruned == 0
    {
      created, pruned := SyncCrons(declared, cleanup, {});
      SyncAdminCrons(declared, cleanup);
    }

    /** `teardown_crons`: drop whole lanes and the cleanup job, then the rows behind them. */
    method TeardownCrons(includeAdmin: bool) returns (removed: nat)
      requires Valid()
      modifies this, cron
      ensures Valid()
      ensures forall key :: key in rows <==> key in old(rows) && !TornDown(key.source, includeAdmin)
      ensures forall key | key in rows :: rows[key] == old(rows)[key]
      ensures removed == |old(rows)| - |rows|
      ensures forall jobname :: jobname in cron.jobs <==>
                && jobname in old(cron.jobs)
                && jobname != JobName(database, CLEANUP_SOURCE, CLEANUP_NAME)
                && !InLane(old(cron.jobs), jobname, database, SETTINGS)
                && !(includeAdmin && InLane(old(cron.jobs), jobname, database, ADMIN))
      ensures forall jobname | jobname in cron.jobs :: cron.jobs[jobname] == old(cron.jobs)[jobname]
    {
      TearDownJobs(includeAdmin);
      ghost var rows0 := rows;
      var gone := set key | key in rows && TornDown(key.source, includeAdmin);
      removed := |gone|;
      rows := rows - gone;
      assert rows.Keys == rows0.Keys - gone;
    }

    method TearDownJobs(includeAdmin: bool)
      requires Valid()
      modifies cron
      ensures Valid()
      ensures forall jobname :: jobname in cron.jobs <==>
                && jobname in old(cron.jobs)
                && jobname != JobName(database, CLEANUP_SOURCE, CLEANUP_NAME)
                && !InLane(old(cron.jobs), jobname, database, SETTINGS)
                && !(includeAdmin && InLane(old(cron.jobs), jobname, database, ADMIN))
      ensures forall jobname | jobname in cron.jobs :: cron.jobs[jobname] == old(cron.jobs)[jobname]
    {
      cron.UnscheduleJobsForDatabase(SETTINGS);
      if includeAdmin {
        cron.UnscheduleJobsForDatabase(ADMIN);
      }
      cron.UnscheduleJob(CLEANUP_NAME, CLEANUP_SOURCE);
    }
  }
}
