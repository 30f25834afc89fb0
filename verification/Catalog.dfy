/** Job names, lanes, and the single seam every `cron.job` write goes through. */
module Catalog {
  import opened Text

  const SETTINGS := "s"
  const ADMIN := "a"
  const CLEANUP_SOURCE := "c"
  const CLEANUP_NAME := "cleanup_all"

  /** What a job runs: the wrapper for one schedule row, or Absurd's cleanup. */
  datatype Command = RunScheduled(source: string, name: string) | CleanupAllQueues

  datatype Job = Job(database: string, cron: string, command: Command, active: bool)

  type Jobs = map<string, Job>

  function JobName(database: string, source: string, name: string): string {
    "_dj:" + database + ":" + source + ":" + name
  }

  /** The prefix `build_jobname` yields for a whole lane. */
  function LanePrefix(database: string, source: string): string {
    JobName(database, source, "")
  }

  /** What the catalog's queries select a lane by: the database column and the name's prefix. */
  predicate InLane(jobs: Jobs, jobname: string, database: string, source: string) {
    jobname in jobs && jobs[jobname].database == database && LanePrefix(database, source) <= jobname
  }

  /*******************************************************************************
   *  Names
   *******************************************************************************/

  lemma JobNameIsPrefixed(database: string, source: string, name: string)
    ensures JobName(database, source, name) == LanePrefix(database, source) + name
    ensures LanePrefix(database, source) <= JobName(database, source, name)
    ensures JobName(database, source, name)[|LanePrefix(database, source)|..] == name
  {
  }

  /** Colon-free sources and names make the job name injective, even when databases hold colons. */
  lemma JobNameInjective(d1: string, s1: string, n1: string, d2: string, s2: string, n2: string)
    requires ':' !in s1 && ':' !in n1 && ':' !in s2 && ':' !in n2
    requires JobName(d1, s1, n1) == JobName(d2, s2, n2)
    ensures d1 == d2 && s1 == s2 && n1 == n2
  {
    var head1, head2 := "_dj:" + d1, "_dj:" + d2;
    RSplitUnique(head1 + ":" + s1, n1, ':');
    RSplitUnique(head2 + ":" + s2, n2, ':');
    RSplitUnique(head1, s1, ':');
    RSplitUnique(head2, s2, ':');
    assert d1 == head1[4..] && d2 == head2[4..];
  }

  /** Within one database the prefix picks out one source's names and no other's. */
  lemma LaneSelectsItsSource(database: string, source: string, other: string, name: string)
    requires ':' !in source && ':' !in other
    ensures LanePrefix(database, source) <= JobName(database, other, name) <==> source == other
  {
    var head := "_dj:" + database + ":";
    var full := JobName(database, other, name);
    assert full == head + (other + ":" + name);
    assert LanePrefix(database, source) == head + (source + ":");
    if LanePrefix(database, source) <= full {
      assert full[|head|..] == other + ":" + name;
      assert full[|head|..][..|source| + 1] == source + ":";
      PrefixBeforeColon(source, other, name);
    }
  }

  lemma PrefixBeforeColon(source: string, other: string, name: string)
    requires ':' !in source && ':' !in other
    requires source + ":" <= other + ":" + name
    ensures source == other
  {
    var whole := other + ":" + name;
    assert whole[|source|] == ':' && whole[|other|] == ':';
    assert forall i | 0 <= i < |source| :: whole[i] == source[i] != ':';
    assert forall i | 0 <= i < |other| :: whole[i] == other[i] != ':';
    assert whole[..|source|] == source && whole[..|other|] == other;
  }

  /** The prefix alone would not do: another database's job can start with it. */
  lemma PrefixNeedsTheDatabase()
    ensures LanePrefix("app", "s") <= JobName("app:s", "a", "nightly")
    ensures "app" != "app:s"
  {
    assert JobName("app:s", "a", "nightly")[..|LanePrefix("app", "s")|] == LanePrefix("app", "s");
  }

  /*******************************************************************************
   *  What the verbs do to the catalog
   *******************************************************************************/

  /** `cron.schedule_in_database` upserts by name: an existing job keeps its database and its armed
      state, so `cron.alter_job` must arm it. */
  function ScheduleInDatabase(jobs: Jobs, jobname: string, job: Job): Jobs {
    if jobname in jobs then jobs[jobname := jobs[jobname].(cron := job.cron, command := job.command)]
    else jobs[jobname := job]
  }

  function AlterJob(jobs: Jobs, jobname: string, active: bool): Jobs
    requires jobname in jobs
  {
    jobs[jobname := jobs[jobname].(active := active)]
  }

  function Scheduled(jobs: Jobs, jobname: string, job: Job): (r: Jobs)
    ensures jobname in r && r - {jobname} == jobs - {jobname}
    ensures r[jobname] == if jobname in jobs then job.(database := jobs[jobname].database) else job
  {
    AlterJob(ScheduleInDatabase(jobs, jobname, job), jobname, job.active)
  }

  function PruneLane(jobs: Jobs, database: string, source: string, keep: set<string>): Jobs {
    map jobname | jobname in jobs && (InLane(jobs, jobname, database, source) ==> jobname in keep) :: jobs[jobname]
  }

  /** The app database's names are its own: a job named for it is bound to it. */
  ghost predicate WellBound(jobs: Jobs, database: string) {
    forall source, name | JobName(database, source, name) in jobs && ':' !in source && ':' !in name ::
      jobs[JobName(database, source, name)].database == database
  }

  class CronJobs {
    const database: string
    var jobs: Jobs

    constructor (database: string, jobs: Jobs)
      ensures this.database == database && this.jobs == jobs
    {
      this.database, this.jobs := database, jobs;
    }

    method ScheduleJob(name: string, source: string, cron: string, command: Command, active: bool)
      modifies this
      ensures jobs == Scheduled(old(jobs), JobName(database, source, name), Job(database, cron, command, active))
    {
      var jobname := JobName(database, source, name);
      jobs := ScheduleInDatabase(jobs, jobname, Job(database, cron, command, active));
      jobs := AlterJob(jobs, jobname, active);
    }

    /** `unschedule_jobids`: one by one, tolerating those already gone. */
    method UnscheduleAll(names: set<string>)
      modifies this
      ensures jobs == old(jobs) - names
    {
      var todo := names;
      while todo != {}
        invariant todo <= names && jobs == old(jobs) - (names - todo)
        decreases |todo|
      {
        var jobname :| jobname in todo;
        if jobname in jobs {
          jobs := jobs - {jobname};
        }
        todo := todo - {jobname};
      }
    }

    method UnscheduleJob(name: string, source: string)
      modifies this
      ensures jobs == old(jobs) - {JobName(database, source, name)}
    {
      var jobname := JobName(database, source, name);
      UnscheduleAll(set candidate | candidate in jobs && candidate == jobname);
    }

    method UnscheduleJobsForDatabase(source: string)
      modifies this
      ensures jobs == PruneLane(old(jobs), database, source, {})
    {
      UnscheduleAll(set jobname | jobname in jobs && InLane(jobs, jobname, database, source));
    }

    method PruneJobs(source: string, keepNames: set<string>)
      modifies this
      ensures jobs == PruneLane(old(jobs), database, source, set name | name in keepNames :: JobName(database, source, name))
    {
      var keep := set name | name in keepNames :: JobName(database, source, name);
      UnscheduleAll(set jobname | jobname in jobs && InLane(jobs, jobname, database, source) && jobname !in keep);
    }

    /** `flush_database_jobs`: every lane of this database, and nothing else. */
    method FlushDatabaseJobs()
      modifies this
      ensures forall jobname :: jobname in jobs <==>
                jobname in old(jobs) && !(old(jobs)[jobname].database == database && "_dj:" <= jobname)
      ensures forall jobname | jobname in jobs :: jobs[jobname] == old(jobs)[jobname]
    {
      UnscheduleAll(set jobname | jobname in jobs && jobs[jobname].database == database && "_dj:" <= jobname);
    }
  }

  /** Pruning a lane keeps every job of every other lane and database, kept names included. */
  lemma PruneTouchesOneLane(jobs: Jobs, database: string, source: string, keep: set<string>,
                            otherDatabase: string, otherSource: string, name: string)
    requires ':' !in source && ':' !in otherSource && ':' !in name
    requires WellBound(jobs, otherDatabase)
    requires (otherDatabase, otherSource) != (database, source)
    ensures var jobname := JobName(otherDatabase, otherSource, name);
      jobname in PruneLane(jobs, database, source, keep) <==> jobname in jobs
  {
    var jobname := JobName(otherDatabase, otherSource, name);
    if jobname in jobs && otherDatabase == database {
      LaneSelectsItsSource(database, source, otherSource, name);
    }
  }
}
