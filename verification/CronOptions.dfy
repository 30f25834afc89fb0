/** Spawn options flattened into a schedule row's columns, and rebuilt from them when the row fires. */
module CronOptions {
  import opened Wrappers
  import opened SpawnOptions
  import opened Backend

  /** The spawn-option columns of a ScheduledTask row. */
  datatype SpawnColumns = SpawnColumns(
    queue: string,
    maxAttempts: Option<int>,
    retryKind: string,
    retryBaseSeconds: Option<real>,
    retryFactor: Option<real>,
    retryMaxSeconds: Option<real>,
    cancellationMaxDuration: Option<int>,
    cancellationMaxDelay: Option<int>,
    headers: Option<Headers>,
    idempotencyKey: string)

  datatype ScheduleRow = ScheduleRow(
    task: string,
    args: seq<Json>,
    kwargs: map<string, Json>,
    cron: string,
    enabled: bool,
    columns: SpawnColumns)

  /** `dict.get`: a missing key and a stored null read the same. */
  function Get<T>(slot: Slot<Option<T>>): Option<T> {
    if slot.Set? then slot.value else None
  }

  function OrBlank(text: Option<string>): string {
    if text.Some? then text.value else ""
  }

  /** The flattening in `build_scheduled_fields`. */
  function Flatten(queue: string, options: SpawnKwargs): SpawnColumns {
    var retry := Get(options.retryStrategy);
    var cancellation := Get(options.cancellation);
    SpawnColumns(
      queue,
      Get(options.maxAttempts),
      if retry.Some? then OrBlank(Get(retry.value.kind)) else "",
      if retry.Some? then Get(retry.value.baseSeconds) else None,
      if retry.Some? then Get(retry.value.factor) else None,
      if retry.Some? then Get(retry.value.maxSeconds) else None,
      if cancellation.Some? then Get(cancellation.value.maxDuration) else None,
      if cancellation.Some? then Get(cancellation.value.maxDelay) else None,
      Get(options.headers),
      if options.idempotencyKey.Set? then options.idempotencyKey.value else "")
  }

  /** `jsonb_strip_nulls`: a null part is left out. */
  function Part<T>(value: Option<T>): Slot<Option<T>> {
    if value.Some? then Set(value) else Unset
  }

  function Rebuild(v: SpawnColumns): SpawnKwargs {
    SpawnKwargs(
      Part(v.maxAttempts),
      if v.retryKind != ""
      then Set(Some(RetryStrategy(Set(Some(v.retryKind)), Part(v.retryBaseSeconds), Part(v.retryFactor), Part(v.retryMaxSeconds))))
      else Unset,
      if v.cancellationMaxDuration.Some? || v.cancellationMaxDelay.Some?
      then Set(Some(CancellationPolicy(Part(v.cancellationMaxDuration), Part(v.cancellationMaxDelay))))
      else Unset,
      Part(v.headers),
      if v.idempotencyKey != "" then Set(v.idempotencyKey) else Unset)
  }

  /** The run wrapper's own way: start empty and concatenate one key at a time. */
  method RebuildOptions(v: SpawnColumns) returns (options: SpawnKwargs)
    ensures options == Rebuild(v)
  {
    options := EMPTY;
    if v.maxAttempts.Some? {
      options := options.(maxAttempts := Set(v.maxAttempts));
    }
    if v.retryKind != "" {
      options := options.(retryStrategy := Set(Some(RetryStrategy(
        Set(Some(v.retryKind)), Part(v.retryBaseSeconds), Part(v.retryFactor), Part(v.retryMaxSeconds)))));
    }
    if v.headers.Some? {
      options := options.(headers := Set(v.headers));
    }
    if v.cancellationMaxDuration.Some? || v.cancellationMaxDelay.Some? {
      options := options.(cancellation := Set(Some(CancellationPolicy(
        Part(v.cancellationMaxDuration), Part(v.cancellationMaxDelay)))));
    }
    if v.idempotencyKey != "" {
      options := options.(idempotencyKey := Set(v.idempotencyKey));
    }
  }

  /** No empty part and no null part anywhere; a retry strategy names its kind. */
  predicate Canonical(options: SpawnKwargs) {
    && NoNull(options.maxAttempts) && NoNull(options.headers)
    && NoNull(options.retryStrategy) && NoNull(options.cancellation)
    && options.idempotencyKey != Set("")
    && (options.retryStrategy.Set? ==>
          var retry := options.retryStrategy.value.value;
          && retry.kind.Set? && retry.kind.value.Some? && retry.kind.value.value != ""
          && NoNull(retry.baseSeconds) && NoNull(retry.factor) && NoNull(retry.maxSeconds))
    && (options.cancellation.Set? ==>
          var cancellation := options.cancellation.value.value;
          && NoNull(cancellation.maxDuration) && NoNull(cancellation.maxDelay)
          && (cancellation.maxDuration.Set? || cancellation.maxDelay.Set?))
  }

  predicate NoNull<T>(slot: Slot<Option<T>>) {
    slot.Set? ==> slot.value.Some?
  }

  /** Retry timing without a retry kind: the columns `clean()` refuses. */
  predicate TimingWithoutKind(v: SpawnColumns) {
    v.retryKind == "" && (v.retryBaseSeconds.Some? || v.retryFactor.Some? || v.retryMaxSeconds.Some?)
  }

  datatype CleanField = CronField | QueueField | RetryKindField

  /** `ScheduledTask.clean`: the fields it reports. The cron grammar and the backend's declared queues
      are given; without a backend only the grammar, a blank queue and the retry rule are checked. */
  method Clean(row: ScheduleRow, cronIsValid: bool, declared: Option<set<string>>, taskQueue: string)
    returns (errors: set<CleanField>)
    ensures RetryKindField in errors <==> TimingWithoutKind(row.columns)
    ensures CronField in errors <==> !cronIsValid
    ensures QueueField in errors <==>
              || row.columns.queue == ""
              || (declared.Some? && row.columns.queue !in declared.value)
  {
    errors := {};
    if !cronIsValid {
      errors := errors + {CronField};
    }
    if row.columns.queue == "" {
      errors := errors + {QueueField};
    }
    if declared.Some? {
      var effective := if row.columns.queue != "" then row.columns.queue else taskQueue;
      if effective !in declared.value {
        errors := errors + {QueueField};
      }
    }
    if row.columns.retryKind == ""
       && (row.columns.retryBaseSeconds.Some? || row.columns.retryFactor.Some? || row.columns.retryMaxSeconds.Some?) {
      errors := errors + {RetryKindField};
    }
  }

  function WithoutNull<T>(slot: Slot<Option<T>>): Slot<Option<T>> {
    if slot == Set(None) then Unset else slot
  }

  /** Options with every null and empty part dropped, and a retry strategy that names no kind with them. */
  function Stripped(options: SpawnKwargs): SpawnKwargs {
    SpawnKwargs(
      WithoutNull(options.maxAttempts),
      match options.retryStrategy
      case Set(Some(retry)) =>
        if retry.kind.Set? && retry.kind.value.Some? && retry.kind.value.value != ""
        then Set(Some(RetryStrategy(retry.kind, WithoutNull(retry.baseSeconds), WithoutNull(retry.factor), WithoutNull(retry.maxSeconds))))
        else Unset
      case _ => Unset,
      match options.cancellation
      case Set(Some(policy)) =>
        var kept := CancellationPolicy(WithoutNull(policy.maxDuration), WithoutNull(policy.maxDelay));
        if kept == CancellationPolicy(Unset, Unset) then Unset else Set(Some(kept))
      case _ => Unset,
      WithoutNull(options.headers),
      if options.idempotencyKey == Set("") then Unset else options.idempotencyKey)
  }

  /** The row keeps exactly the stripped options, whatever went in. */
  lemma RowKeepsStripped(queue: string, options: SpawnKwargs)
    ensures Rebuild(Flatten(queue, options)) == Stripped(options)
    ensures Stripped(options) == options <==> Canonical(options)
  {
    var back := Rebuild(Flatten(queue, options));
    assert back.retryStrategy == Stripped(options).retryStrategy;
    assert back.cancellation == Stripped(options).cancellation;
  }

  /** Options survive the row exactly when they are canonical; columns survive the rebuild exactly when
      `clean()` has no retry-kind error to report. */
  lemma OptionsRoundTrip(queue: string, options: SpawnKwargs, columns: SpawnColumns)
    ensures Rebuild(Flatten(queue, options)) == options <==> Canonical(options)
    ensures Flatten(columns.queue, Rebuild(columns)) == columns <==> !TimingWithoutKind(columns)
  {
    RowKeepsStripped(queue, options);
  }

  const TIMED_NO_KIND := SpawnColumns("q", None, "", Some(1.0), None, None, None, None, None, "")

  /** A null bound as an option, and timing without a kind, are each lost on the way round. */
  lemma WhatTheRowLoses()
    ensures var unlimited := EMPTY.(maxAttempts := Set(None));
      !Canonical(unlimited) && Rebuild(Flatten("q", unlimited)) == EMPTY
    ensures TimingWithoutKind(TIMED_NO_KIND)
    ensures Flatten("q", Rebuild(TIMED_NO_KIND)) == TIMED_NO_KIND.(retryBaseSeconds := None)
  {
  }

  /** What is lost is lost at once: going round a second time changes nothing more. */
  lemma RebuildIsCanonical(queue: string, columns: SpawnColumns)
    ensures Canonical(Rebuild(columns))
    ensures Rebuild(Flatten(queue, Rebuild(columns))) == Rebuild(columns)
  {
    OptionsRoundTrip(queue, Rebuild(columns), columns);
  }

  /*******************************************************************************
   *  Settings rows and what they spawn
   *******************************************************************************/

  /** The row a declared schedule writes. Its name is the path the schedule gives, which may be any path that
      imports to the task; its options are the task's own defaults over the backend's attempts. */
  function BuildScheduledRow(
      path: string, definition: Task, defaultMaxAttempts: int, queueOverride: Option<string>,
      args: seq<Json>, kwargs: map<string, Json>, cron: string): ScheduleRow
  {
    var options := WithDefaultAttempts(Merge(definition.func.defaults, None), defaultMaxAttempts);
    var queue := if queueOverride.Some? && queueOverride.value != "" then queueOverride.value else definition.queueName;
    ScheduleRow(path, args, kwargs, cron, true, Flatten(queue, options))
  }

  /** The spawn `django_absurd_run_scheduled` performs for a row. */
  function RequestOf(row: ScheduleRow): SpawnRequest {
    SpawnRequest(row.columns.queue, row.task, Call(row.args, row.kwargs), Rebuild(row.columns))
  }

  predicate OwnQueue(definition: Task, queueOverride: Option<string>) {
    queueOverride.None? || queueOverride.value == "" || queueOverride.value == definition.queueName
  }

  /** What the decorator alone gives a schedule: bound options are not read. */
  function DecoratorOptions(definition: Task, defaultMaxAttempts: int): SpawnKwargs {
    WithDefaultAttempts(LayerOf(definition.func.defaults), defaultMaxAttempts)
  }

  /** A firing of a declared schedule makes just the write that enqueueing its importable task makes, if
      and only if the schedule names the task by its module path, that task's alias reaches the same database
      and takes its queue, the task is not deferred, its effective options are the decorator's with the
      scheduling backend's attempts, stripped of nulls, and the schedule sends it to its own queue. */
  lemma FiringMatchesEnqueue(
      backends: Backends, backend: AbsurdBackend, path: string, definition: Task, queueOverride: Option<string>,
      args: seq<Json>, kwargs: map<string, Json>, cron: string)
    ensures var row := BuildScheduledRow(path, definition, backend.defaultMaxAttempts, queueOverride, args, kwargs, cron);
      EnqueueWrite(backends, definition, args, kwargs) == Some(Write(backend.database, RequestOf(row)))
      <==>
      && path == definition.func.modulePath
      && definition.backend in backends && backends[definition.backend].database == backend.database
      && Takes(backends[definition.backend], definition.queueName)
      && definition.runAfter.None?
      && EffectiveOptions(definition, backends[definition.backend].defaultMaxAttempts)
         == Stripped(DecoratorOptions(definition, backend.defaultMaxAttempts))
      && OwnQueue(definition, queueOverride)
  {
    var row := BuildScheduledRow(path, definition, backend.defaultMaxAttempts, queueOverride, args, kwargs, cron);
    assert Merge(definition.func.defaults, None) == LayerOf(definition.func.defaults);
    RowKeepsStripped(row.columns.queue, DecoratorOptions(definition, backend.defaultMaxAttempts));
  }

  /** Of a task as `@task` leaves it on the scheduling backend, the condition is about the path the schedule
      gives and the decorator alone. */
  lemma DeclaredFiringMatchesEnqueue(
      backends: Backends, alias: string, path: string, func: Func, queueName: string,
      args: seq<Json>, kwargs: map<string, Json>, cron: string)
    requires alias in backends && Takes(backends[alias], queueName)
    ensures var definition, attempts := Declare(func, queueName, alias, true), backends[alias].defaultMaxAttempts;
      var row := BuildScheduledRow(path, definition, attempts, None, args, kwargs, cron);
      EnqueueWrite(backends, definition, args, kwargs) == Some(Write(backends[alias].database, RequestOf(row)))
      <==> path == func.modulePath && Canonical(DecoratorOptions(definition, attempts))
  {
    var definition, attempts := Declare(func, queueName, alias, true), backends[alias].defaultMaxAttempts;
    RebuildsKeepOptions(func, queueName, alias, true, [], attempts);
    assert BuiltBy(definition, queueName, alias, true, []);
    FiringMatchesEnqueue(backends, backends[alias], path, definition, None, args, kwargs, cron);
    RowKeepsStripped(queueName, DecoratorOptions(definition, attempts));
  }

  /** `f = absurd_params(max_attempts=3).bind(f)` with no decorator: the firing asks for the backend's five
      attempts, the enqueue for three. */
  lemma BoundDefinitionFiresDifferently(path: string, args: seq<Json>, kwargs: map<string, Json>, cron: string)
    ensures var definition := ApplyRebuild(Declare(Func(path, None), "q", "a", true), Bind(EMPTY.(maxAttempts := Set(Some(3)))));
      var row := BuildScheduledRow(path, definition, ON_A.defaultMaxAttempts, None, args, kwargs, cron);
      && RequestOf(row).options.maxAttempts == Set(Some(5))
      && PlanSpawn(ON_A, definition, args, kwargs).options.maxAttempts == Set(Some(3))
  {
  }

  /** `nightly = report.using(queue_name="q")`, scheduled as "m.nightly": the firing differs from the enqueue
      of that task in its name and in nothing else. */
  lemma AliasedPathFiresUnderItsOwnName(args: seq<Json>, kwargs: map<string, Json>, cron: string)
    ensures var nightly := ApplyRebuild(Declare(Func("m.report", None), "default", "a", true), Using(Set("q"), Unset, Unset));
      var fired := RequestOf(BuildScheduledRow("m.nightly", nightly, ON_A.defaultMaxAttempts, None, args, kwargs, cron));
      var enqueued := PlanSpawn(ON_A, nightly, args, kwargs);
      && EnqueueWrite(map["a" := ON_A], nightly, args, kwargs) == Some(Write(ON_A.database, enqueued))
      && fired.name == "m.nightly" && enqueued.name == "m.report"
      && fired == enqueued.(name := "m.nightly")
  {
    FiringMatchesEnqueue(map["a" := ON_A], ON_A, "m.report",
      ApplyRebuild(Declare(Func("m.report", None), "default", "a", true), Using(Set("q"), Unset, Unset)), None, args, kwargs, cron);
  }
}
