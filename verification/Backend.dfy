/** The task backend's write side: the queue store Absurd keeps, the spawn an enqueue plans,
    and the deferred enqueue, which spawns a wrapper that later enqueues the real task. */
module Backend {
  import opened Wrappers
  import opened SpawnOptions
  import opened Text

  datatype Json =
    | JNull
    | JNumber(number: real)
    | JString(text: string)
    | JArray(items: seq<Json>)
    | JObject(fields: map<string, Json>)

  const DEFER_NAME_SUFFIX := ":run_after"

  /** A dotted path holds no colon, so it never ends with the suffix. */
  lemma SuffixHoldsColon(s: string)
    requires EndsWith(s, DEFER_NAME_SUFFIX)
    ensures ':' in s
  {
    assert s[|s| - 10] == DEFER_NAME_SUFFIX[0];
  }

  /** A row's params: an ordinary call, or what a wrapper replays once it is due. */
  datatype Params =
    | Call(args: seq<Json>, kwargs: map<string, Json>)
    | Deferral(args: seq<Json>, kwargs: map<string, Json>, queue: string, options: SpawnKwargs, due: int)

  datatype AbsurdBackend = AbsurdBackend(alias: string, database: string, queues: set<string>, defaultMaxAttempts: int)

  /** The configured aliases that are Absurd backends; a task may name any other. */
  type Backends = map<string, AbsurdBackend>

  /*******************************************************************************
   *  The store
   *******************************************************************************/

  datatype TaskKey = TaskKey(queue: string, id: string)

  /** What a spawn fixes for good, with the order and the instant it happened at. */
  datatype Spawned = Spawned(name: string, params: Params, options: SpawnKwargs, order: nat, at: int)

  datatype TaskState = Pending | Running | Sleeping | Completed | Failed | Cancelled

  /** What Absurd changes as the task runs. */
  datatype Life = Life(state: TaskState, payload: Json, firstStartedAt: Option<int>, failure: Option<string>)

  datatype Store = Store(
    provisioned: set<string>,
    spawned: map<TaskKey, Spawned>,
    life: map<TaskKey, Life>,
    keyed: map<(string, string), string>)

  datatype SpawnRequest = SpawnRequest(queue: string, name: string, params: Params, options: SpawnKwargs)

  predicate KeyTaken(store: Store, request: SpawnRequest) {
    request.options.idempotencyKey.Set? && (request.queue, request.options.idempotencyKey.value) in store.keyed
  }

  /** Absurd's `spawn`: a used idempotency key returns the task that holds it. */
  function Spawn(store: Store, request: SpawnRequest, freshId: string, at: int): (r: (Store, string))
    ensures KeyTaken(store, request) ==> r.0 == store
    ensures !KeyTaken(store, request) ==> r.1 == freshId && TaskKey(request.queue, freshId) in r.0.spawned
  {
    var key := request.options.idempotencyKey;
    if KeyTaken(store, request) then (store, store.keyed[(request.queue, key.value)])
    else
      var task := TaskKey(request.queue, freshId);
      var row := Spawned(request.name, request.params, request.options, |store.spawned|, at);
      (store.(spawned := store.spawned[task := row],
              life := store.life[task := Life(Pending, JNull, None, None)],
              keyed := if key.Set? then store.keyed[(request.queue, key.value) := freshId] else store.keyed),
       freshId)
  }

  /*******************************************************************************
   *  Enqueue
   *******************************************************************************/

  datatype EnqueueError = InvalidTask | QueueNotDeclared | QueueNotProvisioned

  function ResultId(queue: string, id: string): string {
    queue + ":" + id
  }

  /** A wrapper's own key, derived from the caller's. */
  function WrapperKey(key: Slot<string>): Slot<string> {
    if key.Set? then Set(key.value + DEFER_NAME_SUFFIX) else Unset
  }

  /** The options of the row an enqueue spawns: the task's own, or a wrapper's few. */
  function SpawnOptionsOf(task: Task, defaultMaxAttempts: int): SpawnKwargs {
    var merged := EffectiveOptions(task, defaultMaxAttempts);
    if task.runAfter.None? then merged
    else EMPTY.(maxAttempts := Set(Some(defaultMaxAttempts)), idempotencyKey := WrapperKey(merged.idempotencyKey))
  }

  /** The one spawn an enqueue makes: the task itself, or the wrapper that waits for it. */
  function PlanSpawn(backend: AbsurdBackend, task: Task, args: seq<Json>, kwargs: map<string, Json>): SpawnRequest {
    var options := SpawnOptionsOf(task, backend.defaultMaxAttempts);
    if task.runAfter.Some? then
      var merged := EffectiveOptions(task, backend.defaultMaxAttempts);
      SpawnRequest(task.queueName,
                   task.func.modulePath + DEFER_NAME_SUFFIX,
                   Deferral(args, kwargs, task.queueName, merged, task.runAfter.value),
                   options)
    else
      SpawnRequest(task.queueName, task.func.modulePath, Call(args, kwargs), options)
  }

  /** `validate_task`: a backend that declares queues takes no others. */
  predicate Takes(backend: AbsurdBackend, queue: string) {
    backend.queues == {} || queue in backend.queues
  }

  function EnqueueRefusal(backend: AbsurdBackend, store: Store, queue: string): Option<EnqueueError> {
    if !Takes(backend, queue) then Some(InvalidTask)
    else if queue in store.provisioned then None
    else if queue !in backend.queues then Some(QueueNotDeclared)
    else Some(QueueNotProvisioned)
  }

  function Enqueue(backend: AbsurdBackend, store: Store, task: Task, args: seq<Json>, kwargs: map<string, Json>,
                   freshId: string, at: int): Result<(Store, string), EnqueueError> {
    match EnqueueRefusal(backend, store, task.queueName)
    case Some(error) => Failure(error)
    case None =>
      var (after, id) := Spawn(store, PlanSpawn(backend, task, args, kwargs), freshId, at);
      Success((after, ResultId(task.queueName, id)))
  }

  /** Why an enqueue is refused: a backend that declares queues takes no other; a queue it declares may not be
      provisioned yet; and without declared queues an unprovisioned one counts as undeclared. */
  lemma RefusalSaysWhy(backend: AbsurdBackend, store: Store, task: Task, args: seq<Json>, kwargs: map<string, Json>,
                       freshId: string, at: int)
    ensures var r := Enqueue(backend, store, task, args, kwargs, freshId, at);
      && (r == Failure(InvalidTask) <==> backend.queues != {} && task.queueName !in backend.queues)
      && (r == Failure(QueueNotProvisioned) <==> task.queueName in backend.queues && task.queueName !in store.provisioned)
      && (r == Failure(QueueNotDeclared) <==> backend.queues == {} && task.queueName !in store.provisioned)
  {
  }

  /** A spawn, with the database it is made in. */
  datatype Write = Write(database: string, request: SpawnRequest)

  /** The write `task.enqueue` asks for: on the backend its alias names, and none at all when that is
      not an Absurd backend or does not take the queue. */
  function EnqueueWrite(backends: Backends, task: Task, args: seq<Json>, kwargs: map<string, Json>): Option<Write> {
    if task.backend !in backends || !Takes(backends[task.backend], task.queueName) then None
    else Some(Write(backends[task.backend].database, PlanSpawn(backends[task.backend], task, args, kwargs)))
  }

  /*******************************************************************************
   *  The wrapper's own enqueue
   *******************************************************************************/

  /** `enqueue_deferred_target` up to its enqueue: the imported task, put back on the caller's
      queue and given the caller's options. */
  function WakeTask(definition: Task, spec: Params): Task
    requires spec.Deferral?
  {
    var routed := if definition.queueName != spec.queue
                  then ApplyRebuild(definition, Using(Set(spec.queue), Unset, Unset)) else definition;
    if spec.options == EMPTY then routed else ApplyRebuild(routed, Bind(spec.options))
  }

  /** The write a due wrapper makes: the woken task keeps the alias of its importable definition. */
  function WakeWrite(backends: Backends, definition: Task, spec: Params): Option<Write>
    requires spec.Deferral?
  {
    EnqueueWrite(backends, WakeTask(definition, spec), spec.args, spec.kwargs)
  }

  /** A task object as source code can build one: a declaration rebuilt any number of times. */
  ghost predicate Built(task: Task) {
    exists queue, backend, absurd, ops :: BuiltBy(task, queue, backend, absurd, ops)
  }

  ghost predicate BuiltBy(task: Task, queue: string, backend: string, absurd: bool, ops: seq<Rebuild>) {
    task == ApplyAll(Declare(task.func, queue, backend, absurd), ops)
  }

  lemma BuiltFoldsDefaults(task: Task)
    requires Built(task)
    ensures task.absurd ==> Update(LayerOf(task.func.defaults), LayerOf(task.params)) == LayerOf(task.params)
  {
    var queue, backend, absurd, ops :| BuiltBy(task, queue, backend, absurd, ops);
    RebuildsKeepOptions(task.func, queue, backend, absurd, ops, 0);
    BoundLayersAbsorbDefaults(task.func.defaults, ops);
  }

  /** The definition's own alias reaches the store the task was enqueued in, and takes its queue. */
  predicate SameStore(backends: Backends, definition: Task, task: Task) {
    && definition.backend in backends && task.backend in backends
    && backends[definition.backend].database == backends[task.backend].database
    && Takes(backends[definition.backend], task.queueName)
  }

  /** Deferral preserves meaning, exactly. The write a due wrapper makes is the write an immediate
      enqueue of the same task makes, if and only if the importable definition's alias reaches the same
      store, the definition is not itself deferred, and every option bound on it is one the enqueued task
      carries too. */
  lemma DeferralPreservesMeaning(
      backends: Backends, task: Task, definition: Task, args: seq<Json>, kwargs: map<string, Json>)
    requires Built(task) && Built(definition) && definition.func == task.func
    requires task.runAfter.Some? && EnqueueWrite(backends, task, args, kwargs).Some?
    ensures var wrapper := EnqueueWrite(backends, task, args, kwargs).value.request;
      && wrapper.params.Deferral?
      && RemoveSuffix(wrapper.name, DEFER_NAME_SUFFIX) == task.func.modulePath
      && (WakeWrite(backends, definition, wrapper.params)
          == EnqueueWrite(backends, task.(runAfter := None), args, kwargs)
          <==>
          && SameStore(backends, definition, task)
          && definition.runAfter.None?
          && (definition.absurd ==>
                Covers(EffectiveOptions(task, backends[task.backend].defaultMaxAttempts), LayerOf(definition.params))))
  {
    SuffixRoundTrip(task.func.modulePath, DEFER_NAME_SUFFIX);
    var merged := EffectiveOptions(task, backends[task.backend].defaultMaxAttempts);
    var wrapper := EnqueueWrite(backends, task, args, kwargs).value.request;
    WokenOptions(task, definition, wrapper.params, backends[task.backend].defaultMaxAttempts);
    var carried := if definition.absurd then LayerOf(definition.params) else EMPTY;
    MergeLaws(carried, merged, EMPTY);
  }

  /** The options a woken task enqueues with: the definition's own, overlaid by those the wrapper kept. */
  lemma WokenOptions(task: Task, definition: Task, spec: Params, attempts: int)
    requires Built(task) && Built(definition) && definition.func == task.func
    requires spec.Deferral? && spec.options == EffectiveOptions(task, attempts)
    ensures var woken := WakeTask(definition, spec);
      && woken.absurd && woken.func == task.func
      && woken.queueName == spec.queue && woken.backend == definition.backend && woken.runAfter == definition.runAfter
      && forall others ::
           EffectiveOptions(woken, others)
           == Update(if definition.absurd then LayerOf(definition.params) else EMPTY, spec.options)
  {
    BuiltFoldsDefaults(task);
    BuiltFoldsDefaults(definition);
    var defaults, merged := LayerOf(task.func.defaults), spec.options;
    MergeLaws(defaults, merged, EMPTY);
    assert Update(defaults, merged) == merged;
    var carried := if definition.absurd then LayerOf(definition.params) else EMPTY;
    MergeLaws(defaults, carried, merged);
    assert LayerOf(WakeTask(definition, spec).params) == Update(carried, merged);
    assert Update(carried, merged).maxAttempts.Set?;
  }

  /** For a task derived from the importable definition no condition on options remains: it keeps its
      meaning exactly when it still reaches the definition's store. */
  lemma DerivedTasksKeepTheirMeaning(
      backends: Backends, definition: Task, ops: seq<Rebuild>, args: seq<Json>, kwargs: map<string, Json>)
    requires Built(definition) && definition.runAfter.None?
    requires ApplyAll(definition, ops).runAfter.Some?
    requires EnqueueWrite(backends, ApplyAll(definition, ops), args, kwargs).Some?
    ensures var task := ApplyAll(definition, ops);
      WakeWrite(backends, definition, EnqueueWrite(backends, task, args, kwargs).value.request.params)
      == EnqueueWrite(backends, task.(runAfter := None), args, kwargs)
      <==> SameStore(backends, definition, task)
  {
    RebuildsExtend(definition, ops);
    DeferralPreservesMeaning(backends, ApplyAll(definition, ops), definition, args, kwargs);
  }

  const ON_A := AbsurdBackend("a", "db-a", {"q"}, 5)
  const ON_B := AbsurdBackend("b", "db-b", {"q"}, 5)

  /** A task declared on another alias and enqueued as `.using(backend="b", run_after=...)` is deferred in
      one database and, once due, enqueued in the other, or in none if that alias is not Absurd's. */
  lemma ReroutedDeferralGoesElsewhere(func: Func, args: seq<Json>, kwargs: map<string, Json>)
    ensures var definition := Declare(func, "q", "a", false);
      var task := ApplyRebuild(definition, Using(Unset, Set("b"), Set(Some(0))));
      var both, one := map["a" := ON_A, "b" := ON_B], map["b" := ON_B];
      && EnqueueWrite(both, task, args, kwargs).Some? && EnqueueWrite(one, task, args, kwargs).Some?
      && var spec := EnqueueWrite(both, task, args, kwargs).value.request.params;
        && spec.Deferral?
        && EnqueueWrite(both, task.(runAfter := None), args, kwargs).Some?
        && EnqueueWrite(both, task.(runAfter := None), args, kwargs).value.database == "db-b"
        && WakeWrite(both, definition, spec).Some? && WakeWrite(both, definition, spec).value.database == "db-a"
        && WakeWrite(one, definition, spec).None?
  {
  }

  /** A definition that binds an option the enqueued task lacks gives it to the woken task. */
  lemma BoundDefinitionLeaksItsOptions(path: string, args: seq<Json>, kwargs: map<string, Json>)
    ensures var plain := Declare(Func(path, None), "q", "a", true);
      var definition := ApplyRebuild(plain, Bind(EMPTY.(headers := Set(Some(map["tenant" := "7"])))));
      var task := ApplyRebuild(plain, Using(Unset, Unset, Set(Some(0))));
      var backends := map["a" := ON_A];
      && EnqueueWrite(backends, task, args, kwargs).Some?
      && var spec := EnqueueWrite(backends, task, args, kwargs).value.request.params;
        && spec.Deferral?
        && WakeWrite(backends, definition, spec).Some? && WakeWrite(backends, definition, spec).value.request.options.headers.Set?
        && EnqueueWrite(backends, task.(runAfter := None), args, kwargs).Some?
        && EnqueueWrite(backends, task.(runAfter := None), args, kwargs).value.request.options.headers.Unset?
  {
  }

  lemma RebuildKeepsOptions(task: Task, op: Rebuild)
    requires Built(task) && task.absurd
    ensures ApplyRebuild(task, op).absurd
    ensures Covers(LayerOf(ApplyRebuild(task, op).params), LayerOf(task.params))
  {
    BuiltFoldsDefaults(task);
  }

  lemma {:induction false} RebuildsExtend(definition: Task, ops: seq<Rebuild>)
    requires Built(definition)
    ensures var task := ApplyAll(definition, ops);
      && Built(task) && task.func == definition.func
      && (definition.absurd ==> task.absurd && Covers(LayerOf(task.params), LayerOf(definition.params)))
  {
    StillBuilt(definition, ops);
    if ops != [] && definition.absurd {
      var front, last := ops[..|ops| - 1], ops[|ops| - 1];
      RebuildsExtend(definition, front);
      RebuildKeepsOptions(ApplyAll(definition, front), last);
    }
  }

  lemma StillBuilt(definition: Task, ops: seq<Rebuild>)
    requires Built(definition)
    ensures Built(ApplyAll(definition, ops)) && ApplyAll(definition, ops).func == definition.func
  {
    var queue, backend, absurd, first :| BuiltBy(definition, queue, backend, absurd, first);
    ApplyAllAppends(Declare(definition.func, queue, backend, absurd), first, ops);
    RebuildsKeepOptions(definition.func, queue, backend, absurd, first + ops, 0);
    assert BuiltBy(ApplyAll(definition, ops), queue, backend, absurd, first + ops);
  }

  lemma {:induction false} ApplyAllAppends(task: Task, first: seq<Rebuild>, second: seq<Rebuild>)
    ensures ApplyAll(task, first + second) == ApplyAll(ApplyAll(task, first), second)
  {
    if second == [] {
      assert first + second == first;
    } else {
      var front := second[..|second| - 1];
      ApplyAllAppends(task, first, front);
      assert (first + second)[..|first + second| - 1] == first + front;
    }
  }

  /** The key an importable definition brings by itself. */
  function CarriedKey(definition: Task): Slot<string> {
    Over(LayerOf(definition.func.defaults).idempotencyKey,
         if definition.absurd then LayerOf(definition.params).idempotencyKey else Unset)
  }

  /** The wrapper's enqueue passes the caller's key on unchanged, or the definition's when the caller gave
      none, and meets its own wrapper's key if and only if the definition is itself deferred. */
  lemma WrapperKeyDiffers(attempts: int, others: int, task: Task, definition: Task, spec: Params)
    requires task.runAfter.Some? && spec.Deferral? && spec.options == EffectiveOptions(task, attempts)
    ensures var asked := spec.options.idempotencyKey;
      var wrapper, woken := SpawnOptionsOf(task, attempts), SpawnOptionsOf(WakeTask(definition, spec), others);
      && (wrapper.idempotencyKey.Set? <==> asked.Set?)
      && (definition.runAfter.None? ==> woken.idempotencyKey == Over(CarriedKey(definition), asked))
      && (wrapper.idempotencyKey.Set? ==>
            (woken.idempotencyKey == wrapper.idempotencyKey <==> definition.runAfter.Some?))
  {
    var key := spec.options.idempotencyKey;
    if key.Set? {
      assert |key.value + DEFER_NAME_SUFFIX| == |key.value| + 10;
    }
  }

  /*******************************************************************************
   *  The same operations on live databases
   *******************************************************************************/

  /** How an enqueue ends; a task whose alias is not an Absurd backend's is handed to that backend. */
  datatype EnqueueOutcome = Queued(id: string) | Refused(error: EnqueueError) | HandedElsewhere

  class Project {
    const backends: Backends
    var stores: map<string, Store>
    var clock: int

    constructor (backends: Backends, stores: map<string, Store>)
      requires forall alias | alias in backends :: backends[alias].database in stores
      ensures this.backends == backends && this.stores == stores && Valid()
    {
      this.backends, this.stores := backends, stores;
      clock := 0;
    }

    ghost predicate Valid()
      reads this
    {
      forall alias | alias in backends :: backends[alias].database in stores
    }

    /** What enqueueing a task does to the stores: at most one row, in the store its alias reaches. */
    ghost predicate EnqueueSpec(before: map<string, Store>, r: EnqueueOutcome,
                                task: Task, args: seq<Json>, kwargs: map<string, Json>, freshId: string)
      requires forall alias | alias in backends :: backends[alias].database in before
      reads this
    {
      if task.backend !in backends then r == HandedElsewhere && stores == before
      else
        var backend := backends[task.backend];
        match Enqueue(backend, before[backend.database], task, args, kwargs, freshId, clock)
        case Failure(error) => r == Refused(error) && stores == before
        case Success((after, id)) => r == Queued(id) && stores == before[backend.database := after]
    }

    /** `task.enqueue`, dispatching on the task's alias. */
    method EnqueueTask(task: Task, args: seq<Json>, kwargs: map<string, Json>, freshId: string) returns (r: EnqueueOutcome)
      requires Valid()
      modifies this`stores
      ensures Valid() && EnqueueSpec(old(stores), r, task, args, kwargs, freshId)
    {
      if task.backend !in backends {
        return HandedElsewhere;
      }
      r := EnqueueOn(backends[task.backend], task, args, kwargs, freshId);
    }

    /** `AbsurdBackend.enqueue`: plans the options in place, then writes one row or none. */
    method EnqueueOn(backend: AbsurdBackend, task: Task, args: seq<Json>, kwargs: map<string, Json>, freshId: string)
      returns (r: EnqueueOutcome)
      requires backend.database in stores
      modifies this`stores
      ensures match Enqueue(backend, old(stores)[backend.database], task, args, kwargs, freshId, clock)
        case Failure(error) => r == Refused(error) && stores == old(stores)
        case Success((after, id)) => r == Queued(id) && stores == old(stores)[backend.database := after]
      ensures r == Refused(InvalidTask) <==> backend.queues != {} && task.queueName !in backend.queues
      ensures r == Refused(QueueNotProvisioned) <==>
                task.queueName in backend.queues && task.queueName !in old(stores)[backend.database].provisioned
      ensures r == Refused(QueueNotDeclared) <==>
                backend.queues == {} && task.queueName !in old(stores)[backend.database].provisioned
    {
      if backend.queues != {} && task.queueName !in backend.queues {
        return Refused(InvalidTask);
      }
      var merged := BuildMergedSpawnOptions(if task.absurd then task.params else task.func.defaults, None);
      if merged.maxAttempts.Unset? {
        merged := merged.(maxAttempts := Set(Some(backend.defaultMaxAttempts)));
      }
      var name, params;
      if task.runAfter.Some? {
        name := task.func.modulePath + DEFER_NAME_SUFFIX;
        params := Deferral(args, kwargs, task.queueName, merged, task.runAfter.value);
        var wrapperOptions := EMPTY.(maxAttempts := Set(Some(backend.defaultMaxAttempts)));
        if merged.idempotencyKey.Set? {
          wrapperOptions := wrapperOptions.(idempotencyKey := Set(merged.idempotencyKey.value + DEFER_NAME_SUFFIX));
        }
        merged := wrapperOptions;
      } else {
        name := task.func.modulePath;
        params := Call(args, kwargs);
      }
      var store := stores[backend.database];
      if task.queueName !in store.provisioned {
        return Refused(if task.queueName !in backend.queues then QueueNotDeclared else QueueNotProvisioned);
      }
      var (after, id) := Spawn(store, SpawnRequest(task.queueName, name, params, merged), freshId, clock);
      stores := stores[backend.database := after];
      r := Queued(ResultId(task.queueName, id));
    }

    /** `enqueue_deferred_target`: rebind the imported task step by step, then enqueue it wherever its own
        alias says. */
    method EnqueueDeferredTarget(definition: Task, spec: Params, freshId: string) returns (r: EnqueueOutcome)
      requires Valid() && spec.Deferral?
      modifies this`stores
      ensures Valid() && EnqueueSpec(old(stores), r, WakeTask(definition, spec), spec.args, spec.kwargs, freshId)
    {
      var target := definition;
      if target.queueName != spec.queue {
        target := ApplyRebuild(target, Using(Set(spec.queue), Unset, Unset));
      }
      if spec.options != EMPTY {
        target := ApplyRebuild(target, Bind(spec.options));
      }
      r := EnqueueTask(target, spec.args, spec.kwargs, freshId);
    }
  }
}
