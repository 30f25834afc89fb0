/** Spawn options and the tasks that carry them: the layer merge, the two forms of
    `absurd_params`, and a task object rebuilt by any chain of `using` and `bind`. */
module SpawnOptions {
  import opened Wrappers

  /** A dictionary entry that may be missing. `Set(None)` is a stored null, not a missing key. */
  datatype Slot<+T> = Unset | Set(value: T)

  datatype RetryStrategy = RetryStrategy(
    kind: Slot<Option<string>>,
    baseSeconds: Slot<Option<real>>,
    factor: Slot<Option<real>>,
    maxSeconds: Slot<Option<real>>)

  datatype CancellationPolicy = CancellationPolicy(
    maxDuration: Slot<Option<int>>,
    maxDelay: Slot<Option<int>>)

  type Headers = map<string, string>

  datatype SpawnKwargs = SpawnKwargs(
    maxAttempts: Slot<Option<int>>,
    retryStrategy: Slot<Option<RetryStrategy>>,
    cancellation: Slot<Option<CancellationPolicy>>,
    headers: Slot<Option<Headers>>,
    idempotencyKey: Slot<string>)

  const EMPTY := SpawnKwargs(Unset, Unset, Unset, Unset, Unset)

  /*******************************************************************************
   *  Merging layers
   *******************************************************************************/

  function Over<T>(lower: Slot<T>, upper: Slot<T>): Slot<T> {
    if upper.Set? then upper else lower
  }

  /** `dict.update`: every key the upper layer holds wins. */
  function Update(lower: SpawnKwargs, upper: SpawnKwargs): SpawnKwargs {
    SpawnKwargs(
      Over(lower.maxAttempts, upper.maxAttempts),
      Over(lower.retryStrategy, upper.retryStrategy),
      Over(lower.cancellation, upper.cancellation),
      Over(lower.headers, upper.headers),
      Over(lower.idempotencyKey, upper.idempotencyKey))
  }

  function LayerOf(layer: Option<SpawnKwargs>): SpawnKwargs {
    if layer.Some? then layer.value else EMPTY
  }

  function Merge(defaults: Option<SpawnKwargs>, perCall: Option<SpawnKwargs>): SpawnKwargs {
    Update(LayerOf(defaults), LayerOf(perCall))
  }

  method BuildMergedSpawnOptions(defaults: Option<SpawnKwargs>, perCall: Option<SpawnKwargs>)
    returns (merged: SpawnKwargs)
    ensures merged == Merge(defaults, perCall)
  {
    merged := EMPTY;
    var layers := [defaults, perCall];
    for i := 0 to |layers|
      invariant i == 0 ==> merged == EMPTY
      invariant i == 1 ==> merged == LayerOf(defaults)
      invariant i == 2 ==> merged == Merge(defaults, perCall)
    {
      if layers[i].Some? {
        merged := Update(merged, layers[i].value);
      }
    }
  }

  /** Every key of `lower` is also a key of `upper`. */
  predicate Covers(upper: SpawnKwargs, lower: SpawnKwargs) {
    && (lower.maxAttempts.Set? ==> upper.maxAttempts.Set?)
    && (lower.retryStrategy.Set? ==> upper.retryStrategy.Set?)
    && (lower.cancellation.Set? ==> upper.cancellation.Set?)
    && (lower.headers.Set? ==> upper.headers.Set?)
    && (lower.idempotencyKey.Set? ==> upper.idempotencyKey.Set?)
  }

  /** Merging is associative, absorbs a repeated lower layer, and a lower layer vanishes
      exactly when the upper one covers its keys. */
  lemma MergeLaws(a: SpawnKwargs, b: SpawnKwargs, c: SpawnKwargs)
    ensures Update(Update(a, b), c) == Update(a, Update(b, c))
    ensures Update(a, Update(a, b)) == Update(a, b)
    ensures Update(a, b) == b <==> Covers(b, a)
    ensures Update(EMPTY, a) == a == Update(a, EMPTY)
  {
  }

  /*******************************************************************************
   *  The two forms of absurd_params
   *******************************************************************************/

  /** The wrapped callable; decorating it stores default options on it. */
  datatype Func = Func(modulePath: string, defaults: Option<SpawnKwargs>)

  datatype ParamsError = PerInvocationFieldOnDefinition

  predicate HasPerInvocationField(kwargs: SpawnKwargs) {
    kwargs.headers.Set? || kwargs.idempotencyKey.Set?
  }

  /** `@absurd_params(...)` on a function definition. */
  function Decorate(func: Func, kwargs: SpawnKwargs): Result<Func, ParamsError> {
    if HasPerInvocationField(kwargs) then Failure(PerInvocationFieldOnDefinition)
    else Success(func.(defaults := Some(Merge(func.defaults, Some(kwargs)))))
  }

  function DecorateAll(func: Func, layers: seq<SpawnKwargs>): Result<Func, ParamsError> {
    if layers == [] then Success(func)
    else
      match DecorateAll(func, layers[..|layers| - 1])
      case Failure(e) => Failure(e)
      case Success(inner) => Decorate(inner, layers[|layers| - 1])
  }

  /** A stack of decorators is accepted exactly when no layer names a per-invocation field,
      and then no default on the function ever holds an idempotency key or headers. */
  lemma {:induction false} DecoratorsNeverHoldAKey(path: string, layers: seq<SpawnKwargs>)
    ensures var r := DecorateAll(Func(path, None), layers);
      && (r.Success? <==> forall layer | layer in layers :: layer.headers.Unset? && layer.idempotencyKey.Unset?)
      && (r.Success? ==>
            && r.value.modulePath == path
            && LayerOf(r.value.defaults).headers.Unset? && LayerOf(r.value.defaults).idempotencyKey.Unset?)
  {
    if layers != [] {
      DecoratorsNeverHoldAKey(path, layers[..|layers| - 1]);
      assert layers == layers[..|layers| - 1] + [layers[|layers| - 1]];
    }
  }

  /*******************************************************************************
   *  Task objects
   *******************************************************************************/

  /** A Django task. `absurd` tells an `AbsurdTask` from a plain `Task`, which keeps no params. */
  datatype Task = Task(
    func: Func,
    queueName: string,
    backend: string,
    runAfter: Option<int>,
    absurd: bool,
    params: Option<SpawnKwargs>)

  function PostInit(task: Task): Task {
    if task.absurd && (task.func.defaults.Some? || task.params.Some?)
    then task.(params := Some(Merge(task.func.defaults, task.params)))
    else task
  }

  datatype Rebuild =
    | Using(queueName: Slot<string>, backend: Slot<string>, runAfter: Slot<Option<int>>)
    | Bind(kwargs: SpawnKwargs)

  function Choose<T>(slot: Slot<T>, otherwise: T): T {
    if slot.Set? then slot.value else otherwise
  }

  /** One immutable rebuild; each re-runs `__post_init__`, which folds the defaults in again. */
  function ApplyRebuild(task: Task, op: Rebuild): Task {
    match op
    case Using(queueName, backend, runAfter) =>
      PostInit(task.(queueName := Choose(queueName, task.queueName),
                     backend := Choose(backend, task.backend),
                     runAfter := Choose(runAfter, task.runAfter)))
    case Bind(kwargs) =>
      PostInit(task.(absurd := true,
                     params := Some(Merge(if task.absurd then task.params else None, Some(kwargs)))))
  }

  function ApplyAll(task: Task, ops: seq<Rebuild>): Task {
    if ops == [] then task else ApplyRebuild(ApplyAll(task, ops[..|ops| - 1]), ops[|ops| - 1])
  }

  /** What `@task` builds: a task holding no params of its own yet. */
  function Declare(func: Func, queueName: string, backend: string, absurd: bool): Task {
    PostInit(Task(func, queueName, backend, None, absurd, None))
  }

  /** The options an enqueue reads off a task, before any spawn. */
  function EffectiveOptions(task: Task, defaultMaxAttempts: int): SpawnKwargs {
    var params := if task.absurd then task.params else task.func.defaults;
    WithDefaultAttempts(Merge(params, None), defaultMaxAttempts)
  }

  function WithDefaultAttempts(options: SpawnKwargs, defaultMaxAttempts: int): SpawnKwargs {
    if options.maxAttempts.Set? then options
    else options.(maxAttempts := Set(Some(defaultMaxAttempts)))
  }

  /** The reference meaning of a chain: decorator defaults, then each bound layer once, in order. */
  function BoundLayers(defaults: Option<SpawnKwargs>, ops: seq<Rebuild>): SpawnKwargs {
    if ops == [] then LayerOf(defaults)
    else
      var before := BoundLayers(defaults, ops[..|ops| - 1]);
      match ops[|ops| - 1]
      case Using(_, _, _) => before
      case Bind(kwargs) => Update(before, kwargs)
  }

  lemma {:induction false} BoundLayersAbsorbDefaults(defaults: Option<SpawnKwargs>, ops: seq<Rebuild>)
    ensures Update(LayerOf(defaults), BoundLayers(defaults, ops)) == BoundLayers(defaults, ops)
  {
    if ops != [] {
      BoundLayersAbsorbDefaults(defaults, ops[..|ops| - 1]);
    }
  }

  /** However a task is rebuilt, the re-folds in `__post_init__` change nothing: its options are
      the defaults overlaid by each bound layer once. It does not matter either whether the task
      started as a plain one on some other backend. */
  lemma {:induction false} RebuildsKeepOptions(
      func: Func, queueName: string, backend: string, absurd: bool, ops: seq<Rebuild>, defaultMaxAttempts: int)
    ensures var task := ApplyAll(Declare(func, queueName, backend, absurd), ops);
      && task.func == func
      && EffectiveOptions(task, defaultMaxAttempts)
         == WithDefaultAttempts(BoundLayers(func.defaults, ops), defaultMaxAttempts)
      && (task.absurd ==> LayerOf(task.params) == BoundLayers(func.defaults, ops))
      && (!task.absurd ==> BoundLayers(func.defaults, ops) == LayerOf(func.defaults))
  {
    if ops != [] {
      RebuildsKeepOptions(func, queueName, backend, absurd, ops[..|ops| - 1], defaultMaxAttempts);
      BoundLayersAbsorbDefaults(func.defaults, ops[..|ops| - 1]);
      BoundLayersAbsorbDefaults(func.defaults, ops);
    }
  }

  /** The attempts an enqueue asks for are the task's own, a stored null included, and only a task that names
      none gets the backend's; every other option is the task's own. */
  lemma AttemptsAreTheTasksOwn(task: Task, defaultMaxAttempts: int)
    ensures var own := LayerOf(if task.absurd then task.params else task.func.defaults);
      var asked := EffectiveOptions(task, defaultMaxAttempts);
      && asked.maxAttempts == (if own.maxAttempts.Set? then own.maxAttempts else Set(Some(defaultMaxAttempts)))
      && asked == own.(maxAttempts := asked.maxAttempts)
  {
  }

  function NamedQueue(op: Rebuild): Slot<string> {
    if op.Using? then op.queueName else Unset
  }

  function NamedBackend(op: Rebuild): Slot<string> {
    if op.Using? then op.backend else Unset
  }

  function NamedRunAfter(op: Rebuild): Slot<Option<int>> {
    if op.Using? then op.runAfter else Unset
  }

  /** The last value a chain of rebuilds names for one of a task's fields. */
  function LastNamed<T>(ops: seq<Rebuild>, named: Rebuild -> Slot<T>, start: T): T {
    if ops == [] then start
    else Choose(named(ops[|ops| - 1]), LastNamed(ops[..|ops| - 1], named, start))
  }

  /** However a task is rebuilt, its queue, backend and due time are the last ones named by a `using`, or those
      it was declared with; binding options never reroutes. */
  lemma {:induction false} RebuildsRoute(func: Func, queueName: string, backend: string, absurd: bool, ops: seq<Rebuild>)
    ensures var task := ApplyAll(Declare(func, queueName, backend, absurd), ops);
      && task.queueName == LastNamed(ops, NamedQueue, queueName)
      && task.backend == LastNamed(ops, NamedBackend, backend)
      && task.runAfter == LastNamed(ops, NamedRunAfter, None)
      && (task.absurd <==> absurd || exists op | op in ops :: op.Bind?)
  {
    if ops != [] {
      var front, last := ops[..|ops| - 1], ops[|ops| - 1];
      RebuildsRoute(func, queueName, backend, absurd, front);
      assert ops == front + [last];
    }
  }

  function Binds(layers: seq<SpawnKwargs>): (r: seq<Rebuild>)
    ensures |r| == |layers| && forall i | 0 <= i < |layers| :: r[i] == Bind(layers[i])
  {
    seq(|layers|, (i: nat) requires i < |layers| => Bind(layers[i]))
  }

  /** The two forms agree: stacking decorators, innermost first, gives the defaults that binding the
      same layers in that order would, so an outer decorator wins over an inner one. */
  lemma {:induction false} DecoratingIsBinding(path: string, layers: seq<SpawnKwargs>)
    requires DecorateAll(Func(path, None), layers).Success?
    ensures LayerOf(DecorateAll(Func(path, None), layers).value.defaults) == BoundLayers(None, Binds(layers))
  {
    if layers != [] {
      var front := layers[..|layers| - 1];
      DecoratingIsBinding(path, front);
      assert Binds(layers)[..|layers| - 1] == Binds(front);
    }
  }
}
