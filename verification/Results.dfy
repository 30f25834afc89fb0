/** Reading results: ids, states, and the chain from a deferred wrapper to the caller's task. */
module Results {
  import opened Wrappers
  import opened SpawnOptions
  import opened Text
  import opened Backend
  import opened DeferredRuns

  /*******************************************************************************
   *  Ids
   *******************************************************************************/

  function DecodeResultId(resultId: string): Option<TaskKey> {
    match RSplit(resultId, ':')
    case None => None
    case Some((queue, id)) => Some(TaskKey(queue, id))
  }

  /** A textual UUID holds no colon (section 4 of RFC 9562), so decoding inverts encoding for
      any queue name, and only colon-free text is refused. */
  lemma ResultIdRoundTrip(queue: string, id: string, text: string)
    ensures ':' !in id ==> DecodeResultId(ResultId(queue, id)) == Some(TaskKey(queue, id))
    ensures DecodeResultId(text).None? <==> ':' !in text
    ensures DecodeResultId(text).Some? ==>
              ResultId(DecodeResultId(text).value.queue, DecodeResultId(text).value.id) == text
  {
    if ':' !in id {
      RSplitUnique(queue, id, ':');
    }
  }

  /*******************************************************************************
   *  get_result
   *******************************************************************************/

  datatype Status = READY | RUNNING | SUCCESSFUL | FAILED

  function MapStateToStatus(state: TaskState): Status {
    match state
    case Pending => READY
    case Running => RUNNING
    case Sleeping => RUNNING
    case Completed => SUCCESSFUL
    case Failed => FAILED
    case Cancelled => FAILED
  }

  datatype TaskResult = TaskResult(
    id: string,
    path: string,
    args: seq<Json>,
    kwargs: map<string, Json>,
    status: Status,
    startedAt: Option<int>,
    errors: seq<string>,
    returnValue: Option<Json>)

  datatype ReadError = TaskResultDoesNotExist | NoLongerImportable

  function BuildTaskResult(world: World, resultId: string, row: Spawned, life: Life): Result<TaskResult, ReadError> {
    var path := if IsWrapper(row) then Target(row) else row.name;
    if path !in world.registry then Failure(NoLongerImportable)
    else
      Success(TaskResult(
        resultId, path, row.params.args, row.params.kwargs,
        if IsWrapper(row) && life.state.Sleeping? then READY else MapStateToStatus(life.state),
        if IsWrapper(row) then None else life.firstStartedAt,
        if life.state.Failed? && life.failure.Some? then [life.failure.value] else [],
        if life.state.Completed? then Some(life.payload) else None))
  }

  /** A completed wrapper is read through: its payload is the id of the task it enqueued. */
  predicate ReadThrough(store: Store, key: TaskKey) {
    key in store.spawned && key in store.life && IsWrapper(store.spawned[key]) && store.life[key].state.Completed?
  }

  /** How far a row can still be from the end of its chain. Keys strip one suffix a hop, so a keyed
      wrapper's distance is the length of its key; an unkeyed wrapper is one hop from a row under its
      definition's own key, if that has one. */
  function Distance(world: World, row: Spawned): nat {
    if !IsWrapper(row) then 0
    else if row.options.idempotencyKey.Set? then |row.options.idempotencyKey.value|
    else 1 + if Target(row) in world.registry then KeyLength(CarriedKey(world.registry[Target(row)])) else 0
  }

  function KeyLength(key: Slot<string>): nat {
    if key.Set? then |key.value| else 0
  }

  ghost predicate StepsDown(world: World, store: Store, key: TaskKey)
    requires ReadThrough(store, key)
  {
    var payload := store.life[key].payload;
    && payload.JString?
    && var next := DecodeResultId(payload.text);
      next.Some? && next.value in store.spawned
      && next.value.queue == key.queue
      && Distance(world, store.spawned[next.value]) < Distance(world, store.spawned[key])
  }

  ghost predicate ChainsEnd(world: World, store: Store) {
    && store.life.Keys == store.spawned.Keys
    && forall key | ReadThrough(store, key) :: StepsDown(world, store, key)
  }

  function IdDistance(world: World, store: Store, resultId: string): nat {
    var key := DecodeResultId(resultId);
    if key.Some? && key.value in store.spawned then Distance(world, store.spawned[key.value]) else 0
  }

  function GetResult(world: World, store: Store, resultId: string): Result<TaskResult, ReadError>
    requires ChainsEnd(world, store)
    decreases IdDistance(world, store, resultId)
  {
    match DecodeResultId(resultId)
    case None => Failure(TaskResultDoesNotExist)
    case Some(key) =>
      if key.queue !in world.backend.queues || key !in store.spawned then Failure(TaskResultDoesNotExist)
      else if ReadThrough(store, key) then
        assert StepsDown(world, store, key);
        GetResult(world, store, store.life[key].payload.text)
      else BuildTaskResult(world, resultId, store.spawned[key], store.life[key])
  }

  /** The row at the end of the chain from `key`. */
  function ChainEnd(world: World, store: Store, key: TaskKey): (end: TaskKey)
    requires ChainsEnd(world, store) && key in store.spawned
    ensures end in store.spawned && end.queue == key.queue && !ReadThrough(store, end)
    decreases Distance(world, store.spawned[key])
  {
    if ReadThrough(store, key) then
      assert StepsDown(world, store, key);
      ChainEnd(world, store, DecodeResultId(store.life[key].payload.text).value)
    else key
  }

  /*******************************************************************************
   *  The chain always ends, though not for the obvious reason
   *******************************************************************************/

  lemma TargetIsNearer(world: World, s: System, wrapper: TaskKey, resultId: string, target: TaskKey)
    requires Sound(world) && Inv(world, s) && TargetOk(world, s.store.spawned, wrapper, resultId, target)
    ensures Distance(world, s.store.spawned[target]) < Distance(world, s.store.spawned[wrapper])
    ensures DecodeResultId(resultId) == Some(target)
  {
    ResultIdRoundTrip(target.queue, target.id, resultId);
    var w, row := s.store.spawned[wrapper], s.store.spawned[target];
    assert RowOk(wrapper, w) && RowOk(target, row);
    assert |DEFER_NAME_SUFFIX| == 10;
    if row.options.idempotencyKey.Unset? {
      assert ':' !in row.name;
      if IsWrapper(row) {
        SuffixHoldsColon(row.name);
      }
    }
  }

  /** In every reachable state the recursion of `get_result` terminates. */
  lemma ReachableChainsEnd(world: World, provisioned: set<string>, events: seq<Event>)
    requires Sound(world)
    ensures ChainsEnd(world, Run(world, Initial(provisioned), events).store)
  {
    var s := Run(world, Initial(provisioned), events);
    ReachableKeepsInv(world, provisioned, events);
    InvChainsEnd(world, s);
  }

  lemma InvChainsEnd(world: World, s: System)
    requires Sound(world) && Inv(world, s)
    ensures ChainsEnd(world, s.store)
  {
    forall key | ReadThrough(s.store, key)
      ensures StepsDown(world, s.store, key)
    {
      assert Enqueued(world, s.store.spawned, key, s.checkpoints[key]);
      var target :| TargetOk(world, s.store.spawned, key, s.checkpoints[key], target);
      TargetIsNearer(world, s, key, s.checkpoints[key], target);
    }
  }

  /** A completed wrapper's payload is the id its enqueue brought back, one hop nearer the end. */
  lemma CompletedTarget(world: World, s: System, wrapper: TaskKey) returns (target: TaskKey)
    requires Sound(world) && Inv(world, s) && ReadThrough(s.store, wrapper)
    ensures ChainsEnd(world, s.store) && s.store.life[wrapper].payload.JString?
    ensures TargetOk(world, s.store.spawned, wrapper, s.store.life[wrapper].payload.text, target)
    ensures DecodeResultId(s.store.life[wrapper].payload.text) == Some(target)
    ensures Distance(world, s.store.spawned[target]) < Distance(world, s.store.spawned[wrapper])
    ensures ChainEnd(world, s.store, wrapper) == ChainEnd(world, s.store, target)
  {
    InvChainsEnd(world, s);
    assert Enqueued(world, s.store.spawned, wrapper, s.checkpoints[wrapper]);
    target :| TargetOk(world, s.store.spawned, wrapper, s.checkpoints[wrapper], target);
    TargetIsNearer(world, s, wrapper, s.checkpoints[wrapper], target);
  }

  /** Without a key the chain ends there: at a later row made for the wrapper, holding exactly its call. */
  lemma UnkeyedEnd(world: World, s: System, wrapper: TaskKey)
    requires Sound(world) && Inv(world, s) && ReadThrough(s.store, wrapper)
    requires s.store.spawned[wrapper].params.Deferral? && WokenKey(world, s.store.spawned[wrapper]).Unset?
    ensures ChainsEnd(world, s.store)
    ensures var w, end := s.store.spawned[wrapper], s.store.spawned[ChainEnd(world, s.store, wrapper)];
      && Target(w) in world.registry && ':' !in Target(w)
      && end.name == Target(w) == Target(end) && end.params == Call(w.params.args, w.params.kwargs)
      && w.order < end.order && w.params.due <= end.at
  {
    var target := CompletedTarget(world, s, wrapper);
    var row := s.store.spawned[target];
    assert RowOk(wrapper, s.store.spawned[wrapper]);
    if IsWrapper(row) {
      SuffixHoldsColon(row.name);
    }
    assert !ReadThrough(s.store, target);
  }

  /** The row that already holds the key a wrapper's target will carry. */
  function Holder(world: World, store: Store, wrapper: TaskKey): Option<TaskKey>
    requires wrapper in store.spawned && store.spawned[wrapper].params.Deferral?
  {
    var key := WokenKey(world, store.spawned[wrapper]);
    if key.Set? && (wrapper.queue, key.value) in store.keyed
    then Some(TaskKey(wrapper.queue, store.keyed[(wrapper.queue, key.value)])) else None
  }

  /** With a key the chain goes on at the row that holds the key. */
  lemma KeyedEnd(world: World, s: System, wrapper: TaskKey) returns (holder: TaskKey)
    requires Sound(world) && Inv(world, s) && ReadThrough(s.store, wrapper)
    requires s.store.spawned[wrapper].params.Deferral? && WokenKey(world, s.store.spawned[wrapper]).Set?
    ensures ChainsEnd(world, s.store)
    ensures Holder(world, s.store, wrapper) == Some(holder) && holder in s.store.spawned && ':' !in holder.id
    ensures s.store.life[wrapper].payload == JString(ResultId(holder.queue, holder.id))
    ensures Distance(world, s.store.spawned[holder]) < Distance(world, s.store.spawned[wrapper])
    ensures ChainEnd(world, s.store, wrapper) == ChainEnd(world, s.store, holder)
  {
    holder := CompletedTarget(world, s, wrapper);
    assert KeyHeld(s.store, holder);
  }

  /** Reading a completed wrapper's id is reading its payload. */
  lemma ReadsThePayload(world: World, store: Store, wrapper: TaskKey, next: TaskKey)
    requires ChainsEnd(world, store) && ReadThrough(store, wrapper) && ':' !in wrapper.id && ':' !in next.id
    requires next.queue == wrapper.queue && store.life[wrapper].payload == JString(ResultId(next.queue, next.id))
    ensures GetResult(world, store, ResultId(wrapper.queue, wrapper.id)) == GetResult(world, store, ResultId(next.queue, next.id))
  {
    ResultIdRoundTrip(wrapper.queue, wrapper.id, "");
    ResultIdRoundTrip(next.queue, next.id, "");
  }

  /*******************************************************************************
   *  What a caller reads
   *******************************************************************************/

  /** A result is the status, payload and failure of the row at the end of the chain: SUCCESSFUL
      only with a real task's own value, FAILED exactly when that row failed or was cancelled, READY
      while it waits, and started only if a real task was. */
  lemma {:induction false} ResultIsTheEnds(world: World, store: Store, key: TaskKey)
    requires ChainsEnd(world, store) && key in store.spawned && ':' !in key.id
    ensures var r := GetResult(world, store, ResultId(key.queue, key.id));
      var end := ChainEnd(world, store, key);
      && (r.Success? <==> key.queue in world.backend.queues && Target(store.spawned[end]) in world.registry)
      && (r.Failure? ==> r.error == if key.queue in world.backend.queues then NoLongerImportable else TaskResultDoesNotExist)
      && (r.Success? ==>
        && (r.value.status.SUCCESSFUL? <==> store.life[end].state.Completed?)
        && (r.value.status.SUCCESSFUL? ==>
              !IsWrapper(store.spawned[end]) && r.value.returnValue == Some(store.life[end].payload))
        && (r.value.status.FAILED? <==> store.life[end].state.Failed? || store.life[end].state.Cancelled?)
        && (r.value.status.READY? <==>
              store.life[end].state.Pending? || (IsWrapper(store.spawned[end]) && store.life[end].state.Sleeping?))
        && r.value.args == store.spawned[end].params.args && r.value.kwargs == store.spawned[end].params.kwargs
        && r.value.path == Target(store.spawned[end])
        && r.value.id == ResultId(end.queue, end.id)
        && r.value.startedAt == (if IsWrapper(store.spawned[end]) then None else store.life[end].firstStartedAt)
        && (r.value.returnValue.Some? <==> store.life[end].state.Completed?)
        && (r.value.errors != [] <==> store.life[end].state.Failed? && store.life[end].failure.Some?)
        && (r.value.errors != [] ==> r.value.errors == [store.life[end].failure.value]))
    decreases Distance(world, store.spawned[key])
  {
    ResultIdRoundTrip(key.queue, key.id, "");
    if ReadThrough(store, key) {
      assert StepsDown(world, store, key);
      var text := store.life[key].payload.text;
      var next := DecodeResultId(text).value;
      ResultIdRoundTrip("", "", text);
      ResultIsTheEnds(world, store, next);
    }
  }

  /** An id that names no row of a declared queue reads as no task at all. */
  lemma UnknownIdReadsNothing(world: World, store: Store, resultId: string)
    requires ChainsEnd(world, store)
    requires var key := DecodeResultId(resultId);
      key.None? || key.value !in store.spawned || key.value.queue !in world.backend.queues
    ensures GetResult(world, store, resultId) == Failure(TaskResultDoesNotExist)
  {
  }

  /** While the wrapper is still the caller's task, its result names the caller's task and call,
      shows no start, and fails exactly when the wrapper failed or was cancelled. */
  lemma WaitingWrapperReads(world: World, provisioned: set<string>, events: seq<Event>, wrapper: TaskKey)
    requires Sound(world)
    requires var s := Run(world, Initial(provisioned), events);
      && wrapper in s.store.spawned && IsWrapper(s.store.spawned[wrapper])
      && wrapper in s.store.life && !s.store.life[wrapper].state.Completed?
      && Target(s.store.spawned[wrapper]) in world.registry && wrapper.queue in world.backend.queues
    ensures var s := Run(world, Initial(provisioned), events);
      && ChainsEnd(world, s.store)
      && var r := GetResult(world, s.store, ResultId(wrapper.queue, wrapper.id));
        var spec, state := s.store.spawned[wrapper].params, s.store.life[wrapper].state;
        && spec.Deferral? && r.Success?
        && r.value.path == Target(s.store.spawned[wrapper])
        && r.value.args == spec.args && r.value.kwargs == spec.kwargs
        && r.value.startedAt.None? && r.value.returnValue.None?
        && (r.value.status.FAILED? <==> state.Failed? || state.Cancelled?)
        && (r.value.status.READY? <==> state.Pending? || state.Sleeping?)
  {
    ReachableChainsEnd(world, provisioned, events);
    ReachableKeepsInv(world, provisioned, events);
    var s := Run(world, Initial(provisioned), events);
    assert RowOk(wrapper, s.store.spawned[wrapper]);
    ResultIdRoundTrip(wrapper.queue, wrapper.id, "");
  }

  /** Without a key, a completed wrapper's result is its own target's: a row made for it, no earlier
      than due, holding exactly the caller's task and call. */
  lemma UnkeyedWrapperReadsItsTarget(world: World, provisioned: set<string>, events: seq<Event>, wrapper: TaskKey)
    requires Sound(world)
    requires var s := Run(world, Initial(provisioned), events);
      && ReadThrough(s.store, wrapper)
      && s.store.spawned[wrapper].params.Deferral? && WokenKey(world, s.store.spawned[wrapper]).Unset?
      && wrapper.queue in world.backend.queues
    ensures var s := Run(world, Initial(provisioned), events);
      && ChainsEnd(world, s.store)
      && var r := GetResult(world, s.store, ResultId(wrapper.queue, wrapper.id));
        var end := ChainEnd(world, s.store, wrapper);
        var spec := s.store.spawned[wrapper].params;
        && spec.Deferral? && r.Success?
        && r.value.path == Target(s.store.spawned[wrapper])
        && r.value.args == spec.args && r.value.kwargs == spec.kwargs
        && spec.due <= s.store.spawned[end].at
        && s.store.spawned[wrapper].order < s.store.spawned[end].order
  {
    ReachableKeepsInv(world, provisioned, events);
    var s := Run(world, Initial(provisioned), events);
    UnkeyedEnd(world, s, wrapper);
    assert RowOk(wrapper, s.store.spawned[wrapper]);
    ResultIsTheEnds(world, s.store, wrapper);
  }

  /** With a key, the deferred id reads exactly like the id an immediate enqueue under that key
      gets back: the row that holds the caller's key on the queue, whoever made it. */
  lemma KeyedWrapperReadsTheHolder(
      world: World, provisioned: set<string>, events: seq<Event>, wrapper: TaskKey,
      task: Task, args: seq<Json>, kwargs: map<string, Json>, freshId: string)
    requires Sound(world)
    requires var s := Run(world, Initial(provisioned), events);
      && ReadThrough(s.store, wrapper)
      && wrapper.queue == task.queueName && task.runAfter.None?
      && s.store.spawned[wrapper].params.Deferral?
      && WokenKey(world, s.store.spawned[wrapper]).Set?
      && EffectiveOptions(task, world.backend.defaultMaxAttempts).idempotencyKey
         == WokenKey(world, s.store.spawned[wrapper])
    ensures var s := Run(world, Initial(provisioned), events);
      && ChainsEnd(world, s.store)
      && var r := Enqueue(world.backend, s.store, task, args, kwargs, freshId, s.clock);
        && r.Success? && r.value.0 == s.store
        && GetResult(world, s.store, ResultId(wrapper.queue, wrapper.id)) == GetResult(world, s.store, r.value.1)
  {
    ReachableKeepsInv(world, provisioned, events);
    var s := Run(world, Initial(provisioned), events);
    assert RowOk(wrapper, s.store.spawned[wrapper]) && EnqueueRefusal(world.backend, s.store, wrapper.queue).None?;
    var holder := KeyedEnd(world, s, wrapper);
    ReadsThePayload(world, s.store, wrapper, holder);
  }

  /*******************************************************************************
   *  The payload need not name a later task: an earlier enqueue may already hold the key
   *******************************************************************************/

  predicate HeldByEarlierRow(world: World, store: Store, wrapper: TaskKey)
    requires wrapper in store.spawned && store.spawned[wrapper].params.Deferral?
  {
    var holder := Holder(world, store, wrapper);
    holder.Some? && holder.value in store.spawned && store.spawned[holder.value].order < store.spawned[wrapper].order
  }

  /** The enqueue of a due wrapper lands on an earlier row exactly when such a row held the key. */
  lemma WokenTargetOrder(world: World, s: System, wrapper: TaskKey, freshId: string)
    requires Sound(world) && Inv(world, s) && CanWake(world, s, wrapper) && IsFresh(s, freshId)
    ensures var woken := Wake(world, s, wrapper, freshId);
      && (forall key | key in s.store.spawned :: key in woken.store.spawned && woken.store.spawned[key] == s.store.spawned[key])
      && wrapper in woken.store.life && woken.store.life[wrapper] == s.store.life[wrapper]
      && wrapper in woken.awaiting && woken.checkpoints == s.checkpoints
      && exists target ::
           && TargetOk(world, woken.store.spawned, wrapper, woken.awaiting[wrapper], target)
           && (s.store.spawned[wrapper].order <= woken.store.spawned[target].order
               <==> !HeldByEarlierRow(world, s.store, wrapper))
  {
    WakeReturnsTarget(world, s, wrapper, freshId);
    WakeAsksForTheCall(world, s, wrapper);
    var row := s.store.spawned[wrapper];
    var task := WakeTask(world.registry[Target(row)], row.params);
    var request := PlanSpawn(world.backend, task, row.params.args, row.params.kwargs);
    SpawnReturns(s.store, request, freshId, s.clock);
    var (after, id) := Spawn(s.store, request, freshId, s.clock);
    var target := TaskKey(wrapper.queue, id);
    assert row.order < |s.store.spawned|;
    if KeyTaken(s.store, request) {
      assert HolderOk(s.store, wrapper.queue, request.options.idempotencyKey.value);
    } else {
      assert after.spawned[target].order == |s.store.spawned|;
    }
    assert TargetOk(world, after.spawned, wrapper, ResultId(wrapper.queue, id), target);
  }

  /** Checkpointing and finishing turn the awaited id into the payload that is read through. */
  lemma FinishReadsThrough(world: World, s: System, wrapper: TaskKey)
    requires wrapper in s.store.spawned && wrapper in s.store.life && IsWrapper(s.store.spawned[wrapper])
    requires s.store.life[wrapper].state.Running? && wrapper in s.awaiting && wrapper !in s.checkpoints
    ensures var done := Apply(world, Apply(world, s, CheckpointEvent(wrapper)), FinishEvent(wrapper, JNull));
      && done.store.spawned == s.store.spawned
      && ReadThrough(done.store, wrapper)
      && done.store.life[wrapper].payload == JString(s.awaiting[wrapper])
  {
    var saved := Apply(world, s, CheckpointEvent(wrapper));
    assert saved.store == s.store && saved.checkpoints[wrapper] == s.awaiting[wrapper];
  }

  /** A wrapper that wakes, checkpoints and finishes is read through to a task no older than it, if
      and only if no earlier row held the caller's key when it woke. */
  lemma WokenWrapperPayload(world: World, s: System, wrapper: TaskKey, freshId: string)
    requires Sound(world) && Inv(world, s) && CanWake(world, s, wrapper) && IsFresh(s, freshId)
    ensures var woken := Wake(world, s, wrapper, freshId);
      var done := Apply(world, Apply(world, woken, CheckpointEvent(wrapper)), FinishEvent(wrapper, JNull));
      && ReadThrough(done.store, wrapper)
      && done.store.life[wrapper].payload.JString?
      && var target := DecodeResultId(done.store.life[wrapper].payload.text);
        && target.Some? && target.value in done.store.spawned && wrapper in done.store.spawned
        && (done.store.spawned[wrapper].order <= done.store.spawned[target.value].order
            <==> !HeldByEarlierRow(world, s.store, wrapper))
  {
    WokenTargetOrder(world, s, wrapper, freshId);
    var woken := Wake(world, s, wrapper, freshId);
    FinishReadsThrough(world, woken, wrapper);
    var target :| TargetOk(world, woken.store.spawned, wrapper, woken.awaiting[wrapper], target)
      && (s.store.spawned[wrapper].order <= woken.store.spawned[target].order <==> !HeldByEarlierRow(world, s.store, wrapper));
    ResultIdRoundTrip(target.queue, target.id, "");
  }

  predicate IsTheCall(wrapper: Spawned, row: Spawned)
    requires wrapper.params.Deferral?
  {
    row.name == Target(wrapper) && row.params == Call(wrapper.params.args, wrapper.params.kwargs)
  }

  /** What a wake brings back: the row that already holds the key, or else a row made for the call. */
  lemma WokenTarget(world: World, s: System, wrapper: TaskKey, freshId: string)
    requires Sound(world) && Inv(world, s) && CanWake(world, s, wrapper) && IsFresh(s, freshId)
    ensures var woken := Wake(world, s, wrapper, freshId);
      var holder := Holder(world, s.store, wrapper);
      && wrapper in woken.awaiting
      && var target := DecodeResultId(woken.awaiting[wrapper]);
        && target.Some? && target.value in woken.store.spawned
        && (if holder.Some? then target == holder && woken.store == s.store
            else target.value !in s.store.spawned && !IsWrapper(woken.store.spawned[target.value])
                 && IsTheCall(s.store.spawned[wrapper], woken.store.spawned[target.value])
                 && target.value in woken.store.life && woken.store.life[target.value].state.Pending?)
  {
    WakeAsksForTheCall(world, s, wrapper);
    var row := s.store.spawned[wrapper];
    var task := WakeTask(world.registry[Target(row)], row.params);
    var request := PlanSpawn(world.backend, task, row.params.args, row.params.kwargs);
    SpawnReturns(s.store, request, freshId, s.clock);
    var (after, id) := Spawn(s.store, request, freshId, s.clock);
    ResultIdRoundTrip(wrapper.queue, id, "");
    if IsWrapper(after.spawned[TaskKey(wrapper.queue, id)]) {
      SuffixHoldsColon(after.spawned[TaskKey(wrapper.queue, id)].name);
    }
    if KeyTaken(s.store, request) {
      assert HolderOk(s.store, wrapper.queue, request.options.idempotencyKey.value);
    }
  }

  /*******************************************************************************
   *  Whose call a finished deferral reads as
   *******************************************************************************/

  predicate ReadsAsTheCall(wrapper: Spawned, r: Result<TaskResult, ReadError>)
    requires wrapper.params.Deferral?
  {
    && r.Success? && r.value.path == Target(wrapper)
    && r.value.args == wrapper.params.args && r.value.kwargs == wrapper.params.kwargs
  }

  /** The key a wrapper's target will carry is free, or the row that holds it reads as the same call. */
  predicate KeyServesTheCall(world: World, store: Store, wrapper: TaskKey)
    requires ChainsEnd(world, store) && wrapper in store.spawned && store.spawned[wrapper].params.Deferral?
  {
    var holder := Holder(world, store, wrapper);
    holder.Some? && holder.value in store.spawned ==>
      SameCall(store.spawned[wrapper], store.spawned[ChainEnd(world, store, holder.value)])
  }

  /** A row that stands for the call a wrapper defers, itself deferred or not. */
  predicate SameCall(wrapper: Spawned, row: Spawned) {
    && Target(row) == Target(wrapper)
    && row.params.args == wrapper.params.args && row.params.kwargs == wrapper.params.kwargs
  }

  lemma EndDecidesTheReading(world: World, store: Store, wrapper: TaskKey)
    requires ChainsEnd(world, store) && wrapper in store.spawned && ':' !in wrapper.id
    requires store.spawned[wrapper].params.Deferral? && Target(store.spawned[wrapper]) in world.registry
    ensures ReadsAsTheCall(store.spawned[wrapper], GetResult(world, store, ResultId(wrapper.queue, wrapper.id)))
            <==> wrapper.queue in world.backend.queues
                 && SameCall(store.spawned[wrapper], store.spawned[ChainEnd(world, store, wrapper)])
  {
    ResultIsTheEnds(world, store, wrapper);
  }

  /** A chain that starts nearer than a row does not pass through it, so what that row does is not seen. */
  lemma {:induction false} ChainUntouched(world: World, before: Store, after: Store, wrapper: TaskKey, key: TaskKey)
    requires ChainsEnd(world, before) && ChainsEnd(world, after)
    requires wrapper in before.spawned && key in before.spawned
    requires OnlyLivesDiffer(before, after, wrapper)
    requires Distance(world, before.spawned[key]) < Distance(world, before.spawned[wrapper])
    ensures ChainEnd(world, after, key) == ChainEnd(world, before, key)
    decreases Distance(world, before.spawned[key])
  {
    if ReadThrough(before, key) {
      assert ReadThrough(after, key) && StepsDown(world, before, key);
      ChainUntouched(world, before, after, wrapper, DecodeResultId(before.life[key].payload.text).value);
    }
  }

  /** Waking, checkpointing and finishing a wrapper, in one go. */
  function Finished(world: World, s: System, wrapper: TaskKey, freshId: string): System
    requires CanWake(world, s, wrapper)
  {
    Apply(world, Apply(world, Wake(world, s, wrapper, freshId), CheckpointEvent(wrapper)), FinishEvent(wrapper, JNull))
  }

  lemma FinishedKeepsInv(world: World, s: System, wrapper: TaskKey, freshId: string)
    requires Sound(world) && Inv(world, s) && CanWake(world, s, wrapper) && IsFresh(s, freshId)
    ensures Inv(world, Finished(world, s, wrapper, freshId)) && ChainsEnd(world, Finished(world, s, wrapper, freshId).store)
  {
    var woken := Wake(world, s, wrapper, freshId);
    WakeKeepsInv(world, s, wrapper, freshId);
    ApplyKeepsInv(world, woken, CheckpointEvent(wrapper));
    ApplyKeepsInv(world, Apply(world, woken, CheckpointEvent(wrapper)), FinishEvent(wrapper, JNull));
    InvChainsEnd(world, Finished(world, s, wrapper, freshId));
  }

  /** Only one row's life differs, beside rows added. */
  ghost predicate OnlyLivesDiffer(before: Store, after: Store, wrapper: TaskKey) {
    && (forall k | k in before.spawned :: k in after.spawned && after.spawned[k] == before.spawned[k])
    && (forall k | k in before.life && k != wrapper :: k in after.life && after.life[k] == before.life[k])
  }

  lemma SpawnAddsOnly(store: Store, request: SpawnRequest, freshId: string, at: int, wrapper: TaskKey)
    requires store.life.Keys == store.spawned.Keys && forall k | k in store.spawned :: k.id != freshId
    ensures OnlyLivesDiffer(store, Spawn(store, request, freshId, at).0, wrapper)
  {
  }

  lemma WakeAddsOnly(world: World, s: System, wrapper: TaskKey, freshId: string)
    requires Inv(world, s) && CanWake(world, s, wrapper) && IsFresh(s, freshId)
    ensures OnlyLivesDiffer(s.store, Wake(world, s, wrapper, freshId).store, wrapper)
  {
    var row := s.store.spawned[wrapper];
    var task := WakeTask(world.registry[Target(row)], row.params);
    SpawnAddsOnly(s.store, PlanSpawn(world.backend, task, row.params.args, row.params.kwargs), freshId, s.clock, wrapper);
  }

  lemma FinishChangesOneLife(world: World, s: System, wrapper: TaskKey)
    ensures OnlyLivesDiffer(s.store,
      Apply(world, Apply(world, s, CheckpointEvent(wrapper)), FinishEvent(wrapper, JNull)).store, wrapper)
  {
    assert Apply(world, s, CheckpointEvent(wrapper)).store == s.store;
  }

  /** Where the chain of a finished wrapper ends: where its key's holder led, or at its own new row. */
  lemma FinishedChain(world: World, s: System, wrapper: TaskKey, freshId: string)
    requires Sound(world) && Inv(world, s) && CanWake(world, s, wrapper) && IsFresh(s, freshId)
    ensures ChainsEnd(world, s.store)
    ensures var done := Finished(world, s, wrapper, freshId);
      && ChainsEnd(world, done.store)
      && wrapper in done.store.spawned && done.store.spawned[wrapper] == s.store.spawned[wrapper]
      && var end, holder := ChainEnd(world, done.store, wrapper), Holder(world, s.store, wrapper);
        if holder.Some? then
          && holder.value in s.store.spawned && end == ChainEnd(world, s.store, holder.value)
          && done.store.spawned[end] == s.store.spawned[end]
        else SameCall(s.store.spawned[wrapper], done.store.spawned[end])
  {
    InvChainsEnd(world, s);
    FinishedKeepsInv(world, s, wrapper, freshId);
    WakeAddsOnly(world, s, wrapper, freshId);
    FinishChangesOneLife(world, Wake(world, s, wrapper, freshId), wrapper);
    WokenTarget(world, s, wrapper, freshId);
    WokenTargetOrder(world, s, wrapper, freshId);
    var woken := Wake(world, s, wrapper, freshId);
    var done := Finished(world, s, wrapper, freshId);
    FinishReadsThrough(world, woken, wrapper);
    assert StepsDown(world, done.store, wrapper);
    var target := DecodeResultId(woken.awaiting[wrapper]).value;
    if Holder(world, s.store, wrapper).Some? {
      ChainUntouched(world, s.store, done.store, wrapper, target);
    }
  }

  lemma FinishedReads(world: World, s: System, wrapper: TaskKey, freshId: string)
    requires Sound(world) && Inv(world, s) && CanWake(world, s, wrapper) && IsFresh(s, freshId)
    ensures ChainsEnd(world, s.store) && ChainsEnd(world, Finished(world, s, wrapper, freshId).store)
    ensures ReadsAsTheCall(s.store.spawned[wrapper],
                           GetResult(world, Finished(world, s, wrapper, freshId).store, ResultId(wrapper.queue, wrapper.id)))
            <==> wrapper.queue in world.backend.queues && KeyServesTheCall(world, s.store, wrapper)
  {
    FinishedKeepsInv(world, s, wrapper, freshId);
    FinishedChain(world, s, wrapper, freshId);
    assert RowOk(wrapper, s.store.spawned[wrapper]);
    EndDecidesTheReading(world, Finished(world, s, wrapper, freshId).store, wrapper);
  }

  /** From every reachable state: a deferral that wakes, checkpoints and finishes then reads as the caller's
      own task, args and kwargs if and only if its key was free when it woke, or was held by a row that reads
      as that same call; and the backend declares the queue it reads. */
  lemma FinishedDeferralReads(world: World, provisioned: set<string>, events: seq<Event>, wrapper: TaskKey, freshId: string)
    requires Sound(world)
    requires var s := Run(world, Initial(provisioned), events);
      CanWake(world, s, wrapper) && IsFresh(s, freshId)
    ensures var s := Run(world, Initial(provisioned), events);
      var done := Finished(world, s, wrapper, freshId);
      && ChainsEnd(world, s.store) && ChainsEnd(world, done.store)
      && (ReadsAsTheCall(s.store.spawned[wrapper], GetResult(world, done.store, ResultId(wrapper.queue, wrapper.id)))
          <==> wrapper.queue in world.backend.queues && KeyServesTheCall(world, s.store, wrapper))
  {
    ReachableKeepsInv(world, provisioned, events);
    FinishedReads(world, Run(world, Initial(provisioned), events), wrapper, freshId);
  }
}
