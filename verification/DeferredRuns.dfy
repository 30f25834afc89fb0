/** Deferred tasks over whole runs: an adversary enqueues, wakes, crashes and finishes wrappers in
    any order, and every reachable store keeps what reading a deferred result relies on. */
module DeferredRuns {
  import opened Wrappers
  import opened SpawnOptions
  import opened Text
  import opened Backend

  /*******************************************************************************
   *  The system: one backend, one importable registry, one store
   *******************************************************************************/

  datatype World = World(backend: AbsurdBackend, registry: map<string, Task>)

  /** Importable definitions, on this backend, under colon-free dotted paths. They may carry any bound
      option, a key or headers included. */
  ghost predicate Importable(world: World) {
    forall path | path in world.registry ::
      && ':' !in path
      && world.registry[path].func.modulePath == path
      && world.registry[path].backend == world.backend.alias
  }

  /** No importable definition is itself deferred. */
  ghost predicate NoneDeferred(world: World) {
    forall path | path in world.registry :: world.registry[path].runAfter.None?
  }

  ghost predicate Sound(world: World) {
    Importable(world) && NoneDeferred(world)
  }

  /** `awaiting` holds the id a live attempt has enqueued but not yet checkpointed. */
  datatype System = System(
    store: Store,
    clock: int,
    awaiting: map<TaskKey, string>,
    checkpoints: map<TaskKey, string>)

  datatype Event =
    | EnqueueEvent(task: Task, args: seq<Json>, kwargs: map<string, Json>, freshId: string)
    | WakeEvent(wrapper: TaskKey, freshId: string)
    | CheckpointEvent(wrapper: TaskKey)
    | CrashEvent(wrapper: TaskKey)
    | FinishEvent(row: TaskKey, payload: Json)
    | StateEvent(row: TaskKey, state: TaskState, failure: Option<string>)
    | TickEvent(now: int)

  function Target(row: Spawned): string {
    RemoveSuffix(row.name, DEFER_NAME_SUFFIX)
  }

  predicate IsWrapper(row: Spawned) {
    EndsWith(row.name, DEFER_NAME_SUFFIX)
  }

  predicate Terminal(state: TaskState) {
    state.Completed? || state.Failed? || state.Cancelled?
  }

  predicate IsFresh(s: System, id: string) {
    ':' !in id && forall key | key in s.store.spawned :: key.id != id
  }

  /** A running wrapper past its due time whose enqueue step is not checkpointed yet. */
  predicate CanWake(world: World, s: System, wrapper: TaskKey) {
    && wrapper in s.store.spawned && wrapper in s.store.life
    && s.store.life[wrapper].state.Running?
    && wrapper !in s.checkpoints
    && IsWrapper(s.store.spawned[wrapper])
    && s.store.spawned[wrapper].params.Deferral?
    && s.store.spawned[wrapper].params.due <= s.clock
    && Target(s.store.spawned[wrapper]) in world.registry
  }

  function Wake(world: World, s: System, wrapper: TaskKey, freshId: string): System
    requires CanWake(world, s, wrapper)
  {
    var row := s.store.spawned[wrapper];
    var task := WakeTask(world.registry[Target(row)], row.params);
    match Enqueue(world.backend, s.store, task, row.params.args, row.params.kwargs, freshId, s.clock)
    case Failure(_) => s
    case Success((after, id)) => s.(store := after, awaiting := s.awaiting[wrapper := id])
  }

  /** One adversarial step; a step that is not enabled changes nothing. */
  function Apply(world: World, s: System, event: Event): System {
    match event
    case EnqueueEvent(task, args, kwargs, freshId) =>
      if IsFresh(s, freshId) && ':' !in task.func.modulePath then
        match Enqueue(world.backend, s.store, task, args, kwargs, freshId, s.clock)
        case Failure(_) => s
        case Success((after, _)) => s.(store := after)
      else s
    case WakeEvent(wrapper, freshId) =>
      if IsFresh(s, freshId) && CanWake(world, s, wrapper) then Wake(world, s, wrapper, freshId) else s
    case CheckpointEvent(wrapper) =>
      if wrapper in s.awaiting && wrapper !in s.checkpoints then
        s.(checkpoints := s.checkpoints[wrapper := s.awaiting[wrapper]], awaiting := s.awaiting - {wrapper})
      else s
    case CrashEvent(wrapper) =>
      s.(awaiting := s.awaiting - {wrapper})
    case FinishEvent(task, payload) =>
      if task in s.store.spawned && task in s.store.life && s.store.life[task].state.Running? then
        if !IsWrapper(s.store.spawned[task]) then Settle(s, task, s.store.life[task].(state := Completed, payload := payload))
        else if task in s.checkpoints then
          Settle(s, task, s.store.life[task].(state := Completed, payload := JString(s.checkpoints[task])))
        else s
      else s
    case StateEvent(task, state, failure) =>
      if task in s.store.life && !Terminal(s.store.life[task].state) && !state.Completed? then
        var started := if state.Running? && s.store.life[task].firstStartedAt.None?
                       then Some(s.clock) else s.store.life[task].firstStartedAt;
        Settle(s, task, Life(state, JNull, started, failure))
      else s
    case TickEvent(now) =>
      if s.clock <= now then s.(clock := now) else s
  }

  /** A state change ends the attempt, and with it any enqueue it had not checkpointed. */
  function Settle(s: System, task: TaskKey, life: Life): System {
    s.(store := s.store.(life := s.store.life[task := life]), awaiting := s.awaiting - {task})
  }

  function Initial(provisioned: set<string>): System {
    System(Store(provisioned, map[], map[], map[]), 0, map[], map[])
  }

  function Run(world: World, s: System, events: seq<Event>): System {
    if events == [] then s else Apply(world, Run(world, s, events[..|events| - 1]), events[|events| - 1])
  }

  lemma RunOneMore(world: World, s: System, events: seq<Event>, event: Event)
    ensures Run(world, s, events + [event]) == Apply(world, Run(world, s, events), event)
  {
    assert (events + [event])[..|events|] == events;
  }

  lemma RunTwo(world: World, s: System, a: Event, b: Event)
    ensures Run(world, s, [a, b]) == Apply(world, Apply(world, s, a), b)
  {
    RunOneMore(world, s, [], a);
    RunOneMore(world, s, [a], b);
    assert [] + [a] == [a] && [a] + [b] == [a, b];
  }

  lemma RunThree(world: World, s: System, a: Event, b: Event, c: Event)
    ensures Run(world, s, [a, b, c]) == Apply(world, Apply(world, Apply(world, s, a), b), c)
  {
    RunTwo(world, s, a, b);
    RunOneMore(world, s, [a, b], c);
    assert [a, b] + [c] == [a, b, c];
  }

  lemma {:induction false} RunAppends(world: World, s: System, first: seq<Event>, second: seq<Event>)
    ensures Run(world, s, first + second) == Run(world, Run(world, s, first), second)
  {
    if second == [] {
      assert first + second == first;
    } else {
      var front, last := second[..|second| - 1], second[|second| - 1];
      RunAppends(world, s, first, front);
      assert second == front + [last];
      OneMoreOnBoth(world, s, Run(world, s, first), first + front, front, last);
      assert first + front + [last] == first + second;
    }
  }

  lemma OneMoreOnBoth(world: World, s: System, t: System, first: seq<Event>, second: seq<Event>, event: Event)
    requires Run(world, s, first) == Run(world, t, second)
    ensures Run(world, s, first + [event]) == Run(world, t, second + [event])
  {
    RunOneMore(world, s, first, event);
    RunOneMore(world, t, second, event);
  }

  /*******************************************************************************
   *  What every reachable state keeps
   *******************************************************************************/

  ghost predicate RowOk(key: TaskKey, row: Spawned) {
    && ':' !in key.id
    && (IsWrapper(row) <==> row.params.Deferral?)
    && ':' !in Target(row)
    && (IsWrapper(row) ==>
          && row.params.queue == key.queue && row.params.options.maxAttempts.Set?
          && row.options.idempotencyKey == WrapperKey(row.params.options.idempotencyKey))
  }

  /** The key a wrapper's target will carry: the caller's, or else the importable definition's own. */
  function WokenKey(world: World, row: Spawned): Slot<string>
    requires row.params.Deferral?
  {
    Over(if Target(row) in world.registry then CarriedKey(world.registry[Target(row)]) else Unset,
         row.params.options.idempotencyKey)
  }

  /** The row a held key names exists and carries that key. */
  ghost predicate HolderOk(store: Store, queue: string, key: string)
    requires (queue, key) in store.keyed
  {
    var task := TaskKey(queue, store.keyed[(queue, key)]);
    task in store.spawned && store.spawned[task].options.idempotencyKey == Set(key)
  }

  /** A row that carries a key is the one that holds it on its queue. */
  ghost predicate KeyHeld(store: Store, task: TaskKey)
    requires task in store.spawned
  {
    var key := store.spawned[task].options.idempotencyKey;
    key.Set? ==> (task.queue, key.value) in store.keyed && store.keyed[(task.queue, key.value)] == task.id
  }

  ghost predicate StoreOk(store: Store) {
    && store.life.Keys == store.spawned.Keys
    && (forall key | key in store.spawned ::
          RowOk(key, store.spawned[key]) && KeyHeld(store, key) && store.spawned[key].order < |store.spawned|)
    && (forall queue, key | (queue, key) in store.keyed :: HolderOk(store, queue, key))
  }

  /** What a wrapper's enqueue returned. Without a key it is a row made for this wrapper, after it
      and no earlier than due. With a key it is the row that holds that key on the queue. */
  ghost predicate TargetOk(world: World, spawned: map<TaskKey, Spawned>, wrapper: TaskKey, resultId: string, target: TaskKey) {
    && wrapper in spawned && target in spawned
    && ':' !in target.id && target.queue == wrapper.queue
    && resultId == ResultId(target.queue, target.id)
    && var w, row := spawned[wrapper], spawned[target];
    && w.params.Deferral? && IsWrapper(w) && Target(w) in world.registry
    && row.options.idempotencyKey == WokenKey(world, w)
    && (row.options.idempotencyKey.Unset? ==>
          && row.name == Target(w)
          && row.params == Call(w.params.args, w.params.kwargs)
          && w.order < row.order && w.params.due <= row.at)
  }

  ghost predicate Enqueued(world: World, spawned: map<TaskKey, Spawned>, wrapper: TaskKey, resultId: string) {
    exists target :: TargetOk(world, spawned, wrapper, resultId, target)
  }

  /** Rows lie on queues that enqueues are still accepted on. */
  predicate RowsAccepted(world: World, store: Store) {
    forall key | key in store.spawned :: EnqueueRefusal(world.backend, store, key.queue).None?
  }

  ghost predicate Inv(world: World, s: System) {
    && StoreOk(s.store) && RowsAccepted(world, s.store)
    && (forall w | w in s.awaiting :: Enqueued(world, s.store.spawned, w, s.awaiting[w]))
    && (forall w | w in s.checkpoints :: Enqueued(world, s.store.spawned, w, s.checkpoints[w]))
    && (forall w | w in s.store.spawned && IsWrapper(s.store.spawned[w]) && s.store.life[w].state.Completed? ::
          w in s.checkpoints && s.store.life[w].payload == JString(s.checkpoints[w]))
  }

  lemma EnqueuedGrows(world: World, before: map<TaskKey, Spawned>, after: map<TaskKey, Spawned>, w: TaskKey, resultId: string)
    requires Enqueued(world, before, w, resultId)
    requires forall key | key in before :: key in after && after[key] == before[key]
    ensures Enqueued(world, after, w, resultId)
  {
    var target :| TargetOk(world, before, w, resultId, target);
    assert TargetOk(world, after, w, resultId, target);
  }

  lemma SpawnKeepsStore(store: Store, request: SpawnRequest, freshId: string, at: int)
    requires StoreOk(store) && forall key | key in store.spawned :: key.id != freshId
    requires RowOk(TaskKey(request.queue, freshId), Spawned(request.name, request.params, request.options, 0, 0))
    ensures StoreOk(Spawn(store, request, freshId, at).0)
  {
    var (after, id) := Spawn(store, request, freshId, at);
    if !KeyTaken(store, request) {
      var task := TaskKey(request.queue, freshId);
      assert |after.spawned| == |store.spawned| + 1;
      forall key | key in after.spawned
        ensures RowOk(key, after.spawned[key]) && KeyHeld(after, key) && after.spawned[key].order < |after.spawned|
      {
        if key != task {
          assert RowOk(key, store.spawned[key]) && KeyHeld(store, key);
        }
      }
      forall queue, key | (queue, key) in after.keyed
        ensures HolderOk(after, queue, key)
      {
        if (queue, key) in store.keyed {
          assert HolderOk(store, queue, key);
        }
      }
    }
  }

  /** What the caller of a spawn gets back: a row with the requested key; the requested row itself
      when there is no key. Earlier rows are untouched. */
  lemma SpawnReturns(store: Store, request: SpawnRequest, freshId: string, at: int)
    requires StoreOk(store) && ':' !in freshId && forall key | key in store.spawned :: key.id != freshId
    ensures var (after, id) := Spawn(store, request, freshId, at);
      && TaskKey(request.queue, id) in after.spawned
      && ':' !in id
      && after.spawned[TaskKey(request.queue, id)].options.idempotencyKey == request.options.idempotencyKey
      && (forall key | key in store.spawned :: key in after.spawned && after.spawned[key] == store.spawned[key])
      && (request.options.idempotencyKey.Unset? ==>
            after.spawned[TaskKey(request.queue, id)]
            == Spawned(request.name, request.params, request.options, |store.spawned|, at))
  {
    if KeyTaken(store, request) {
      assert HolderOk(store, request.queue, request.options.idempotencyKey.value);
      var task := TaskKey(request.queue, store.keyed[(request.queue, request.options.idempotencyKey.value)]);
      assert RowOk(task, store.spawned[task]);
    }
  }

  lemma SpawnKeepsAccepted(world: World, store: Store, request: SpawnRequest, freshId: string, at: int)
    requires RowsAccepted(world, store) && EnqueueRefusal(world.backend, store, request.queue).None?
    ensures RowsAccepted(world, Spawn(store, request, freshId, at).0)
  {
    var after := Spawn(store, request, freshId, at).0;
    forall key | key in after.spawned ensures EnqueueRefusal(world.backend, after, key.queue).None? {
      assert key in store.spawned || key.queue == request.queue;
    }
  }

  lemma EnqueuedAfterSpawn(world: World, store: Store, request: SpawnRequest, freshId: string, at: int, ids: map<TaskKey, string>)
    requires StoreOk(store) && ':' !in freshId && forall key | key in store.spawned :: key.id != freshId
    requires forall w | w in ids :: Enqueued(world, store.spawned, w, ids[w])
    ensures forall w | w in ids :: Enqueued(world, Spawn(store, request, freshId, at).0.spawned, w, ids[w])
  {
    SpawnReturns(store, request, freshId, at);
    forall w | w in ids ensures Enqueued(world, Spawn(store, request, freshId, at).0.spawned, w, ids[w]) {
      EnqueuedGrows(world, store.spawned, Spawn(store, request, freshId, at).0.spawned, w, ids[w]);
    }
  }

  /** Everything but the store's own shape survives a spawn. */
  lemma SpawnKeepsInv(world: World, s: System, request: SpawnRequest, freshId: string)
    requires Inv(world, s) && IsFresh(s, freshId)
    requires EnqueueRefusal(world.backend, s.store, request.queue).None?
    requires RowOk(TaskKey(request.queue, freshId), Spawned(request.name, request.params, request.options, 0, 0))
    ensures Inv(world, s.(store := Spawn(s.store, request, freshId, s.clock).0))
  {
    SpawnKeepsStore(s.store, request, freshId, s.clock);
    SpawnKeepsAccepted(world, s.store, request, freshId, s.clock);
    EnqueuedAfterSpawn(world, s.store, request, freshId, s.clock, s.awaiting);
    EnqueuedAfterSpawn(world, s.store, request, freshId, s.clock, s.checkpoints);
  }

  lemma PlannedRowIsOk(backend: AbsurdBackend, task: Task, args: seq<Json>, kwargs: map<string, Json>, freshId: string)
    requires ':' !in task.func.modulePath && ':' !in freshId
    ensures var r := PlanSpawn(backend, task, args, kwargs);
      RowOk(TaskKey(r.queue, freshId), Spawned(r.name, r.params, r.options, 0, 0))
  {
    SuffixRoundTrip(task.func.modulePath, DEFER_NAME_SUFFIX);
    if EndsWith(task.func.modulePath, DEFER_NAME_SUFFIX) {
      SuffixHoldsColon(task.func.modulePath);
    }
  }

  /** The spawn request a due wrapper makes carries the caller's name, call and queue, and the caller's key
      or else the definition's. */
  lemma WakeAsksForTheCall(world: World, s: System, wrapper: TaskKey)
    requires Sound(world) && Inv(world, s) && CanWake(world, s, wrapper)
    ensures var row := s.store.spawned[wrapper];
      var task := WakeTask(world.registry[Target(row)], row.params);
      var request := PlanSpawn(world.backend, task, row.params.args, row.params.kwargs);
      && task.queueName == request.queue == wrapper.queue
      && task.func.modulePath == request.name == Target(row)
      && request.params == Call(row.params.args, row.params.kwargs)
      && request.options.idempotencyKey == WokenKey(world, row)
  {
    assert RowOk(wrapper, s.store.spawned[wrapper]);
  }

  lemma WakeReturnsTarget(world: World, s: System, wrapper: TaskKey, freshId: string)
    requires Sound(world) && Inv(world, s) && IsFresh(s, freshId) && CanWake(world, s, wrapper)
    ensures var row := s.store.spawned[wrapper];
      var task := WakeTask(world.registry[Target(row)], row.params);
      var request := PlanSpawn(world.backend, task, row.params.args, row.params.kwargs);
      var (after, id) := Spawn(s.store, request, freshId, s.clock);
      TargetOk(world, after.spawned, wrapper, ResultId(wrapper.queue, id), TaskKey(wrapper.queue, id))
  {
    var row := s.store.spawned[wrapper];
    var task := WakeTask(world.registry[Target(row)], row.params);
    WakeAsksForTheCall(world, s, wrapper);
    assert RowOk(wrapper, row);
    SpawnReturns(s.store, PlanSpawn(world.backend, task, row.params.args, row.params.kwargs), freshId, s.clock);
  }

  lemma WakeKeepsInv(world: World, s: System, wrapper: TaskKey, freshId: string)
    requires Sound(world) && Inv(world, s) && IsFresh(s, freshId) && CanWake(world, s, wrapper)
    ensures Inv(world, Wake(world, s, wrapper, freshId))
  {
    var row := s.store.spawned[wrapper];
    var task := WakeTask(world.registry[Target(row)], row.params);
    var request := PlanSpawn(world.backend, task, row.params.args, row.params.kwargs);
    WakeAsksForTheCall(world, s, wrapper);
    PlannedRowIsOk(world.backend, task, row.params.args, row.params.kwargs, freshId);
    SpawnKeepsInv(world, s, request, freshId);
    WakeReturnsTarget(world, s, wrapper, freshId);
    var (after, id) := Spawn(s.store, request, freshId, s.clock);
    AwaitingKeepsInv(world, s.(store := after), wrapper, ResultId(wrapper.queue, id), TaskKey(wrapper.queue, id));
  }

  lemma AwaitingKeepsInv(world: World, s: System, wrapper: TaskKey, resultId: string, target: TaskKey)
    requires Inv(world, s) && TargetOk(world, s.store.spawned, wrapper, resultId, target)
    ensures Inv(world, s.(awaiting := s.awaiting[wrapper := resultId]))
  {
    assert Enqueued(world, s.store.spawned, wrapper, resultId);
  }

  lemma SettleKeepsInv(world: World, s: System, key: TaskKey, life: Life)
    requires Inv(world, s) && key in s.store.spawned
    requires life.state.Completed? && IsWrapper(s.store.spawned[key]) ==>
               key in s.checkpoints && life.payload == JString(s.checkpoints[key])
    ensures Inv(world, Settle(s, key, life))
  {
    var after := Settle(s, key, life);
    assert after.store.spawned == s.store.spawned && after.store.keyed == s.store.keyed;
    assert forall k | k in after.store.spawned :: KeyHeld(s.store, k) ==> KeyHeld(after.store, k);
    assert forall queue, k | (queue, k) in after.store.keyed :: HolderOk(s.store, queue, k) ==> HolderOk(after.store, queue, k);
  }

  lemma CheckpointKeepsInv(world: World, s: System, wrapper: TaskKey)
    requires Inv(world, s) && wrapper in s.awaiting && wrapper !in s.checkpoints
    ensures Inv(world, s.(checkpoints := s.checkpoints[wrapper := s.awaiting[wrapper]], awaiting := s.awaiting - {wrapper}))
  {
  }

  lemma EnqueueKeepsInv(world: World, s: System, task: Task, args: seq<Json>, kwargs: map<string, Json>, freshId: string)
    requires Inv(world, s)
    ensures Inv(world, Apply(world, s, EnqueueEvent(task, args, kwargs, freshId)))
  {
    if IsFresh(s, freshId) && ':' !in task.func.modulePath && EnqueueRefusal(world.backend, s.store, task.queueName).None? {
      PlannedRowIsOk(world.backend, task, args, kwargs, freshId);
      SpawnKeepsInv(world, s, PlanSpawn(world.backend, task, args, kwargs), freshId);
    }
  }

  lemma LifeEventKeepsInv(world: World, s: System, event: Event, key: TaskKey)
    requires Inv(world, s)
    requires (event.FinishEvent? && key == event.row) || (event.StateEvent? && key == event.row)
    ensures Inv(world, Apply(world, s, event))
  {
    var after := Apply(world, s, event);
    if after != s {
      SettleKeepsInv(world, s, key, after.store.life[key]);
    }
  }

  lemma ApplyKeepsInv(world: World, s: System, event: Event)
    requires Sound(world) && Inv(world, s)
    ensures Inv(world, Apply(world, s, event))
  {
    match event
    case EnqueueEvent(task, args, kwargs, freshId) => EnqueueKeepsInv(world, s, task, args, kwargs, freshId);
    case WakeEvent(wrapper, freshId) =>
      if IsFresh(s, freshId) && CanWake(world, s, wrapper) {
        WakeKeepsInv(world, s, wrapper, freshId);
      }
    case CheckpointEvent(wrapper) =>
      if wrapper in s.awaiting && wrapper !in s.checkpoints {
        CheckpointKeepsInv(world, s, wrapper);
      }
    case CrashEvent(_) =>
    case FinishEvent(row, _) => LifeEventKeepsInv(world, s, event, row);
    case StateEvent(row, _, _) => LifeEventKeepsInv(world, s, event, row);
    case TickEvent(_) =>
  }

  lemma {:induction false} ReachableKeepsInv(world: World, provisioned: set<string>, events: seq<Event>)
    requires Sound(world)
    ensures Inv(world, Run(world, Initial(provisioned), events))
  {
    if events != [] {
      ReachableKeepsInv(world, provisioned, events[..|events| - 1]);
      ApplyKeepsInv(world, Run(world, Initial(provisioned), events[..|events| - 1]), events[|events| - 1]);
    }
  }

  /** Asking twice for the same spawn makes one row exactly when the request carries a key. */
  lemma SpawnTwice(store: Store, request: SpawnRequest, first: string, second: string, at: int)
    requires first != second && forall key | key in store.spawned :: key.id != second
    ensures var once := Spawn(store, request, first, at).0;
      Spawn(once, request, second, at).0 == once <==> request.options.idempotencyKey.Set?
  {
    var once := Spawn(store, request, first, at).0;
    if request.options.idempotencyKey.Unset? {
      assert TaskKey(request.queue, second) !in once.spawned;
      assert TaskKey(request.queue, second) in Spawn(once, request, second, at).0.spawned;
    }
  }

  lemma WakeSpawns(world: World, s: System, wrapper: TaskKey, freshId: string)
    requires Sound(world) && Inv(world, s) && CanWake(world, s, wrapper)
    ensures var row := s.store.spawned[wrapper];
      var task := WakeTask(world.registry[Target(row)], row.params);
      var request := PlanSpawn(world.backend, task, row.params.args, row.params.kwargs);
      && request.options.idempotencyKey == WokenKey(world, row)
      && Wake(world, s, wrapper, freshId).store == Spawn(s.store, request, freshId, s.clock).0
  {
    WakeAsksForTheCall(world, s, wrapper);
  }

  lemma WakeKeepsRow(world: World, s: System, wrapper: TaskKey, freshId: string)
    requires CanWake(world, s, wrapper) && IsFresh(s, freshId)
    ensures var woken := Wake(world, s, wrapper, freshId);
      && CanWake(world, woken, wrapper) && woken.clock == s.clock
      && woken.store.spawned[wrapper] == s.store.spawned[wrapper]
  {
  }

  lemma CrashKeepsStore(world: World, s: System, wrapper: TaskKey)
    requires CanWake(world, s, wrapper)
    ensures var crashed := Apply(world, s, CrashEvent(wrapper));
      CanWake(world, crashed, wrapper) && crashed.clock == s.clock && crashed.store == s.store
  {
  }

  /** A crash between the wrapper's enqueue and its checkpoint makes the next attempt enqueue again.
      That leaves one target row exactly when the caller, or the definition, gave an idempotency key. */
  lemma SecondWakeDedupes(world: World, s: System, wrapper: TaskKey, first: string, second: string)
    requires Sound(world) && Inv(world, s) && CanWake(world, s, wrapper)
    requires IsFresh(s, first) && IsFresh(s, second) && first != second
    ensures var crashed := Apply(world, Wake(world, s, wrapper, first), CrashEvent(wrapper));
      && CanWake(world, crashed, wrapper)
      && (Wake(world, crashed, wrapper, second).store == crashed.store
          <==> WokenKey(world, s.store.spawned[wrapper]).Set?)
  {
    var row := s.store.spawned[wrapper];
    var task := WakeTask(world.registry[Target(row)], row.params);
    var request := PlanSpawn(world.backend, task, row.params.args, row.params.kwargs);
    WakeSpawns(world, s, wrapper, first);
    var woken := Wake(world, s, wrapper, first);
    WakeKeepsRow(world, s, wrapper, first);
    WakeKeepsInv(world, s, wrapper, first);
    CrashKeepsStore(world, woken, wrapper);
    ApplyKeepsInv(world, woken, CrashEvent(wrapper));
    WakeSpawns(world, Apply(world, woken, CrashEvent(wrapper)), wrapper, second);
    SpawnTwice(s.store, request, first, second, s.clock);
  }
}
