/** What a deferred id reads as for the rest of its life. */
module Readings {
  import opened Wrappers
  import opened SpawnOptions
  import opened Text
  import opened Backend
  import opened DeferredRuns
  import opened Results

  /** The id of a deferral reads as its own task, args and kwargs. */
  ghost predicate ReadsAt(world: World, store: Store, wrapper: TaskKey) {
    && ChainsEnd(world, store) && wrapper in store.spawned && store.spawned[wrapper].params.Deferral?
    && ReadsAsTheCall(store.spawned[wrapper], GetResult(world, store, ResultId(wrapper.queue, wrapper.id)))
  }

  lemma CompletedReads(world: World, s: System, wrapper: TaskKey)
    requires Sound(world) && Inv(world, s) && ReadThrough(s.store, wrapper)
    ensures s.store.spawned[wrapper].params.Deferral? && ChainsEnd(world, s.store)
    ensures ReadsAt(world, s.store, wrapper)
            <==> wrapper.queue in world.backend.queues && KeyServesTheCall(world, s.store, wrapper)
    ensures Holder(world, s.store, wrapper).None? <==> WokenKey(world, s.store.spawned[wrapper]).Unset?
  {
    var target := CompletedTarget(world, s, wrapper);
    assert RowOk(wrapper, s.store.spawned[wrapper]);
    if WokenKey(world, s.store.spawned[wrapper]).Unset? {
      UnkeyedEnd(world, s, wrapper);
    } else {
      var holder := KeyedEnd(world, s, wrapper);
    }
    EndDecidesTheReading(world, s.store, wrapper);
  }

  /** In every reachable state a completed deferral reads as its own call if and only if the backend declares
      its queue and it carries no key, or the chain of the row that holds its key ends, in that state, at a
      row for the same call. */
  lemma CompletedDeferralReads(world: World, provisioned: set<string>, events: seq<Event>, wrapper: TaskKey)
    requires Sound(world) && ReadThrough(Run(world, Initial(provisioned), events).store, wrapper)
    ensures var store := Run(world, Initial(provisioned), events).store;
      && store.spawned[wrapper].params.Deferral? && ChainsEnd(world, store)
      && (ReadsAt(world, store, wrapper)
          <==> wrapper.queue in world.backend.queues && KeyServesTheCall(world, store, wrapper))
      && (Holder(world, store, wrapper).None? <==> WokenKey(world, store.spawned[wrapper]).Unset?)
  {
    ReachableKeepsInv(world, provisioned, events);
    CompletedReads(world, Run(world, Initial(provisioned), events), wrapper);
  }

  /*******************************************************************************
   *  What no event undoes
   *******************************************************************************/

  /** Rows, held keys, and the lives of tasks that ended. */
  ghost predicate Later(before: Store, after: Store) {
    && (forall key | key in before.spawned :: key in after.spawned && after.spawned[key] == before.spawned[key])
    && (forall held | held in before.keyed :: held in after.keyed && after.keyed[held] == before.keyed[held])
    && (forall key | key in before.life ::
          key in after.life && (Terminal(before.life[key].state) ==> after.life[key] == before.life[key]))
  }

  lemma SpawnIsLater(store: Store, request: SpawnRequest, freshId: string, at: int)
    requires store.life.Keys == store.spawned.Keys && forall key | key in store.spawned :: key.id != freshId
    ensures Later(store, Spawn(store, request, freshId, at).0)
  {
  }

  lemma EnqueueIsLater(world: World, s: System, task: Task, args: seq<Json>, kwargs: map<string, Json>, freshId: string)
    requires s.store.life.Keys == s.store.spawned.Keys
    ensures Later(s.store, Apply(world, s, EnqueueEvent(task, args, kwargs, freshId)).store)
  {
    if IsFresh(s, freshId) {
      SpawnIsLater(s.store, PlanSpawn(world.backend, task, args, kwargs), freshId, s.clock);
    }
  }

  lemma WakeIsLater(world: World, s: System, wrapper: TaskKey, freshId: string)
    requires s.store.life.Keys == s.store.spawned.Keys
    ensures Later(s.store, Apply(world, s, WakeEvent(wrapper, freshId)).store)
  {
    if IsFresh(s, freshId) && CanWake(world, s, wrapper) {
      var row := s.store.spawned[wrapper];
      var task := WakeTask(world.registry[Target(row)], row.params);
      SpawnIsLater(s.store, PlanSpawn(world.backend, task, row.params.args, row.params.kwargs), freshId, s.clock);
    }
  }

  lemma ApplyIsLater(world: World, s: System, event: Event)
    requires s.store.life.Keys == s.store.spawned.Keys
    ensures Later(s.store, Apply(world, s, event).store)
  {
    match event
    case EnqueueEvent(task, args, kwargs, freshId) => EnqueueIsLater(world, s, task, args, kwargs, freshId);
    case WakeEvent(wrapper, freshId) => WakeIsLater(world, s, wrapper, freshId);
    case _ =>
  }

  lemma {:induction false} RunIsLater(world: World, s: System, events: seq<Event>)
    requires Sound(world) && Inv(world, s)
    ensures Inv(world, Run(world, s, events)) && Later(s.store, Run(world, s, events).store)
  {
    if events != [] {
      var front, last := events[..|events| - 1], events[|events| - 1];
      RunIsLater(world, s, front);
      ApplyKeepsInv(world, Run(world, s, front), last);
      ApplyIsLater(world, Run(world, s, front), last);
    }
  }

  /*******************************************************************************
   *  What an enqueue promises
   *******************************************************************************/

  /** An accepted enqueue added this row. */
  ghost predicate Added(world: World, s: System, task: Task, args: seq<Json>, kwargs: map<string, Json>, freshId: string) {
    var key := TaskKey(task.queueName, freshId);
    key !in s.store.spawned && key in Apply(world, s, EnqueueEvent(task, args, kwargs, freshId)).store.spawned
  }

  lemma AddedRow(world: World, s: System, task: Task, args: seq<Json>, kwargs: map<string, Json>, freshId: string)
    requires Added(world, s, task, args, kwargs, freshId)
    ensures var row := Apply(world, s, EnqueueEvent(task, args, kwargs, freshId)).store.spawned[TaskKey(task.queueName, freshId)];
      var asked := EffectiveOptions(task, world.backend.defaultMaxAttempts);
      && ':' !in task.func.modulePath && row.at == s.clock
      && row.params.args == args && row.params.kwargs == kwargs
      && (task.runAfter.None? ==> row.params.Call? && row.name == task.func.modulePath && row.options == asked)
      && (task.runAfter.Some? ==>
            && row.params.Deferral? && row.params.due == task.runAfter.value
            && row.params.queue == task.queueName && row.params.options == asked
            && IsWrapper(row) && Target(row) == task.func.modulePath
            && row.options.maxAttempts == Set(Some(world.backend.defaultMaxAttempts))
            && row.options == EMPTY.(maxAttempts := row.options.maxAttempts, idempotencyKey := row.options.idempotencyKey))
  {
    SuffixRoundTrip(task.func.modulePath, DEFER_NAME_SUFFIX);
  }

  /** A task enqueued to run at once reads, in every later state, as the task, args and kwargs it was enqueued
      with, and keeps its options. */
  lemma EnqueuedTaskReads(
      world: World, provisioned: set<string>, events: seq<Event>,
      task: Task, args: seq<Json>, kwargs: map<string, Json>, freshId: string, more: seq<Event>)
    requires Sound(world) && task.runAfter.None?
    requires Added(world, Run(world, Initial(provisioned), events), task, args, kwargs, freshId)
    ensures var s := Run(world, Initial(provisioned), events);
      var later := Run(world, Apply(world, s, EnqueueEvent(task, args, kwargs, freshId)), more);
      var key := TaskKey(task.queueName, freshId);
      && ChainsEnd(world, later.store) && key in later.store.spawned
      && later.store.spawned[key].options == EffectiveOptions(task, world.backend.defaultMaxAttempts)
      && var r := GetResult(world, later.store, ResultId(task.queueName, freshId));
        && (r.Success? <==> task.queueName in world.backend.queues && task.func.modulePath in world.registry)
        && (r.Success? ==> r.value.path == task.func.modulePath && r.value.args == args && r.value.kwargs == kwargs)
  {
    var s := Run(world, Initial(provisioned), events);
    var event := EnqueueEvent(task, args, kwargs, freshId);
    var key := TaskKey(task.queueName, freshId);
    ReachableKeepsInv(world, provisioned, events);
    ApplyKeepsInv(world, s, event);
    AddedRow(world, s, task, args, kwargs, freshId);
    RunIsLater(world, Apply(world, s, event), more);
    PlainRowReads(world, Run(world, Apply(world, s, event), more), key);
  }

  lemma PlainRowReads(world: World, s: System, key: TaskKey)
    requires Sound(world) && Inv(world, s) && key in s.store.spawned && s.store.spawned[key].params.Call?
    ensures ChainsEnd(world, s.store)
    ensures var r, row := GetResult(world, s.store, ResultId(key.queue, key.id)), s.store.spawned[key];
      && (r.Success? <==> key.queue in world.backend.queues && row.name in world.registry)
      && (r.Success? ==> r.value.path == row.name && r.value.args == row.params.args && r.value.kwargs == row.params.kwargs)
  {
    InvChainsEnd(world, s);
    assert RowOk(key, s.store.spawned[key]);
    ResultIsTheEnds(world, s.store, key);
  }

  /** A deferred enqueue keeps its time: in every later state the row it added can wake only once the instant
      asked for has come, is allowed the backend's own number of attempts, and, if it woke without a key, is
      read through to the call it was enqueued with, spawned no earlier than that instant. */
  lemma DeferralWaitsForItsTime(
      world: World, provisioned: set<string>, events: seq<Event>,
      task: Task, args: seq<Json>, kwargs: map<string, Json>, freshId: string, more: seq<Event>)
    requires Sound(world) && task.runAfter.Some?
    requires Added(world, Run(world, Initial(provisioned), events), task, args, kwargs, freshId)
    ensures var s := Run(world, Initial(provisioned), events);
      var later := Run(world, Apply(world, s, EnqueueEvent(task, args, kwargs, freshId)), more);
      var key := TaskKey(task.queueName, freshId);
      && ChainsEnd(world, later.store) && key in later.store.spawned
      && (CanWake(world, later, key) ==> task.runAfter.value <= later.clock)
      && later.store.spawned[key].options.maxAttempts == Set(Some(world.backend.defaultMaxAttempts))
      && later.store.spawned[key].params.Deferral?
      && (ReadThrough(later.store, key) && WokenKey(world, later.store.spawned[key]).Unset? ==>
            var end := later.store.spawned[ChainEnd(world, later.store, key)];
            && end.name == task.func.modulePath && end.params == Call(args, kwargs) && task.runAfter.value <= end.at)
  {
    var s := Run(world, Initial(provisioned), events);
    var event := EnqueueEvent(task, args, kwargs, freshId);
    var key := TaskKey(task.queueName, freshId);
    ReachableKeepsInv(world, provisioned, events);
    ApplyKeepsInv(world, s, event);
    AddedRow(world, s, task, args, kwargs, freshId);
    var after := Apply(world, s, event);
    RunIsLater(world, after, more);
    InvChainsEnd(world, Run(world, after, more));
    DeferralEnd(world, Run(world, after, more), key);
  }

  lemma DeferralEnd(world: World, s: System, key: TaskKey)
    requires Sound(world) && Inv(world, s) && key in s.store.spawned && s.store.spawned[key].params.Deferral?
    ensures ChainsEnd(world, s.store)
    ensures var row := s.store.spawned[key];
      ReadThrough(s.store, key) && WokenKey(world, row).Unset? ==>
        var end := s.store.spawned[ChainEnd(world, s.store, key)];
        && end.name == Target(row) && end.params == Call(row.params.args, row.params.kwargs) && row.params.due <= end.at
  {
    InvChainsEnd(world, s);
    if ReadThrough(s.store, key) && WokenKey(world, s.store.spawned[key]).Unset? {
      UnkeyedEnd(world, s, key);
    }
  }

  /*******************************************************************************
   *  When a reading is fixed
   *******************************************************************************/

  /** A row that will never be read through: a real task, or a wrapper that failed or was cancelled. */
  predicate Final(store: Store, key: TaskKey) {
    && key in store.spawned && key in store.life
    && (!IsWrapper(store.spawned[key]) || store.life[key].state.Failed? || store.life[key].state.Cancelled?)
  }

  /** Two readings of one id that describe the same task. */
  predicate SameTask(a: Result<TaskResult, ReadError>, b: Result<TaskResult, ReadError>) {
    match (a, b)
    case (Success(x), Success(y)) => x.id == y.id && x.path == y.path && x.args == y.args && x.kwargs == y.kwargs
    case _ => a == b
  }

  lemma {:induction false} FinalEndIsFixed(world: World, before: Store, after: Store, key: TaskKey)
    requires ChainsEnd(world, before) && ChainsEnd(world, after) && Later(before, after)
    requires key in before.spawned && ':' !in key.id && Final(before, ChainEnd(world, before, key))
    ensures ChainEnd(world, after, key) == ChainEnd(world, before, key)
    ensures var id := ResultId(key.queue, key.id);
      && SameTask(GetResult(world, before, id), GetResult(world, after, id))
      && (Terminal(before.life[ChainEnd(world, before, key)].state) ==>
            GetResult(world, before, id) == GetResult(world, after, id))
    decreases Distance(world, before.spawned[key])
  {
    ResultIdRoundTrip(key.queue, key.id, "");
    if ReadThrough(before, key) {
      assert StepsDown(world, before, key);
      var text := before.life[key].payload.text;
      ResultIdRoundTrip("", "", text);
      FinalEndIsFixed(world, before, after, DecodeResultId(text).value);
    }
  }

  /** Once the chain ends at a real task, or at a wrapper that failed or was cancelled, the id reads as the
      same task in every later state; and if that row has ended, as the very same result. */
  lemma ReadingIsFixed(world: World, provisioned: set<string>, events: seq<Event>, more: seq<Event>, key: TaskKey)
    requires Sound(world)
    requires var s := Run(world, Initial(provisioned), events);
      && ChainsEnd(world, s.store) && key in s.store.spawned
      && Final(s.store, ChainEnd(world, s.store, key))
    ensures var s := Run(world, Initial(provisioned), events);
      var later, id := Run(world, s, more), ResultId(key.queue, key.id);
      && ChainsEnd(world, later.store)
      && SameTask(GetResult(world, s.store, id), GetResult(world, later.store, id))
      && (Terminal(s.store.life[ChainEnd(world, s.store, key)].state) ==>
            GetResult(world, s.store, id) == GetResult(world, later.store, id))
  {
    var s := Run(world, Initial(provisioned), events);
    ReachableKeepsInv(world, provisioned, events);
    RunIsLater(world, s, more);
    InvChainsEnd(world, Run(world, s, more));
    assert RowOk(key, s.store.spawned[key]);
    FinalEndIsFixed(world, s.store, Run(world, s, more).store, key);
  }

  /*******************************************************************************
   *  When a reading is right for good
   *******************************************************************************/

  lemma HolderIsNearer(world: World, store: Store, key: TaskKey)
    requires StoreOk(store) && key in store.spawned && IsWrapper(store.spawned[key])
    ensures store.spawned[key].params.Deferral?
    ensures var holder := Holder(world, store, key);
      holder.Some? ==>
        && holder.value in store.spawned && holder.value.queue == key.queue
        && Distance(world, store.spawned[holder.value]) < Distance(world, store.spawned[key])
  {
    var row := store.spawned[key];
    assert RowOk(key, row);
    assert |DEFER_NAME_SUFFIX| == 10;
    if Holder(world, store, key).Some? {
      assert HolderOk(store, key.queue, WokenKey(world, row).value);
    }
  }

  /** The row at `key` reads as `call` from here on, whatever happens. A row that can never be read through,
      or whose own new row would be, must be for that call. A wrapper with a key must be for that call while
      it is read itself, and its key must be held by a row that reads as `call` from here on. */
  ghost predicate Steady(world: World, store: Store, call: Spawned, key: TaskKey)
    requires StoreOk(store) && key in store.spawned
    decreases Distance(world, store.spawned[key])
  {
    var row := store.spawned[key];
    if Final(store, key) || Target(row) !in world.registry then SameCall(call, row)
    else
      HolderIsNearer(world, store, key);
      if WokenKey(world, row).Unset? then SameCall(call, row)
      else
        && (ReadThrough(store, key) || SameCall(call, row))
        && var holder := Holder(world, store, key);
          holder.Some? && Steady(world, store, call, holder.value)
  }

  lemma {:induction false} SteadyStays(world: World, before: Store, after: Store, call: Spawned, key: TaskKey)
    requires StoreOk(before) && StoreOk(after) && Later(before, after)
    requires key in before.spawned && Steady(world, before, call, key)
    ensures key in after.spawned && Steady(world, after, call, key)
    decreases Distance(world, before.spawned[key])
  {
    var row := before.spawned[key];
    if !Final(before, key) && Target(row) in world.registry {
      HolderIsNearer(world, before, key);
      if WokenKey(world, row).Set? {
        SteadyStays(world, before, after, call, Holder(world, before, key).value);
      }
    }
  }

  lemma {:induction false} SteadyReads(world: World, s: System, call: Spawned, key: TaskKey)
    requires Sound(world) && Inv(world, s) && key in s.store.spawned && Steady(world, s.store, call, key)
    ensures ChainsEnd(world, s.store)
    ensures SameCall(call, s.store.spawned[ChainEnd(world, s.store, key)])
    decreases Distance(world, s.store.spawned[key])
  {
    InvChainsEnd(world, s);
    if ReadThrough(s.store, key) {
      var target := CompletedTarget(world, s, key);
      if WokenKey(world, s.store.spawned[key]).Unset? {
        UnkeyedEnd(world, s, key);
      } else {
        var holder := KeyedEnd(world, s, key);
        SteadyReads(world, s, call, holder);
      }
    }
  }

  /*******************************************************************************
   *  A reading that is not steady can be made wrong
   *******************************************************************************/

  lemma IdsAreBounded(keys: set<TaskKey>) returns (n: nat)
    ensures forall key | key in keys :: |key.id| <= n
  {
    n := 0;
    var left := keys;
    while left != {}
      invariant left <= keys && forall key | key in keys - left :: |key.id| <= n
    {
      var key :| key in left;
      n := if |key.id| < n then n else |key.id|;
      left := left - {key};
    }
  }

  lemma FreshIdExists(s: System) returns (id: string)
    ensures IsFresh(s, id)
  {
    var n := IdsAreBounded(s.store.spawned.Keys);
    id := seq(n + 1, _ => 'x');
  }

  /** The claim of a wrapper that has not ended. */
  function Claimed(world: World, s: System, key: TaskKey): System {
    Apply(world, s, StateEvent(key, Running, None))
  }

  lemma ClaimChangesOneLife(world: World, s: System, key: TaskKey)
    requires key in s.store.spawned && key in s.store.life && !Terminal(s.store.life[key].state)
    ensures var after := Claimed(world, s, key);
      && after.store == s.store.(life := after.store.life) && OnlyLivesDiffer(s.store, after.store, key)
      && after.checkpoints == s.checkpoints && after.clock == s.clock
      && key in after.store.life && after.store.life[key].state.Running?
  {
  }

  /** A claimed wrapper whose enqueue is checkpointed finishes at once. */
  lemma FinishCheckpointed(world: World, s: System, key: TaskKey)
    requires key in s.store.spawned && key in s.store.life && IsWrapper(s.store.spawned[key])
    requires s.store.life[key].state.Running? && key in s.checkpoints
    ensures var after := Apply(world, s, FinishEvent(key, JNull));
      && ReadThrough(after.store, key) && OnlyLivesDiffer(s.store, after.store, key)
      && after.store == s.store.(life := after.store.life)
  {
  }

  /** One that is due wakes, checkpoints and finishes; a held key brings back the row that holds it. */
  lemma FinishDue(world: World, s: System, key: TaskKey, freshId: string)
    requires Sound(world) && Inv(world, s) && CanWake(world, s, key) && IsFresh(s, freshId)
    ensures var after := Finished(world, s, key, freshId);
      && ReadThrough(after.store, key) && OnlyLivesDiffer(s.store, after.store, key)
      && (Holder(world, s.store, key).Some? ==> after.store == s.store.(life := after.store.life))
  {
    var woken := Wake(world, s, key, freshId);
    WokenTarget(world, s, key, freshId);
    WokenTargetOrder(world, s, key, freshId);
    FinishReadsThrough(world, woken, key);
    WakeAddsOnly(world, s, key, freshId);
    FinishChangesOneLife(world, woken, key);
    FinishKeepsKeys(world, woken, key);
  }

  lemma FinishKeepsKeys(world: World, s: System, key: TaskKey)
    ensures var after := Apply(world, Apply(world, s, CheckpointEvent(key)), FinishEvent(key, JNull));
      after.store == s.store.(life := after.store.life)
  {
  }

  /** A claimed wrapper, once it is due. */
  function Due(s: System, key: TaskKey): System
    requires key in s.store.spawned && s.store.spawned[key].params.Deferral?
  {
    var due := s.store.spawned[key].params.due;
    s.(clock := if s.clock < due then due else s.clock)
  }

  lemma DueCanWake(world: World, s: System, key: TaskKey)
    requires Inv(world, s) && key in s.store.spawned && IsWrapper(s.store.spawned[key])
    requires s.store.life[key].state.Running? && Target(s.store.spawned[key]) in world.registry
    requires s.store.spawned[key].params.Deferral? && key !in s.checkpoints
    ensures CanWake(world, Due(s, key), key) && Inv(world, Due(s, key))
    ensures Apply(world, s, TickEvent(Due(s, key).clock)) == Due(s, key)
  {
  }

  function WakeToFinish(key: TaskKey, id: string): seq<Event> {
    [WakeEvent(key, id), CheckpointEvent(key), FinishEvent(key, JNull)]
  }

  lemma WakesToFinish(world: World, s: System, key: TaskKey, id: string)
    requires CanWake(world, s, key) && IsFresh(s, id)
    ensures Run(world, s, WakeToFinish(key, id)) == Finished(world, s, key, id)
  {
    RunThree(world, s, WakeEvent(key, id), CheckpointEvent(key), FinishEvent(key, JNull));
  }

  lemma RunPrepends(world: World, s: System, event: Event, rest: seq<Event>)
    ensures Run(world, s, [event] + rest) == Run(world, Apply(world, s, event), rest)
  {
    RunAppends(world, s, [event], rest);
    RunOneMore(world, s, [], event);
    assert [] + [event] == [event];
  }

  /** A claimed wrapper can be brought to completion. */
  lemma CompleteClaimed(world: World, s: System, key: TaskKey) returns (events: seq<Event>)
    requires Sound(world) && Inv(world, s) && key in s.store.spawned && IsWrapper(s.store.spawned[key])
    requires s.store.life[key].state.Running? && Target(s.store.spawned[key]) in world.registry
    requires s.store.spawned[key].params.Deferral?
    ensures var after := Run(world, s, events);
      && ReadThrough(after.store, key) && OnlyLivesDiffer(s.store, after.store, key)
      && (Holder(world, s.store, key).Some? ==> after.store == s.store.(life := after.store.life))
  {
    if key in s.checkpoints {
      events := [FinishEvent(key, JNull)] + [];
      RunPrepends(world, s, FinishEvent(key, JNull), []);
      FinishCheckpointed(world, s, key);
    } else {
      var ready := Due(s, key);
      DueCanWake(world, s, key);
      var id := FreshIdExists(ready);
      events := [TickEvent(ready.clock)] + WakeToFinish(key, id);
      RunPrepends(world, s, TickEvent(ready.clock), WakeToFinish(key, id));
      WakesToFinish(world, ready, key, id);
      FinishDue(world, ready, key, id);
    }
  }

  /** A wrapper that has not failed and can still wake can be brought to completion; under a held key nothing
      else changes. */
  lemma Complete(world: World, s: System, key: TaskKey) returns (events: seq<Event>)
    requires Sound(world) && Inv(world, s) && key in s.store.spawned && IsWrapper(s.store.spawned[key])
    requires !Final(s.store, key) && Target(s.store.spawned[key]) in world.registry
    ensures s.store.spawned[key].params.Deferral?
    ensures var after := Run(world, s, events);
      && ReadThrough(after.store, key) && OnlyLivesDiffer(s.store, after.store, key)
      && (Holder(world, s.store, key).Some? ==> after.store == s.store.(life := after.store.life))
  {
    assert RowOk(key, s.store.spawned[key]);
    if ReadThrough(s.store, key) {
      events := [];
    } else {
      var claim := StateEvent(key, Running, None);
      ClaimChangesOneLife(world, s, key);
      ApplyKeepsInv(world, s, claim);
      var rest := CompleteClaimed(world, Claimed(world, s, key), key);
      events := [claim] + rest;
      RunPrepends(world, s, claim, rest);
    }
  }

  /** What a nearer row reads as does not turn on a farther row's life. */
  lemma {:induction false} SteadySame(world: World, before: Store, after: Store, call: Spawned, key: TaskKey, far: TaskKey)
    requires StoreOk(before) && StoreOk(after) && key in before.spawned && far in before.spawned
    requires after == before.(life := after.life) && OnlyLivesDiffer(before, after, far)
    requires Distance(world, before.spawned[key]) < Distance(world, before.spawned[far])
    ensures Steady(world, after, call, key) == Steady(world, before, call, key)
    decreases Distance(world, before.spawned[key])
  {
    var row := before.spawned[key];
    if !Final(before, key) && Target(row) in world.registry {
      HolderIsNearer(world, before, key);
      if WokenKey(world, row).Set? && Holder(world, before, key).Some? {
        SteadySame(world, before, after, call, Holder(world, before, key).value, far);
      }
    }
  }

  function KeyedTask(queue: string, alias: string, key: string): Task {
    Task(Func("f", None), queue, alias, None, true, Some(EMPTY.(idempotencyKey := Set(key))))
  }

  lemma KeyedPlan(backend: AbsurdBackend, queue: string, key: string, args: seq<Json>)
    ensures PlanSpawn(backend, KeyedTask(queue, backend.alias, key), args, map[])
            == SpawnRequest(queue, "f", Call(args, map[]),
                            EMPTY.(maxAttempts := Set(Some(backend.defaultMaxAttempts)), idempotencyKey := Set(key)))
  {
  }

  lemma EnqueueUnderKey(world: World, s: System, queue: string, key: string, args: seq<Json>, id: string)
    requires IsFresh(s, id) && EnqueueRefusal(world.backend, s.store, queue).None? && (queue, key) !in s.store.keyed
    ensures var after := Apply(world, s, EnqueueEvent(KeyedTask(queue, world.backend.alias, key), args, map[], id));
      var holder := TaskKey(queue, id);
      && (queue, key) in after.store.keyed && after.store.keyed[(queue, key)] == id
      && holder in after.store.spawned
      && after.store.spawned[holder].name == "f" && after.store.spawned[holder].params == Call(args, map[])
      && forall other | other in s.store.life && other.id != id :: other in after.store.life && after.store.life[other] == s.store.life[other]
  {
    KeyedPlan(world.backend, queue, key, args);
  }

  /** Under a free key anyone can enqueue a call of their own. */
  lemma TakeFreeKey(world: World, s: System, call: Spawned, key: TaskKey) returns (event: Event)
    requires StoreOk(s.store) && key in s.store.spawned && s.store.spawned[key].params.Deferral?
    requires EnqueueRefusal(world.backend, s.store, key.queue).None?
    requires WokenKey(world, s.store.spawned[key]).Set? && Holder(world, s.store, key).None?
    ensures var after := Apply(world, s, event);
      && Later(s.store, after.store) && after.store.life[key] == s.store.life[key]
      && var holder := Holder(world, after.store, key);
        && holder.Some? && holder.value in after.store.spawned
        && !IsWrapper(after.store.spawned[holder.value]) && !SameCall(call, after.store.spawned[holder.value])
  {
    var id := FreshIdExists(s);
    var free, args := WokenKey(world, s.store.spawned[key]).value, call.params.args + [JNull];
    var task := KeyedTask(key.queue, world.backend.alias, free);
    event := EnqueueEvent(task, args, map[], id);
    EnqueueIsLater(world, s, task, args, map[], id);
    EnqueueUnderKey(world, s, key.queue, free, args, id);
    assert !EndsWith("f", DEFER_NAME_SUFFIX);
  }

  /** The chain from a row ends at a row for another call. */
  ghost predicate Broken(world: World, store: Store, call: Spawned, key: TaskKey) {
    && ChainsEnd(world, store) && key in store.spawned
    && !SameCall(call, store.spawned[ChainEnd(world, store, key)])
  }

  /** A wrapper that can still be read through, to a row under a key. */
  predicate LeadsOn(world: World, store: Store, key: TaskKey) {
    && key in store.spawned && IsWrapper(store.spawned[key]) && store.spawned[key].params.Deferral?
    && !Final(store, key)
    && Target(store.spawned[key]) in world.registry && WokenKey(world, store.spawned[key]).Set?
  }

  lemma ChainGoesOn(world: World, done: System, later: System, call: Spawned, key: TaskKey, holder: TaskKey)
    requires Sound(world) && Inv(world, later) && Later(done.store, later.store)
    requires ReadThrough(done.store, key) && LeadsOn(world, done.store, key)
    requires Holder(world, done.store, key) == Some(holder) && Broken(world, later.store, call, holder)
    ensures Broken(world, later.store, call, key)
  {
    assert ReadThrough(later.store, key);
    var next := KeyedEnd(world, later, key);
  }

  /** Where a reading is not steady, some run ends the chain at a row for another call. */
  lemma {:induction false} Breaks(world: World, s: System, call: Spawned, key: TaskKey) returns (events: seq<Event>)
    requires Sound(world) && Inv(world, s) && key in s.store.spawned && !Steady(world, s.store, call, key)
    ensures Broken(world, Run(world, s, events).store, call, key)
    decreases Distance(world, s.store.spawned[key]), 2
  {
    InvChainsEnd(world, s);
    if IsWrapper(s.store.spawned[key]) {
      HolderIsNearer(world, s.store, key);
    }
    events := [];
    if LeadsOn(world, s.store, key) {
      if ReadThrough(s.store, key) || SameCall(call, s.store.spawned[key]) {
        if Holder(world, s.store, key).None? {
          events := BreaksFree(world, s, call, key);
        } else {
          events := BreaksHeld(world, s, call, key);
        }
      }
    } else if ReadThrough(s.store, key) {
      var target := CompletedTarget(world, s, key);
      UnkeyedEnd(world, s, key);
    }
  }

  /** By taking the key first, so that it is held by a row for another call. */
  lemma {:induction false} BreaksFree(world: World, s: System, call: Spawned, key: TaskKey) returns (events: seq<Event>)
    requires Sound(world) && Inv(world, s) && LeadsOn(world, s.store, key) && Holder(world, s.store, key).None?
    ensures Broken(world, Run(world, s, events).store, call, key)
    decreases Distance(world, s.store.spawned[key]), 1
  {
    var event := TakeFreeKey(world, s, call, key);
    ApplyKeepsInv(world, s, event);
    var rest := BreaksHeld(world, Apply(world, s, event), call, key);
    events := [event] + rest;
    RunPrepends(world, s, event, rest);
  }

  lemma StillLeadsOn(world: World, before: Store, after: Store, key: TaskKey)
    requires LeadsOn(world, before, key) && after == before.(life := after.life) && ReadThrough(after, key)
    ensures LeadsOn(world, after, key) && Holder(world, after, key) == Holder(world, before, key)
  {
  }

  /** Completing a wrapper whose key is held leaves what the holder reads as where it was. */
  lemma CompleteHeld(world: World, s: System, call: Spawned, key: TaskKey, holder: TaskKey) returns (events: seq<Event>)
    requires Sound(world) && Inv(world, s) && LeadsOn(world, s.store, key)
    requires Holder(world, s.store, key) == Some(holder) && holder in s.store.spawned
    requires !Steady(world, s.store, call, holder)
    ensures var done := Run(world, s, events);
      && Inv(world, done) && done.store.spawned == s.store.spawned
      && ReadThrough(done.store, key) && LeadsOn(world, done.store, key)
      && Holder(world, done.store, key) == Some(holder)
      && !Steady(world, done.store, call, holder)
  {
    HolderIsNearer(world, s.store, key);
    events := Complete(world, s, key);
    var done := Run(world, s, events);
    RunIsLater(world, s, events);
    StillLeadsOn(world, s.store, done.store, key);
    SteadySame(world, s.store, done.store, call, holder, key);
  }

  /** By completing the wrapper, and then breaking what its key's holder reads as. */
  lemma {:induction false} BreaksHeld(world: World, s: System, call: Spawned, key: TaskKey) returns (events: seq<Event>)
    requires Sound(world) && Inv(world, s) && LeadsOn(world, s.store, key)
    requires var holder := Holder(world, s.store, key);
      holder.Some? && holder.value in s.store.spawned && !Steady(world, s.store, call, holder.value)
    ensures Broken(world, Run(world, s, events).store, call, key)
    decreases Distance(world, s.store.spawned[key]), 0
  {
    var holder := Holder(world, s.store, key).value;
    HolderIsNearer(world, s.store, key);
    var first := CompleteHeld(world, s, call, key, holder);
    var done := Run(world, s, first);
    var rest := Breaks(world, done, call, holder);
    RunIsLater(world, done, rest);
    events := first + rest;
    RunAppends(world, s, first, rest);
    ChainGoesOn(world, done, Run(world, done, rest), call, key, holder);
  }

  /** What makes a deferral's id read as its own call for good. */
  ghost predicate RightForGood(world: World, s: System, wrapper: TaskKey)
    requires StoreOk(s.store) && wrapper in s.store.spawned
  {
    && wrapper.queue in world.backend.queues
    && Target(s.store.spawned[wrapper]) in world.registry
    && Steady(world, s.store, s.store.spawned[wrapper], wrapper)
  }

  lemma EndDecides(world: World, s: System, wrapper: TaskKey)
    requires Sound(world) && Inv(world, s) && wrapper in s.store.spawned && IsWrapper(s.store.spawned[wrapper])
    ensures ChainsEnd(world, s.store)
    ensures ReadsAt(world, s.store, wrapper)
            <==> && wrapper.queue in world.backend.queues
                 && Target(s.store.spawned[wrapper]) in world.registry
                 && SameCall(s.store.spawned[wrapper], s.store.spawned[ChainEnd(world, s.store, wrapper)])
  {
    InvChainsEnd(world, s);
    assert RowOk(wrapper, s.store.spawned[wrapper]);
    ResultIsTheEnds(world, s.store, wrapper);
  }

  lemma SteadyReadsOn(world: World, s: System, wrapper: TaskKey, more: seq<Event>)
    requires Sound(world) && Inv(world, s) && wrapper in s.store.spawned && IsWrapper(s.store.spawned[wrapper])
    requires RightForGood(world, s, wrapper)
    ensures ReadsAt(world, Run(world, s, more).store, wrapper)
  {
    var row, later := s.store.spawned[wrapper], Run(world, s, more);
    RunIsLater(world, s, more);
    SteadyStays(world, s.store, later.store, row, wrapper);
    SteadyReads(world, later, row, wrapper);
    EndDecides(world, later, wrapper);
  }

  lemma SomeRunReadsOtherwise(world: World, s: System, wrapper: TaskKey) returns (more: seq<Event>)
    requires Sound(world) && Inv(world, s) && wrapper in s.store.spawned && IsWrapper(s.store.spawned[wrapper])
    requires !RightForGood(world, s, wrapper)
    ensures !ReadsAt(world, Run(world, s, more).store, wrapper)
  {
    more := [];
    if Steady(world, s.store, s.store.spawned[wrapper], wrapper) {
      EndDecides(world, s, wrapper);
    } else {
      more := Breaks(world, s, s.store.spawned[wrapper], wrapper);
      RunIsLater(world, s, more);
      EndDecides(world, Run(world, s, more), wrapper);
    }
  }

  lemma ReadsForLife(world: World, s: System, wrapper: TaskKey)
    requires Sound(world) && Inv(world, s) && wrapper in s.store.spawned && IsWrapper(s.store.spawned[wrapper])
    ensures (forall more :: ReadsAt(world, Run(world, s, more).store, wrapper)) <==> RightForGood(world, s, wrapper)
  {
    if RightForGood(world, s, wrapper) {
      forall more ensures ReadsAt(world, Run(world, s, more).store, wrapper) {
        SteadyReadsOn(world, s, wrapper, more);
      }
    } else {
      var more := SomeRunReadsOtherwise(world, s, wrapper);
    }
  }

  /** In every reachable state: a deferral's id reads as its own call now and in every later state, if and only
      if the backend declares its queue, its task is importable, and its row is steady. */
  lemma DeferralReadsForLife(world: World, provisioned: set<string>, events: seq<Event>, wrapper: TaskKey)
    requires Sound(world)
    requires var store := Run(world, Initial(provisioned), events).store;
      wrapper in store.spawned && IsWrapper(store.spawned[wrapper])
    ensures var s := Run(world, Initial(provisioned), events);
      && StoreOk(s.store)
      && ((forall more :: ReadsAt(world, Run(world, s, more).store, wrapper)) <==> RightForGood(world, s, wrapper))
  {
    ReachableKeepsInv(world, provisioned, events);
    ReadsForLife(world, Run(world, Initial(provisioned), events), wrapper);
  }
}
