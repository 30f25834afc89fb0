/** Where deferral does not keep its promise, shown on runs from an empty store, and the exact condition
    for reading a deferred result to end. */
module DeferralLimits {
  import opened Wrappers
  import opened SpawnOptions
  import opened Text
  import opened Backend
  import opened DeferredRuns
  import opened Results
  import opened Readings

  const BACKEND := AbsurdBackend("default", "db", {"q"}, 5)
  const DEFINITION := Declare(Func("m.f", None), "q", "default", true)
  const WORLD := World(BACKEND, map["m.f" := DEFINITION])
  const WRAPPER := TaskKey("q", "2")

  const KEYED := ApplyRebuild(DEFINITION, Bind(EMPTY.(idempotencyKey := Set("k"))))

  function Deferred(task: Task): Task {
    ApplyRebuild(task, Using(Unset, Unset, Set(Some(0))))
  }

  /*******************************************************************************
   *  A deferred id that reads as another call
   *******************************************************************************/

  const FIRST := TaskKey("q", "1")
  const PENDING := Life(Pending, JNull, None, None)
  const OPTIONS := EMPTY.(maxAttempts := Set(Some(5)), idempotencyKey := Set("k"))
  const WRAPPER_OPTIONS := EMPTY.(maxAttempts := Set(Some(5)), idempotencyKey := Set("k" + DEFER_NAME_SUFFIX))

  const CALL_ROW := Spawned("m.f", Call([JNumber(1.0)], map[]), OPTIONS, 0, 0)
  const WRAPPER_ROW := Spawned("m.f" + DEFER_NAME_SUFFIX, Deferral([JNumber(2.0)], map[], "q", OPTIONS, 0), WRAPPER_OPTIONS, 1, 0)

  /** m.f(1) at once and m.f(2) deferred, under one key; the deferral is then claimed. */
  const TWO_CALLS: seq<Event> := [
    EnqueueEvent(KEYED, [JNumber(1.0)], map[], "1"),
    EnqueueEvent(Deferred(KEYED), [JNumber(2.0)], map[], "2"),
    StateEvent(WRAPPER, Running, None)]

  const ONE_ROW := Store({"q"}, map[FIRST := CALL_ROW], map[FIRST := PENDING], map[("q", "k") := "1"])
  const TWO_ROWS := Store({"q"}, map[FIRST := CALL_ROW, WRAPPER := WRAPPER_ROW], map[FIRST := PENDING, WRAPPER := PENDING],
                          map[("q", "k") := "1", ("q", "k" + DEFER_NAME_SUFFIX) := "2"])
  const CLAIMED := TWO_ROWS.(life := TWO_ROWS.life[WRAPPER := RUNNING_LIFE])

  function Quiet(store: Store): System {
    System(store, 0, map[], map[])
  }

  lemma FirstCall()
    ensures Apply(WORLD, Initial({"q"}), TWO_CALLS[0]) == Quiet(ONE_ROW)
  {
    assert EffectiveOptions(KEYED, 5) == OPTIONS;
  }

  lemma SecondCall()
    ensures Apply(WORLD, Quiet(ONE_ROW), TWO_CALLS[1]) == Quiet(TWO_ROWS)
  {
    assert EffectiveOptions(Deferred(KEYED), 5) == OPTIONS;
    assert |ONE_ROW.spawned| == 1;
    assert "k" + DEFER_NAME_SUFFIX != "k";
  }

  lemma Claim()
    ensures Apply(WORLD, Quiet(TWO_ROWS), TWO_CALLS[2]) == Quiet(CLAIMED)
  {
  }

  lemma AfterTwoCalls()
    ensures Run(WORLD, Initial({"q"}), TWO_CALLS) == Quiet(CLAIMED)
  {
    RunThree(WORLD, Initial({"q"}), TWO_CALLS[0], TWO_CALLS[1], TWO_CALLS[2]);
    FirstCall();
    SecondCall();
    Claim();
  }

  lemma TheWrapperCanWake()
    ensures Sound(WORLD) && CanWake(WORLD, Quiet(CLAIMED), WRAPPER) && IsFresh(Quiet(CLAIMED), "3")
    ensures EnqueueRefusal(BACKEND, CLAIMED, "q").None?
    ensures Holder(WORLD, CLAIMED, WRAPPER) == Some(FIRST)
    ensures Target(WRAPPER_ROW) == "m.f" && IsWrapper(WRAPPER_ROW) && !IsWrapper(CALL_ROW)
  {
    SuffixRoundTrip("m.f", DEFER_NAME_SUFFIX);
  }

  /** From an empty store: the id of the deferred m.f(2) ends up reading as m.f(1). */
  lemma AnotherCallIsRead()
    ensures Sound(WORLD)
    ensures var s := Run(WORLD, Initial({"q"}), TWO_CALLS);
      && CanWake(WORLD, s, WRAPPER)
      && var done := Finished(WORLD, s, WRAPPER, "3");
        && ChainsEnd(WORLD, done.store)
        && var r := GetResult(WORLD, done.store, ResultId("q", "2"));
          r.Success? && s.store.spawned[WRAPPER].params.args == [JNumber(2.0)] && r.value.args == [JNumber(1.0)]
  {
    AfterTwoCalls();
    TheWrapperCanWake();
    var s := Quiet(CLAIMED);
    ReachableKeepsInv(WORLD, {"q"}, TWO_CALLS);
    FinishedKeepsInv(WORLD, s, WRAPPER, "3");
    FinishedChain(WORLD, s, WRAPPER, "3");
    assert !ReadThrough(CLAIMED, FIRST) && ChainEnd(WORLD, CLAIMED, FIRST) == FIRST;
    ResultIsTheEnds(WORLD, Finished(WORLD, s, WRAPPER, "3").store, WRAPPER);
  }

  lemma EarlierHolderIsReachable()
    ensures Sound(WORLD)
    ensures var s := Run(WORLD, Initial({"q"}), TWO_CALLS);
      && CanWake(WORLD, s, WRAPPER) && HeldByEarlierRow(WORLD, s.store, WRAPPER)
      && ChainsEnd(WORLD, s.store) && !KeyServesTheCall(WORLD, s.store, WRAPPER)
  {
    AfterTwoCalls();
    TheWrapperCanWake();
    ReachableChainsEnd(WORLD, {"q"}, TWO_CALLS);
    assert !ReadThrough(CLAIMED, FIRST) && ChainEnd(WORLD, CLAIMED, FIRST) == FIRST;
  }

  /*******************************************************************************
   *  A reading that is right at first
   *******************************************************************************/

  const OUTER_KEYED := ApplyRebuild(DEFINITION, Bind(EMPTY.(idempotencyKey := Set("k" + DEFER_NAME_SUFFIX))))
  const OUTER_OPTIONS := EMPTY.(maxAttempts := Set(Some(5)), idempotencyKey := Set("k" + DEFER_NAME_SUFFIX + DEFER_NAME_SUFFIX))

  const INNER_ROW := WRAPPER_ROW.(order := 0)
  const OTHER_ROW := CALL_ROW.(order := 1)
  const OUTER_ROW := Spawned("m.f" + DEFER_NAME_SUFFIX, Deferral([JNumber(2.0)], map[], "q", WRAPPER_OPTIONS, 0), OUTER_OPTIONS, 2, 0)

  /** m.f(2) deferred under "k"; m.f(1) at once under "k"; m.f(2) deferred under the key of the first wrapper,
      which is then claimed. */
  const CHAINED: seq<Event> := [
    EnqueueEvent(Deferred(KEYED), [JNumber(2.0)], map[], "1"),
    EnqueueEvent(KEYED, [JNumber(1.0)], map[], "2"),
    EnqueueEvent(Deferred(OUTER_KEYED), [JNumber(2.0)], map[], "3"),
    StateEvent(THIRD, Running, None)]

  const INNER_ONLY := Store({"q"}, map[FIRST := INNER_ROW], map[FIRST := PENDING], map[("q", "k" + DEFER_NAME_SUFFIX) := "1"])
  const INNER_AND_OTHER := Store({"q"}, map[FIRST := INNER_ROW, WRAPPER := OTHER_ROW], map[FIRST := PENDING, WRAPPER := PENDING],
                                 map[("q", "k" + DEFER_NAME_SUFFIX) := "1", ("q", "k") := "2"])
  const ALL_THREE := Store({"q"}, map[FIRST := INNER_ROW, WRAPPER := OTHER_ROW, THIRD := OUTER_ROW],
                           map[FIRST := PENDING, WRAPPER := PENDING, THIRD := PENDING],
                           map[("q", "k" + DEFER_NAME_SUFFIX) := "1", ("q", "k") := "2",
                               ("q", "k" + DEFER_NAME_SUFFIX + DEFER_NAME_SUFFIX) := "3"])
  const OUTER_CLAIMED := ALL_THREE.(life := ALL_THREE.life[THIRD := RUNNING_LIFE])

  lemma InnerDeferral()
    ensures Apply(WORLD, Initial({"q"}), CHAINED[0]) == Quiet(INNER_ONLY)
  {
    assert EffectiveOptions(Deferred(KEYED), 5) == OPTIONS;
  }

  lemma OtherCall()
    ensures Apply(WORLD, Quiet(INNER_ONLY), CHAINED[1]) == Quiet(INNER_AND_OTHER)
  {
    assert EffectiveOptions(KEYED, 5) == OPTIONS;
    assert |INNER_ONLY.spawned| == 1;
    assert |"k" + DEFER_NAME_SUFFIX| != |"k"|;
  }

  lemma OuterDeferral()
    ensures Apply(WORLD, Quiet(INNER_AND_OTHER), CHAINED[2]) == Quiet(ALL_THREE)
  {
    assert EffectiveOptions(Deferred(OUTER_KEYED), 5) == WRAPPER_OPTIONS;
    assert |INNER_AND_OTHER.spawned| == 2;
    var key := "k" + DEFER_NAME_SUFFIX + DEFER_NAME_SUFFIX;
    assert |key| == 21 && |"k" + DEFER_NAME_SUFFIX| == 11;
  }

  lemma OuterClaim()
    ensures Apply(WORLD, Quiet(ALL_THREE), CHAINED[3]) == Quiet(OUTER_CLAIMED)
  {
  }

  lemma AfterChained()
    ensures Run(WORLD, Initial({"q"}), CHAINED) == Quiet(OUTER_CLAIMED)
  {
    var s0 := Initial({"q"});
    RunThree(WORLD, s0, CHAINED[0], CHAINED[1], CHAINED[2]);
    RunOneMore(WORLD, s0, [CHAINED[0], CHAINED[1], CHAINED[2]], CHAINED[3]);
    assert CHAINED == [CHAINED[0], CHAINED[1], CHAINED[2]] + [CHAINED[3]];
    InnerDeferral();
    OtherCall();
    OuterDeferral();
    OuterClaim();
  }

  lemma TheOuterServesItsCall()
    ensures Sound(WORLD) && CanWake(WORLD, Quiet(OUTER_CLAIMED), THIRD) && IsFresh(Quiet(OUTER_CLAIMED), "4")
    ensures Holder(WORLD, OUTER_CLAIMED, THIRD) == Some(FIRST) && Holder(WORLD, OUTER_CLAIMED, FIRST) == Some(WRAPPER)
    ensures SameCall(OUTER_ROW, INNER_ROW) && IsWrapper(INNER_ROW) && Target(INNER_ROW) == "m.f" && !IsWrapper(OTHER_ROW)
  {
    SuffixRoundTrip("m.f", DEFER_NAME_SUFFIX);
    assert |"k" + DEFER_NAME_SUFFIX| != |"k"|;
  }

  lemma FinishTouchesOneCheckpoint(world: World, s: System, wrapper: TaskKey, freshId: string)
    requires CanWake(world, s, wrapper)
    ensures var done := Finished(world, s, wrapper, freshId);
      done.clock == s.clock && done.checkpoints.Keys <= s.checkpoints.Keys + {wrapper}
  {
  }

  /** A wrapper that finishes under a held key leaves every other row's life and checkpoint alone. */
  lemma FinishLeavesOthers(world: World, s: System, wrapper: TaskKey, freshId: string, other: TaskKey)
    requires Sound(world) && Inv(world, s) && CanWake(world, s, wrapper) && IsFresh(s, freshId)
    requires Holder(world, s.store, wrapper).Some? && other != wrapper && other in s.store.life && other !in s.checkpoints
    ensures var done := Finished(world, s, wrapper, freshId);
      && done.store == s.store.(life := done.store.life) && ReadThrough(done.store, wrapper)
      && other in done.store.life && done.store.life[other] == s.store.life[other]
      && other !in done.checkpoints && done.clock == s.clock
  {
    FinishDue(world, s, wrapper, freshId);
    FinishTouchesOneCheckpoint(world, s, wrapper, freshId);
  }

  lemma ChainedKeepsInv()
    ensures Inv(WORLD, Quiet(OUTER_CLAIMED)) && ChainsEnd(WORLD, OUTER_CLAIMED)
  {
    AfterChained();
    TheOuterServesItsCall();
    ReachableKeepsInv(WORLD, {"q"}, CHAINED);
    InvChainsEnd(WORLD, Quiet(OUTER_CLAIMED));
  }

  lemma TheKeyServes()
    ensures ChainsEnd(WORLD, OUTER_CLAIMED) && KeyServesTheCall(WORLD, OUTER_CLAIMED, THIRD)
  {
    ChainedKeepsInv();
    TheOuterServesItsCall();
    assert !ReadThrough(OUTER_CLAIMED, FIRST) && ChainEnd(WORLD, OUTER_CLAIMED, FIRST) == FIRST;
  }

  /** The deferred m.f(2) finishes, and reads as its own call. */
  lemma OuterFinishes(s: System)
    requires Inv(WORLD, s) && ChainsEnd(WORLD, s.store) && THIRD in s.store.spawned && s.store.spawned[THIRD].params.Deferral?
    requires Sound(WORLD) && CanWake(WORLD, s, THIRD) && IsFresh(s, "4") && KeyServesTheCall(WORLD, s.store, THIRD)
    ensures ReadsAt(WORLD, Finished(WORLD, s, THIRD, "4").store, THIRD)
  {
    FinishedReads(WORLD, s, THIRD, "4");
    FinishDue(WORLD, s, THIRD, "4");
  }

  predicate OuterIsDone(done: System) {
    && done.store == OUTER_CLAIMED.(life := done.store.life)
    && ReadThrough(done.store, THIRD) && FIRST in done.store.life && FIRST !in done.checkpoints && done.clock == 0
  }

  lemma OuterLeavesTheInner()
    ensures CanWake(WORLD, Quiet(OUTER_CLAIMED), THIRD)
    ensures var done := Finished(WORLD, Quiet(OUTER_CLAIMED), THIRD, "4");
      OuterIsDone(done) && done.store.life[FIRST] == PENDING
  {
    ChainedKeepsInv();
    TheOuterServesItsCall();
    FinishLeavesOthers(WORLD, Quiet(OUTER_CLAIMED), THIRD, "4", FIRST);
  }

  lemma InnerIsClaimed(done: System)
    requires OuterIsDone(done) && done.store.life[FIRST] == PENDING
    ensures var claimed := Apply(WORLD, done, StateEvent(FIRST, Running, None));
      OuterIsDone(claimed) && CanWake(WORLD, claimed, FIRST) && IsFresh(claimed, "4")
  {
    TheOuterServesItsCall();
    ClaimChangesOneLife(WORLD, done, FIRST);
  }

  lemma InnerIsDone(claimed: System)
    requires Inv(WORLD, claimed)
    requires OuterIsDone(claimed) && CanWake(WORLD, claimed, FIRST) && IsFresh(claimed, "4")
    ensures var store := Finished(WORLD, claimed, FIRST, "4").store;
      store == OUTER_CLAIMED.(life := store.life) && ReadThrough(store, THIRD) && ReadThrough(store, FIRST)
  {
    TheOuterServesItsCall();
    FinishDue(WORLD, claimed, FIRST, "4");
  }

  lemma InnerFinishes(claimed: System)
    requires Inv(WORLD, claimed)
    requires OuterIsDone(claimed) && CanWake(WORLD, claimed, FIRST) && IsFresh(claimed, "4")
    ensures var store := Finished(WORLD, claimed, FIRST, "4").store;
      && store.spawned == OUTER_CLAIMED.spawned && ChainsEnd(WORLD, store)
      && var r := GetResult(WORLD, store, ResultId("q", "3")); r.Success? && r.value.args == [JNumber(1.0)]
  {
    InnerIsDone(claimed);
    FinishedKeepsInv(WORLD, claimed, FIRST, "4");
    ReadsTheOther(Finished(WORLD, claimed, FIRST, "4"));
  }

  lemma ReadsTheOther(s: System)
    requires Inv(WORLD, s) && s.store.spawned == OUTER_CLAIMED.spawned && s.store.keyed == OUTER_CLAIMED.keyed
    requires ReadThrough(s.store, THIRD) && ReadThrough(s.store, FIRST)
    ensures ChainsEnd(WORLD, s.store)
    ensures var r := GetResult(WORLD, s.store, ResultId("q", "3")); r.Success? && r.value.args == [JNumber(1.0)]
  {
    TheOuterServesItsCall();
    var inner := KeyedEnd(WORLD, s, THIRD);
    var other := KeyedEnd(WORLD, s, FIRST);
    assert ChainEnd(WORLD, s.store, other) == other == WRAPPER;
    ResultIsTheEnds(WORLD, s.store, THIRD);
  }

  /** From an empty store: the id of the deferred m.f(2) reads as its own call when it finishes, and as m.f(1)
      once the wrapper it landed on has woken in its turn. */
  lemma ReadingCanChange()
    ensures Sound(WORLD)
    ensures var s := Run(WORLD, Initial({"q"}), CHAINED);
      && CanWake(WORLD, s, THIRD) && ChainsEnd(WORLD, s.store) && KeyServesTheCall(WORLD, s.store, THIRD)
      && var done := Finished(WORLD, s, THIRD, "4");
        && ReadsAt(WORLD, done.store, THIRD)
        && var claimed := Apply(WORLD, done, StateEvent(FIRST, Running, None));
          && CanWake(WORLD, claimed, FIRST)
          && var store := Finished(WORLD, claimed, FIRST, "4").store;
            && ChainsEnd(WORLD, store) && THIRD in store.spawned && store.spawned[THIRD].params.args == [JNumber(2.0)]
            && var r := GetResult(WORLD, store, ResultId("q", "3"));
              r.Success? && r.value.args == [JNumber(1.0)]
  {
    AfterChained();
    TheOuterServesItsCall();
    ChainedKeepsInv();
    TheKeyServes();
    OuterFinishes(Quiet(OUTER_CLAIMED));
    OuterLeavesTheInner();
    var done := Finished(WORLD, Quiet(OUTER_CLAIMED), THIRD, "4");
    InnerIsClaimed(done);
    FinishedKeepsInv(WORLD, Quiet(OUTER_CLAIMED), THIRD, "4");
    ApplyKeepsInv(WORLD, done, StateEvent(FIRST, Running, None));
    InnerFinishes(Apply(WORLD, done, StateEvent(FIRST, Running, None)));
  }

  /*******************************************************************************
   *  A crash that makes two target rows
   *******************************************************************************/

  const CLAIMED_UNKEYED: seq<Event> := [
    EnqueueEvent(Deferred(DEFINITION), [JNumber(2.0)], map[], "2"),
    StateEvent(WRAPPER, Running, None)]

  const UNKEYED_ROW := Spawned("m.f" + DEFER_NAME_SUFFIX, Deferral([JNumber(2.0)], map[], "q", EMPTY.(maxAttempts := Set(Some(5))), 0),
                               EMPTY.(maxAttempts := Set(Some(5))), 0, 0)

  lemma UnkeyedCall()
    ensures Apply(WORLD, Initial({"q"}), CLAIMED_UNKEYED[0])
            == Quiet(Store({"q"}, map[WRAPPER := UNKEYED_ROW], map[WRAPPER := PENDING], map[]))
  {
    assert EffectiveOptions(Deferred(DEFINITION), 5) == EMPTY.(maxAttempts := Set(Some(5)));
  }

  lemma UnkeyedClaim()
    ensures Apply(WORLD, Quiet(Store({"q"}, map[WRAPPER := UNKEYED_ROW], map[WRAPPER := PENDING], map[])), CLAIMED_UNKEYED[1])
            == Quiet(Store({"q"}, map[WRAPPER := UNKEYED_ROW], map[WRAPPER := RUNNING_LIFE], map[]))
  {
  }

  lemma AfterClaim()
    ensures Run(WORLD, Initial({"q"}), CLAIMED_UNKEYED)
            == Quiet(Store({"q"}, map[WRAPPER := UNKEYED_ROW], map[WRAPPER := RUNNING_LIFE], map[]))
    ensures Target(UNKEYED_ROW) == "m.f" && IsWrapper(UNKEYED_ROW)
  {
    RunTwo(WORLD, Initial({"q"}), CLAIMED_UNKEYED[0], CLAIMED_UNKEYED[1]);
    UnkeyedCall();
    UnkeyedClaim();
    SuffixRoundTrip("m.f", DEFER_NAME_SUFFIX);
  }

  const THIRD := TaskKey("q", "3")
  const FOURTH := TaskKey("q", "4")
  const RUNNING_LIFE := Life(Running, JNull, Some(0), None)

  function TargetRow(order: nat): Spawned {
    Spawned("m.f", Call([JNumber(2.0)], map[]), EMPTY.(maxAttempts := Set(Some(5))), order, 0)
  }

  const ONE_TARGET := Store({"q"}, map[WRAPPER := UNKEYED_ROW, THIRD := TargetRow(1)],
                            map[WRAPPER := RUNNING_LIFE, THIRD := PENDING], map[])
  const TWO_TARGETS := Store({"q"}, map[WRAPPER := UNKEYED_ROW, THIRD := TargetRow(1), FOURTH := TargetRow(2)],
                             map[WRAPPER := RUNNING_LIFE, THIRD := PENDING, FOURTH := PENDING], map[])

  lemma TheCallIsAskedFor()
    ensures var task := WakeTask(DEFINITION, UNKEYED_ROW.params);
      PlanSpawn(BACKEND, task, [JNumber(2.0)], map[])
      == SpawnRequest("q", "m.f", Call([JNumber(2.0)], map[]), EMPTY.(maxAttempts := Set(Some(5))))
  {
  }

  lemma FirstWake()
    ensures var s := Quiet(Store({"q"}, map[WRAPPER := UNKEYED_ROW], map[WRAPPER := RUNNING_LIFE], map[]));
      Apply(WORLD, s, WakeEvent(WRAPPER, "3")) == Quiet(ONE_TARGET).(awaiting := map[WRAPPER := ResultId("q", "3")])
  {
    SuffixRoundTrip("m.f", DEFER_NAME_SUFFIX);
    TheCallIsAskedFor();
    var rows := map[WRAPPER := UNKEYED_ROW];
    assert |rows| == 1;
  }

  lemma SecondWake()
    ensures Apply(WORLD, Quiet(ONE_TARGET), WakeEvent(WRAPPER, "4"))
            == Quiet(TWO_TARGETS).(awaiting := map[WRAPPER := ResultId("q", "4")])
  {
    SuffixRoundTrip("m.f", DEFER_NAME_SUFFIX);
    TheCallIsAskedFor();
    assert |ONE_TARGET.spawned| == 2;
  }

  const CRASHED: seq<Event> := CLAIMED_UNKEYED + [WakeEvent(WRAPPER, "3")] + [CrashEvent(WRAPPER)] + [WakeEvent(WRAPPER, "4")]

  lemma AfterCrash()
    ensures Run(WORLD, Initial({"q"}), CRASHED) == Quiet(TWO_TARGETS).(awaiting := map[WRAPPER := ResultId("q", "4")])
  {
    var s0 := Initial({"q"});
    AfterClaim();
    RunOneMore(WORLD, s0, CLAIMED_UNKEYED, WakeEvent(WRAPPER, "3"));
    RunOneMore(WORLD, s0, CLAIMED_UNKEYED + [WakeEvent(WRAPPER, "3")], CrashEvent(WRAPPER));
    RunOneMore(WORLD, s0, CLAIMED_UNKEYED + [WakeEvent(WRAPPER, "3")] + [CrashEvent(WRAPPER)], WakeEvent(WRAPPER, "4"));
    FirstWake();
    SecondWake();
    assert map[WRAPPER := ResultId("q", "3")] - {WRAPPER} == map[];
  }

  /** From an empty store, one deferral: its attempt dies between the enqueue and the checkpoint, the next
      attempt enqueues again, and two rows stand for the one call. */
  lemma CrashMakesTwoTargets()
    ensures Sound(WORLD)
    ensures var spawned := Run(WORLD, Initial({"q"}), CRASHED).store.spawned;
      && spawned.Keys == {WRAPPER, THIRD, FOURTH} && THIRD != FOURTH && spawned[WRAPPER].params.Deferral?
      && IsTheCall(spawned[WRAPPER], spawned[THIRD]) && IsTheCall(spawned[WRAPPER], spawned[FOURTH])
  {
    AfterCrash();
    AfterClaim();
  }

  /*******************************************************************************
   *  A deferred definition
   *******************************************************************************/

  function LoopTask(world: World, queue: string, path: string): Task
    requires path in world.registry
  {
    Task(world.registry[path].func, queue, world.backend.alias, Some(0), true, Some(EMPTY.(idempotencyKey := Set("k"))))
  }

  function LoopOptions(world: World): SpawnKwargs {
    EMPTY.(maxAttempts := Set(Some(world.backend.defaultMaxAttempts)), idempotencyKey := Set("k"))
  }

  function LoopRow(world: World, queue: string, path: string): Spawned {
    Spawned(path + DEFER_NAME_SUFFIX, Deferral([], map[], queue, LoopOptions(world), 0),
            LoopOptions(world).(idempotencyKey := WrapperKey(Set("k"))), 0, 0)
  }

  function LoopStore(world: World, provisioned: set<string>, queue: string, path: string, life: Life): Store {
    var key := TaskKey(queue, "1");
    Store(provisioned, map[key := LoopRow(world, queue, path)], map[key := life],
          map[(queue, "k" + DEFER_NAME_SUFFIX) := "1"])
  }

  /** One keyed deferral is enqueued, claimed, wakes, checkpoints and finishes. */
  function LoopRun(world: World, queue: string, path: string): seq<Event>
    requires path in world.registry
  {
    var key := TaskKey(queue, "1");
    [EnqueueEvent(LoopTask(world, queue, path), [], map[], "1")] + [StateEvent(key, Running, None)]
    + [WakeEvent(key, "2")] + [CheckpointEvent(key)] + [FinishEvent(key, JNull)]
  }

  lemma LoopWakes(world: World, provisioned: set<string>, queue: string, path: string)
    requires Importable(world) && path in world.registry && world.registry[path].runAfter.Some?
    requires queue in provisioned && Takes(world.backend, queue)
    ensures var key := TaskKey(queue, "1");
      var s := Quiet(LoopStore(world, provisioned, queue, path, RUNNING_LIFE));
      CanWake(world, s, key) && IsFresh(s, "2")
      && Wake(world, s, key, "2") == s.(awaiting := map[key := ResultId(queue, "1")])
  {
    var row := LoopRow(world, queue, path);
    SuffixRoundTrip(path, DEFER_NAME_SUFFIX);
    var definition := world.registry[path];
    var task := WakeTask(definition, row.params);
    assert task.runAfter.Some? && task.queueName == queue;
    assert EffectiveOptions(task, world.backend.defaultMaxAttempts).idempotencyKey == Set("k");
  }

  lemma LoopStarts(world: World, provisioned: set<string>, queue: string, path: string)
    requires Importable(world) && path in world.registry
    requires queue in provisioned && Takes(world.backend, queue)
    ensures Apply(world, Initial(provisioned), EnqueueEvent(LoopTask(world, queue, path), [], map[], "1"))
            == Quiet(LoopStore(world, provisioned, queue, path, PENDING))
  {
    assert EffectiveOptions(LoopTask(world, queue, path), world.backend.defaultMaxAttempts) == LoopOptions(world);
  }

  lemma LoopFinishes(world: World, provisioned: set<string>, queue: string, path: string)
    requires path in world.registry
    ensures var key := TaskKey(queue, "1");
      var woken := Quiet(LoopStore(world, provisioned, queue, path, RUNNING_LIFE))
                   .(awaiting := map[key := ResultId(queue, "1")]);
      var store := Apply(world, Apply(world, woken, CheckpointEvent(key)), FinishEvent(key, JNull)).store;
      ReadThrough(store, key) && store.life[key].payload == JString(ResultId(queue, "1"))
  {
    SuffixRoundTrip(path, DEFER_NAME_SUFFIX);
  }

  lemma LoopRunUnfolds(world: World, s0: System, queue: string, path: string)
    requires path in world.registry
    ensures var e := LoopRun(world, queue, path);
      Run(world, s0, e)
      == Apply(world, Apply(world, Apply(world, Apply(world, Apply(world, s0, e[0]), e[1]), e[2]), e[3]), e[4])
  {
    var events := LoopRun(world, queue, path);
    RunOneMore(world, s0, [], events[0]);
    assert [] + [events[0]] == [events[0]];
    RunOneMore(world, s0, [events[0]], events[1]);
    RunOneMore(world, s0, [events[0]] + [events[1]], events[2]);
    RunOneMore(world, s0, [events[0]] + [events[1]] + [events[2]], events[3]);
    RunOneMore(world, s0, [events[0]] + [events[1]] + [events[2]] + [events[3]], events[4]);
  }

  lemma LoopIsClaimed(world: World, provisioned: set<string>, queue: string, path: string)
    ensures Apply(world, Quiet(LoopStore(world, provisioned, queue, path, PENDING)), StateEvent(TaskKey(queue, "1"), Running, None))
            == Quiet(LoopStore(world, provisioned, queue, path, RUNNING_LIFE))
  {
  }

  /** Under a definition that is itself deferred, the wrapper's enqueue meets the wrapper's own key, and
      the finished wrapper's payload is its own id. */
  lemma DeferredDefinitionLoops(world: World, provisioned: set<string>, queue: string, path: string)
    requires Importable(world) && path in world.registry && world.registry[path].runAfter.Some?
    requires queue in provisioned && Takes(world.backend, queue)
    ensures var key := TaskKey(queue, "1");
      var store := Run(world, Initial(provisioned), LoopRun(world, queue, path)).store;
      && ReadThrough(store, key) && store.life[key].payload == JString(ResultId(queue, "1"))
      && DecodeResultId(ResultId(queue, "1")) == Some(key)
  {
    LoopRunUnfolds(world, Initial(provisioned), queue, path);
    LoopStarts(world, provisioned, queue, path);
    LoopIsClaimed(world, provisioned, queue, path);
    LoopWakes(world, provisioned, queue, path);
    LoopFinishes(world, provisioned, queue, path);
    ResultIdRoundTrip(queue, "1", "");
  }

  /** Reading a result ends in every reachable state exactly when no importable definition is deferred. */
  lemma ReadingEndsExactly(world: World, provisioned: set<string>, queue: string)
    requires Importable(world) && queue in provisioned && Takes(world.backend, queue)
    ensures (forall events :: ChainsEnd(world, Run(world, Initial(provisioned), events).store)) <==> NoneDeferred(world)
  {
    if NoneDeferred(world) {
      forall events ensures ChainsEnd(world, Run(world, Initial(provisioned), events).store) {
        ReachableChainsEnd(world, provisioned, events);
      }
    } else {
      var path :| path in world.registry && world.registry[path].runAfter.Some?;
      DeferredDefinitionLoops(world, provisioned, queue, path);
      var store := Run(world, Initial(provisioned), LoopRun(world, queue, path)).store;
      assert ReadThrough(store, TaskKey(queue, "1")) && !StepsDown(world, store, TaskKey(queue, "1"));
    }
  }
}
