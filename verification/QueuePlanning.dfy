/** Provisioning: one planner decides what a declared queue needs, the dry run reports the plans and
    the write path applies them one queue at a time. */
module QueuePlanning {
  import opened Wrappers

  /** An option as declared, and as the catalog row stores it: intervals are stored parsed. */
  datatype Value = Text(text: string) | Number(number: int)
  datatype Stored = Interval(length: int) | Plain(value: Value)

  type Options = map<string, Value>
  type Parser = Value -> int

  const STORAGE_MODE := "storage_mode"
  const UNPARTITIONED := Text("unpartitioned")
  const INTERVAL_KEYS: set<string> := {"partition_lookahead", "partition_lookback", "cleanup_ttl", "detach_min_age"}
  const MUTABLE_KEYS: set<string> := INTERVAL_KEYS + {"cleanup_limit", "detach_mode"}
  const PREFIXES: set<char> := {'t', 'r', 'c', 'e', 'w'}

  datatype Row = Row(mode: Value, policy: map<string, Stored>)
  {
    predicate Valid() {
      policy.Keys == MUTABLE_KEYS
    }
  }

  function Store(parse: Parser, key: string, value: Value): Stored {
    if key in INTERVAL_KEYS then Interval(parse(value)) else Plain(value)
  }

  function TableName(prefix: char, queue: string): string {
    [prefix] + "_" + queue
  }

  function TablesOf(queue: string): set<string> {
    set prefix | prefix in PREFIXES :: TableName(prefix, queue)
  }

  /** What provisioning reads and writes. */
  datatype Schema = Schema(rows: map<string, Row>, tables: set<string>)
  {
    ghost predicate Valid() {
      forall q | q in rows :: rows[q].Valid()
    }
  }

  /*******************************************************************************
   *  Absurd's two writes
   *******************************************************************************/

  /** `absurd.create_queue`: adds the row if there is none, and any missing table. A row in another
      storage mode than the one asked for is refused. */
  function CreateQueue(parse: Parser, defaults: map<string, Stored>, schema: Schema, name: string, options: Options): Option<Schema>
    requires defaults.Keys == MUTABLE_KEYS
  {
    var mode := if STORAGE_MODE in options then options[STORAGE_MODE] else UNPARTITIONED;
    if name in schema.rows && schema.rows[name].mode != mode then None
    else
      var row := if name in schema.rows then schema.rows[name] else Row(mode, Overlay(parse, defaults, options));
      Some(Schema(schema.rows[name := row], schema.tables + TablesOf(name)))
  }

  function Overlay(parse: Parser, policy: map<string, Stored>, options: Options): (r: map<string, Stored>)
    ensures r.Keys == policy.Keys
  {
    map key | key in policy :: if key in options then Store(parse, key, options[key]) else policy[key]
  }

  /** `absurd.set_queue_policy`. */
  function SetQueuePolicy(parse: Parser, schema: Schema, name: string, options: Options): Schema
    requires name in schema.rows
  {
    var row := schema.rows[name];
    schema.(rows := schema.rows[name := row.(policy := Overlay(parse, row.policy, options))])
  }

  /*******************************************************************************
   *  Plans
   *******************************************************************************/

  datatype QueuePlan = QueuePlan(name: string, create: Option<Options>, repair: bool, policy: Option<Options>)

  function MutableOptions(options: Options): (r: Options) {
    map key | key in options && key in MUTABLE_KEYS :: options[key]
  }

  /** Some declared policy option differs from what the row stores. */
  predicate Drifted(parse: Parser, options: Options, row: Row)
    requires row.Valid() && options.Keys <= MUTABLE_KEYS
  {
    exists key | key in options :: Store(parse, key, options[key]) != row.policy[key]
  }

  function MissingTables(schema: Schema, name: string): set<string> {
    TablesOf(name) - schema.tables
  }

  /** What a declared queue needs, by reading only. */
  function PlanOf(parse: Parser, schema: Schema, name: string, options: Options): QueuePlan
    requires schema.Valid()
  {
    if name !in schema.rows then QueuePlan(name, Some(options), false, None)
    else
      var mutableOptions := MutableOptions(options);
      QueuePlan(name, None, MissingTables(schema, name) != {},
                if Drifted(parse, mutableOptions, schema.rows[name]) then Some(mutableOptions) else None)
  }

  /** A plan that asks for nothing. */
  predicate Idle(plan: QueuePlan) {
    plan.create.None? && !plan.repair && plan.policy.None?
  }

  function Applied(parse: Parser, defaults: map<string, Stored>, schema: Schema, plan: QueuePlan): Option<Schema>
    requires defaults.Keys == MUTABLE_KEYS
    requires plan.create.None? ==> plan.name in schema.rows
  {
    var created := if plan.create.Some? then CreateQueue(parse, defaults, schema, plan.name, plan.create.value) else Some(schema);
    if created.None? then None
    else
      var repaired := if plan.repair then CreateQueue(parse, defaults, created.value, plan.name, map[]) else created;
      if repaired.None? then None
      else if plan.policy.None? then repaired
      else Some(SetQueuePolicy(parse, repaired.value, plan.name, plan.policy.value))
  }

  /** The queue is as declared: its row and all its tables are there, and its policy matches. */
  predicate Provisioned(parse: Parser, schema: Schema, name: string, options: Options)
    requires schema.Valid()
  {
    name in schema.rows && TablesOf(name) <= schema.tables
    && !Drifted(parse, MutableOptions(options), schema.rows[name])
  }

  /** A queue the write path cannot repair: tables gone, and a row in another storage mode. */
  predicate Unrepairable(schema: Schema, name: string) {
    name in schema.rows && MissingTables(schema, name) != {} && schema.rows[name].mode != UNPARTITIONED
  }

  /** A partitioned row that lost its tables: the dry run reports a repair, the write refuses it. */
  lemma RepairCanBeRefused(parse: Parser, defaults: map<string, Stored>, name: string)
    requires defaults.Keys == MUTABLE_KEYS
    ensures var schema := Schema(map[name := Row(Text("partitioned"), defaults)], {});
      && Unrepairable(schema, name)
      && Report(parse, schema, [Declared(name, map[])]).repaired == [name]
      && Applied(parse, defaults, schema, PlanOf(parse, schema, name, map[])).None?
  {
    var schema := Schema(map[name := Row(Text("partitioned"), defaults)], {});
    assert TableName('t', name) in MissingTables(schema, name);
    assert [Declared(name, map[])][..0] == [];
    assert Report(parse, schema, [Declared(name, map[])])
        == Noted(NO_CHANGES, PlanOf(parse, schema, name, map[]));
  }

  /** A queue has five tables. */
  lemma TablesAreFive(name: string)
    ensures TablesOf(name) == {"t_" + name, "r_" + name, "c_" + name, "e_" + name, "w_" + name}
  {
    assert "t_" + name == TableName('t', name) && "r_" + name == TableName('r', name)
        && "c_" + name == TableName('c', name) && "e_" + name == TableName('e', name) && "w_" + name == TableName('w', name);
    assert forall prefix | prefix in PREFIXES :: TableName(prefix, name) in TablesOf(name);
  }

  /** Queue names keep tables apart, so the writes for one queue never touch another's. */
  lemma TablesAreDisjoint(a: string, b: string)
    ensures a == b || TablesOf(a) !! TablesOf(b)
  {
    forall prefix, queue ensures TableName(prefix, queue)[2..] == queue {
    }
  }

  lemma NoneMissing(schema: Schema, name: string)
    ensures MissingTables(schema, name) == {} <==> TablesOf(name) <= schema.tables
  {
    if MissingTables(schema, name) == {} {
      forall x | x in TablesOf(name) ensures x in schema.tables {
        assert x !in MissingTables(schema, name);
      }
    }
  }

  /** What planning then applying one queue does: it fails exactly when the queue cannot be repaired;
      otherwise the queue ends as declared, a second plan asks for nothing, and every other queue keeps
      its row, its tables and so its plan. */
  lemma PlanThenApply(parse: Parser, defaults: map<string, Stored>, schema: Schema, name: string, options: Options)
    requires schema.Valid() && defaults.Keys == MUTABLE_KEYS
    ensures var after := Applied(parse, defaults, schema, PlanOf(parse, schema, name, options));
      && (after.None? <==> Unrepairable(schema, name))
      && (after.Some? ==>
            && after.value.Valid()
            && Provisioned(parse, after.value, name, options)
            && KeepsOthers(schema, after.value, name))
  {
    if name in schema.rows {
      ExistingQueue(parse, defaults, schema, name, options);
    } else {
      assert !Drifted(parse, MutableOptions(options), Row(UNPARTITIONED, Overlay(parse, defaults, options)));
    }
  }

  /** One policy option as a row should store it: as declared, intervals parsed, else as it was. */
  predicate StoredAs(parse: Parser, row: Row, key: string, interval: bool, options: Options, was: Stored) {
    && key in row.policy
    && row.policy[key] == (if key !in options then was
                           else if interval then Interval(parse(options[key])) else Plain(options[key]))
  }

  /** Planning and applying leave each of the six policy options as declared, those not declared as they were
      or at their default, and the storage mode of an existing queue alone. */
  lemma AppliedPolicy(parse: Parser, defaults: map<string, Stored>, schema: Schema, name: string, options: Options)
    requires schema.Valid() && defaults.Keys == MUTABLE_KEYS
    requires Applied(parse, defaults, schema, PlanOf(parse, schema, name, options)).Some?
    ensures var after := Applied(parse, defaults, schema, PlanOf(parse, schema, name, options)).value;
      var was := if name in schema.rows then schema.rows[name].policy else defaults;
      && was.Keys == MUTABLE_KEYS && name in after.rows
      && (forall key | key in {"partition_lookahead", "partition_lookback", "cleanup_ttl", "detach_min_age"} ::
            StoredAs(parse, after.rows[name], key, true, options, was[key]))
      && (forall key | key in {"cleanup_limit", "detach_mode"} ::
            StoredAs(parse, after.rows[name], key, false, options, was[key]))
      && after.rows[name].mode ==
           if name in schema.rows then schema.rows[name].mode
           else if "storage_mode" in options then options["storage_mode"] else Text("unpartitioned")
  {
    if name in schema.rows {
      var row, mutableOptions := schema.rows[name], MutableOptions(options);
      assert schema.rows[name := row] == schema.rows;
      assert row.Valid();
      forall key | key in MUTABLE_KEYS && key in options && !Drifted(parse, mutableOptions, row)
        ensures row.policy[key] == Store(parse, key, options[key])
      {
        assert key in mutableOptions;
      }
    }
  }

  lemma ExistingQueue(parse: Parser, defaults: map<string, Stored>, schema: Schema, name: string, options: Options)
    requires schema.Valid() && defaults.Keys == MUTABLE_KEYS && name in schema.rows
    ensures var after := Applied(parse, defaults, schema, PlanOf(parse, schema, name, options));
      && (after.None? <==> Unrepairable(schema, name))
      && (after.Some? ==>
            && after.value.Valid()
            && Provisioned(parse, after.value, name, options)
            && KeepsOthers(schema, after.value, name))
  {
    NoneMissing(schema, name);
    var row, mutableOptions := schema.rows[name], MutableOptions(options);
    assert schema.rows[name := row] == schema.rows;
    assert !Drifted(parse, mutableOptions, Row(row.mode, Overlay(parse, row.policy, mutableOptions)));
  }

  ghost predicate KeepsOthers(before: Schema, after: Schema, name: string) {
    && (forall other | other != name :: other in after.rows <==> other in before.rows)
    && (forall other | other != name && other in before.rows :: after.rows[other] == before.rows[other])
    && before.tables <= after.tables <= before.tables + TablesOf(name)
  }

  lemma OthersKeepTheirPlans(parse: Parser, before: Schema, after: Schema, name: string, other: string, options: Options)
    requires before.Valid() && after.Valid() && KeepsOthers(before, after, name) && other != name
    ensures PlanOf(parse, after, other, options) == PlanOf(parse, before, other, options)
    ensures Unrepairable(after, other) == Unrepairable(before, other)
    ensures Provisioned(parse, after, other, options) == Provisioned(parse, before, other, options)
  {
    TablesAreDisjoint(name, other);
    assert MissingTables(after, other) == MissingTables(before, other);
  }

  lemma ProvisionedPlansAreIdle(parse: Parser, schema: Schema, name: string, options: Options)
    requires schema.Valid()
    ensures Idle(PlanOf(parse, schema, name, options)) <==> Provisioned(parse, schema, name, options)
  {
    NoneMissing(schema, name);
  }

  /*******************************************************************************
   *  The whole catalog
   *******************************************************************************/

  datatype Declared = Declared(name: string, options: Options)

  ghost predicate Distinct(declared: seq<Declared>) {
    forall i, j | 0 <= i < j < |declared| :: declared[i].name != declared[j].name
  }

  datatype SyncResult = SyncResult(created: seq<string>, reconciled: seq<string>, repaired: seq<string>)

  const NO_CHANGES := SyncResult([], [], [])

  function Noted(result: SyncResult, plan: QueuePlan): SyncResult {
    SyncResult(result.created + if plan.create.Some? then [plan.name] else [],
               result.reconciled + if plan.policy.Some? then [plan.name] else [],
               result.repaired + if plan.repair then [plan.name] else [])
  }

  /** The report one planning pass over a schema makes. */
  function Report(parse: Parser, schema: Schema, declared: seq<Declared>): SyncResult
    requires schema.Valid()
  {
    if declared == [] then NO_CHANGES
    else
      var last := declared[|declared| - 1];
      Noted(Report(parse, schema, declared[..|declared| - 1]), PlanOf(parse, schema, last.name, last.options))
  }

  predicate AllProvisioned(parse: Parser, schema: Schema, declared: seq<Declared>)
    requires schema.Valid()
  {
    forall d | d in declared :: Provisioned(parse, schema, d.name, d.options)
  }

  lemma {:induction false} ReportIsEmptyWhenProvisioned(parse: Parser, schema: Schema, declared: seq<Declared>)
    requires schema.Valid()
    ensures Report(parse, schema, declared) == NO_CHANGES <==> AllProvisioned(parse, schema, declared)
  {
    if declared != [] {
      var front, last := declared[..|declared| - 1], declared[|declared| - 1];
      ReportIsEmptyWhenProvisioned(parse, schema, front);
      ProvisionedPlansAreIdle(parse, schema, last.name, last.options);
      assert declared == front + [last];
    }
  }

  /** The declared queues a condition picks, by name and in the order declared. */
  function NamesWhere(declared: seq<Declared>, which: Declared -> bool): seq<string> {
    if declared == [] then []
    else
      var last := declared[|declared| - 1];
      NamesWhere(declared[..|declared| - 1], which) + if which(last) then [last.name] else []
  }

  function HasNoRow(schema: Schema): Declared -> bool {
    (d: Declared) => d.name !in schema.rows
  }

  function HasLostTables(schema: Schema): Declared -> bool {
    (d: Declared) => d.name in schema.rows && !(TablesOf(d.name) <= schema.tables)
  }

  function HasDrifted(parse: Parser, schema: Schema): Declared -> bool
    requires schema.Valid()
  {
    (d: Declared) => d.name in schema.rows && schema.rows[d.name].Valid()
                     && Drifted(parse, MutableOptions(d.options), schema.rows[d.name])
  }

  /** What a report lists, in the order declared: as created the queues without a row, as repaired those
      whose row outlived a table, as reconciled those whose row's policy drifted. */
  lemma {:induction false} ReportSaysWhatIsWrong(parse: Parser, schema: Schema, declared: seq<Declared>)
    requires schema.Valid()
    ensures Report(parse, schema, declared)
         == SyncResult(NamesWhere(declared, HasNoRow(schema)),
                       NamesWhere(declared, HasDrifted(parse, schema)),
                       NamesWhere(declared, HasLostTables(schema)))
  {
    if declared != [] {
      ReportSaysWhatIsWrong(parse, schema, declared[..|declared| - 1]);
      NoneMissing(schema, declared[|declared| - 1].name);
    }
  }

  /** No plan or fate of the queues still to come has changed. */
  ghost predicate Pending(parse: Parser, before: Schema, now: Schema, declared: seq<Declared>)
    requires before.Valid() && now.Valid()
  {
    forall d | d in declared ::
      PlanOf(parse, now, d.name, d.options) == PlanOf(parse, before, d.name, d.options)
      && Unrepairable(now, d.name) == Unrepairable(before, d.name)
  }

  /** Queues nobody declared keep their rows. */
  ghost predicate UndeclaredKept(before: Schema, now: Schema, declared: seq<Declared>) {
    && (forall q | (forall d | d in declared :: d.name != q) :: q in now.rows <==> q in before.rows)
    && (forall q | q in before.rows && (forall d | d in declared :: d.name != q) ::
          q in now.rows && now.rows[q] == before.rows[q])
    && before.tables <= now.tables
  }

  class Provisioner {
    const parse: Parser
    const defaults: map<string, Stored>
    var schema: Schema

    constructor (parse: Parser, defaults: map<string, Stored>, schema: Schema)
      ensures this.parse == parse && this.defaults == defaults && this.schema == schema
    {
      this.parse, this.defaults, this.schema := parse, defaults, schema;
    }

    ghost predicate Valid()
      reads this
    {
      schema.Valid() && defaults.Keys == MUTABLE_KEYS
    }

    /** `check_mutable_options_drifted`. */
    method CheckMutableOptionsDrifted(options: Options, row: Row) returns (drifted: bool)
      requires row.Valid() && options.Keys <= MUTABLE_KEYS
      ensures drifted <==> Drifted(parse, options, row)
    {
      var left := options.Keys;
      while left != {}
        invariant left <= options.Keys
        invariant forall key | key in options && key !in left :: Store(parse, key, options[key]) == row.policy[key]
        decreases |left|
      {
        var key :| key in left;
        if key in INTERVAL_KEYS {
          if Interval(parse(options[key])) != row.policy[key] {
            return true;
          }
        } else if Plain(options[key]) != row.policy[key] {
          return true;
        }
        left := left - {key};
      }
      drifted := false;
    }

    method PlanQueue(name: string, options: Options) returns (plan: QueuePlan)
      requires Valid()
      ensures plan == PlanOf(parse, schema, name, options)
    {
      if name !in schema.rows {
        return QueuePlan(name, Some(options), false, None);
      }
      plan := QueuePlan(name, None, MissingTables(schema, name) != {}, None);
      var mutableOptions := MutableOptions(options);
      if mutableOptions != map[] {
        var drifted := CheckMutableOptionsDrifted(mutableOptions, schema.rows[name]);
        if drifted {
          plan := plan.(policy := Some(mutableOptions));
        }
      }
    }

    /** `apply_queue_plan`: up to three writes, each refused or made in turn. */
    method ApplyQueuePlan(plan: QueuePlan) returns (ok: bool)
      requires Valid() && (plan.create.None? ==> plan.name in schema.rows)
      modifies this`schema
      ensures ok <==> Applied(parse, defaults, old(schema), plan).Some?
      ensures ok ==> schema == Applied(parse, defaults, old(schema), plan).value
      ensures !ok && plan.create.None? ==> schema == old(schema)
    {
      if plan.create.Some? {
        var created := CreateQueue(parse, defaults, schema, plan.name, plan.create.value);
        if created.None? {
          return false;
        }
        schema := created.value;
      }
      if plan.repair {
        var repaired := CreateQueue(parse, defaults, schema, plan.name, map[]);
        if repaired.None? {
          return false;
        }
        schema := repaired.value;
      }
      if plan.policy.Some? {
        schema := SetQueuePolicy(parse, schema, plan.name, plan.policy.value);
      }
      ok := true;
    }

    /** `reconcile_queue`: plans, applies, and reports on the plan. A refused write raises. */
    method ReconcileQueue(d: Declared) returns (ok: bool, plan: QueuePlan)
      requires Valid()
      modifies this`schema
      ensures Valid()
      ensures plan == PlanOf(parse, old(schema), d.name, d.options)
      ensures ok <==> !Unrepairable(old(schema), d.name)
      ensures ok ==> Provisioned(parse, schema, d.name, d.options) && KeepsOthers(old(schema), schema, d.name)
      ensures !ok ==> schema == old(schema)
    {
      plan := PlanQueue(d.name, d.options);
      PlanThenApply(parse, defaults, schema, d.name, d.options);
      ok := ApplyQueuePlan(plan);
    }

    /** `plan_queue_sync`: the dry run. */
    method PlanQueueSync(declared: seq<Declared>) returns (result: SyncResult)
      requires Valid()
      ensures result == Report(parse, schema, declared)
    {
      result := NO_CHANGES;
      for i := 0 to |declared|
        invariant result == Report(parse, schema, declared[..i])
      {
        var plan := PlanQueue(declared[i].name, declared[i].options);
        result := Noted(result, plan);
        assert declared[..i + 1][..i] == declared[..i];
      }
      assert declared[..|declared|] == declared;
    }

    /** `sync_queues`: `done` queues are reconciled before a refusal, all of them if none is refused.
        What it reports is what the dry run on the schema it started from reports; it stops exactly
        where a queue cannot be repaired; and what it has done leaves nothing for a second pass. */
    method SyncQueues(declared: seq<Declared>) returns (done: nat, result: SyncResult)
      requires Valid() && Distinct(declared)
      modifies this`schema
      ensures Valid() && done <= |declared|
      ensures result == Report(parse, old(schema), declared[..done])
      ensures forall k | 0 <= k < done :: !Unrepairable(old(schema), declared[k].name)
      ensures done < |declared| ==> Unrepairable(old(schema), declared[done].name)
      ensures AllProvisioned(parse, schema, declared[..done])
      ensures Report(parse, schema, declared[..done]) == NO_CHANGES
      ensures UndeclaredKept(old(schema), schema, declared)
    {
      done, result := 0, NO_CHANGES;
      while done < |declared|
        invariant Valid() && done <= |declared|
        invariant result == Report(parse, old(schema), declared[..done])
        invariant forall k | 0 <= k < done :: !Unrepairable(old(schema), declared[k].name)
        invariant AllProvisioned(parse, schema, declared[..done])
        invariant Pending(parse, old(schema), schema, declared[done..])
        invariant UndeclaredKept(old(schema), schema, declared)
      {
        ghost var before := schema;
        var d := declared[done];
        assert d in declared[done..] && declared[..done + 1][..done] == declared[..done];
        var ok, plan := ReconcileQueue(d);
        if !ok {
          break;
        }
        result := Noted(result, plan);
        DoneStaysProvisioned(parse, before, schema, declared, done);
        RestStaysPending(parse, old(schema), before, schema, declared, done);
        UndeclaredStayKept(old(schema), before, schema, declared, done);
        done := done + 1;
      }
      ReportIsEmptyWhenProvisioned(parse, schema, declared[..done]);
    }
  }

  lemma DoneStaysProvisioned(parse: Parser, before: Schema, after: Schema, declared: seq<Declared>, done: nat)
    requires before.Valid() && after.Valid() && Distinct(declared) && done < |declared|
    requires KeepsOthers(before, after, declared[done].name)
    requires Provisioned(parse, after, declared[done].name, declared[done].options)
    requires AllProvisioned(parse, before, declared[..done])
    ensures AllProvisioned(parse, after, declared[..done + 1])
  {
    forall d | d in declared[..done + 1] ensures Provisioned(parse, after, d.name, d.options) {
      var k :| 0 <= k <= done && declared[k] == d;
      if k < done {
        assert d in declared[..done];
        OthersKeepTheirPlans(parse, before, after, declared[done].name, d.name, d.options);
      }
    }
  }

  lemma RestStaysPending(parse: Parser, start: Schema, before: Schema, after: Schema, declared: seq<Declared>, done: nat)
    requires before.Valid() && after.Valid() && start.Valid() && Distinct(declared) && done < |declared|
    requires KeepsOthers(before, after, declared[done].name)
    requires Pending(parse, start, before, declared[done..])
    ensures Pending(parse, start, after, declared[done + 1..])
  {
    forall d | d in declared[done + 1..]
      ensures PlanOf(parse, after, d.name, d.options) == PlanOf(parse, start, d.name, d.options)
      ensures Unrepairable(after, d.name) == Unrepairable(start, d.name)
    {
      var k :| done < k < |declared| && declared[k] == d;
      assert d in declared[done..];
      OthersKeepTheirPlans(parse, before, after, declared[done].name, d.name, d.options);
    }
  }

  lemma UndeclaredStayKept(start: Schema, before: Schema, after: Schema, declared: seq<Declared>, done: nat)
    requires done < |declared| && KeepsOthers(before, after, declared[done].name)
    requires UndeclaredKept(start, before, declared)
    ensures UndeclaredKept(start, after, declared)
  {
    assert declared[done] in declared;
  }
}
