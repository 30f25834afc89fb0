/** The worker's lazy registry: what a claimed row's name resolves to, and its cache. */
module Registry {
  import opened Backend
  import opened SpawnOptions
  import opened Text
  import opened Wrappers

  /** What a name imports to: a task, something else, or nothing at all. */
  datatype Imported = ATask(func: Func) | NotATask | ImportError

  type Imports = string -> Imported

  datatype Handler = RunsTask(func: Func) | EnqueuesTarget(target: string)

  datatype Entry = Entry(name: string, queue: string, handler: Handler)

  /** What a name resolves to without a cache. */
  function Resolve(imports: Imports, queue: string, name: string): Option<Entry> {
    if EndsWith(name, DEFER_NAME_SUFFIX) then
      Some(Entry(name, queue, EnqueuesTarget(RemoveSuffix(name, DEFER_NAME_SUFFIX))))
    else
      match imports(name)
      case ATask(func) => Some(Entry(name, queue, RunsTask(func)))
      case _ => None
  }

  class LazyTaskRegistry {
    const queue: string
    var entries: map<string, Entry>

    constructor (queue: string)
      ensures this.queue == queue && entries == map[]
    {
      this.queue := queue;
      entries := map[];
    }

    /** Under stable imports the cache holds nothing but fresh resolutions. */
    ghost predicate Agrees(imports: Imports)
      reads this
    {
      forall name | name in entries :: Resolve(imports, queue, name) == Some(entries[name])
    }

    method Get(imports: Imports, name: string, absent: Option<Entry>) returns (entry: Option<Entry>)
      requires Agrees(imports)
      modifies this`entries
      ensures Agrees(imports)
      ensures entry == if Resolve(imports, queue, name).Some? then Resolve(imports, queue, name) else absent
      ensures entries.Keys == old(entries.Keys) + if Resolve(imports, queue, name).Some? then {name} else {}
      ensures forall known | known in old(entries) :: entries[known] == old(entries[known])
    {
      if name !in entries {
        if EndsWith(name, DEFER_NAME_SUFFIX) {
          entries := entries[name := Entry(name, queue, EnqueuesTarget(RemoveSuffix(name, DEFER_NAME_SUFFIX)))];
          return Some(entries[name]);
        }
        match imports(name) {
          case ATask(func) =>
            entries := entries[name := Entry(name, queue, RunsTask(func))];
          case _ =>
            return absent;
        }
      }
      entry := Some(entries[name]);
    }
  }

  /** The suffix is recognised on deferred rows and on no other: an enqueue's row runs the caller's
      task, or enqueues exactly that task later, whatever the caller's colon-free path is. */
  lemma EnqueuedRowsDispatchToTheirTask(imports: Imports, backend: AbsurdBackend, task: Task,
                                        args: seq<Json>, kwargs: map<string, Json>)
    requires ':' !in task.func.modulePath && imports(task.func.modulePath) == ATask(task.func)
    ensures var request := PlanSpawn(backend, task, args, kwargs);
      Resolve(imports, request.queue, request.name)
      == Some(Entry(request.name, task.queueName,
                    if task.runAfter.Some? then EnqueuesTarget(task.func.modulePath) else RunsTask(task.func)))
  {
    var path := task.func.modulePath;
    SuffixRoundTrip(path, DEFER_NAME_SUFFIX);
    if EndsWith(path, DEFER_NAME_SUFFIX) {
      SuffixHoldsColon(path);
    }
  }
}
