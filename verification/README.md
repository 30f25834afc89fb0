# django-absurd, verified

django-absurd puts Django Tasks on top of Absurd, a Postgres workflow engine. This project models the
protocols the package builds on Absurd's SQL and SDK, and proves what they promise over every run an
adversary can produce. Absurd itself, the SDK, psycopg, asyncio and time-machine are small state machines
with the contracts listed under "Assumed".

`dafny verify dfyconfig.toml` checks everything.

## How the modules follow the package

| module | what it models |
|---|---|
| `Worker` | the windowed loop and the concurrency-one loop, between awaits, against an adversary that settles runs, breaks their machinery, sets the stop, cancels the loop and answers claims |
| `Handler` | the handler a worker builds, and its signals over all attempts of one task |
| `Replay` | durable steps over a committed checkpoint table, cut and restarted anywhere |
| `Catching` | what replay does to bodies that catch what a step raised |
| `SpawnOptions`, `Backend` | option layers, task rebuilds, enqueue, the deferred wrapper |
| `DeferredRuns`, `Results` | runs of deferred tasks under an adversary, and what `get_result` reads |
| `Readings` | what a deferred id reads as for the rest of its life |
| `DeferralLimits` | runs where deferral breaks its promise, and when reading a result ends |
| `Registry` | the worker's lazy task registry |
| `CronOptions` | spawn options flattened into a schedule row and rebuilt by the run wrapper |
| `Schedules` | declared schedules from settings to the spawn, by pg_cron and by the beat |
| `Catalog`, `Reconcile`, `Divergence` | job names and lanes, the reconcilers, and rows and jobs drifting apart |
| `Beat` | the beat loop under an arbitrary clock, and racing beats |
| `FrozenClock` | the two-clock freeze, cut between any two writes |
| `IdleSlots`, `Interleave` | the benchmarks' sweep and their fair merge |
| `QueuePlanning` | planning and provisioning queues |
| `Text`, `Wrappers` | `rsplit`, suffixes, and small result types |

Code that changes state in place is a class whose methods change the same fields, proved against functions
on values; the promises are lemmas about those functions and contracts over whole loops. Adversaries are
scripts: sequences of events, quantified over.

## What is false of the code, and when it does hold

Each entry names the lemma with the exact condition and the one with a failing input.

- **A deferred id may describe someone else's task.** A comment (django_absurd/backends.py:227-228) says that a
  wrapper's payload is the id of the task it enqueued, so that the caller's id keeps describing their own task
  for the rest of its life. With an idempotency key the enqueue can land on any row that already holds the key.
  In every reachable state a completed deferral reads as its own call exactly when it carries no key, or the
  chain from the row that holds its key ends at a row for that same call, and the backend declares the queue
  (`Readings.CompletedDeferralReads`; `Results.FinishedDeferralReads` says it of the instant it finishes).
  `DeferralLimits.AnotherCallIsRead` is a run from an empty store where the id of `m.f(2)` reads as `m.f(1)`.
- **A reading that is right may turn wrong.** While the chain ends at a wrapper that can still wake, the id can
  come to read as another call: `DeferralLimits.ReadingCanChange` is a run where `m.f(2)` reads as itself when
  it finishes and as `m.f(1)` later. From any reachable state an id reads as its own call in every later one
  exactly when its queue is declared, its task importable, and its row failed or cancelled, without a key, or
  under a key held by a row that is a task for that call or a wrapper for which the same can be said
  (`Readings.DeferralReadsForLife`, with `Readings.Steady`). Once the chain ends at a real task, or at a wrapper that failed or was
  cancelled, the reading is fixed (`Readings.ReadingIsFixed`).
- **A wrapper's payload need not name a later row,** which is what would make `get_result` end. It names a row
  no older than the wrapper exactly when no earlier row held the key (`Results.WokenWrapperPayload`,
  `DeferralLimits.EarlierHolderIsReachable`). The recursion ends because keys get shorter at each hop, and it
  ends in every reachable state exactly when no importable definition is itself deferred
  (`DeferralLimits.ReadingEndsExactly`). Under a deferred definition a keyed wrapper's enqueue meets the
  wrapper's own key, and the finished wrapper names itself (`DeferralLimits.DeferredDefinitionLoops`).
- **A crash between the wrapper's enqueue and its checkpoint makes a second target row,** unless the caller or
  the definition gave a key; exactly then it does not (`DeferredRuns.SecondWakeDedupes`,
  `DeferralLimits.CrashMakesTwoTargets`).
- **Deferral keeps the meaning of an enqueue exactly when** the importable definition's alias reaches the same
  store and takes the queue, the definition is not itself deferred, and it binds no option the enqueued task
  lacks (`Backend.DeferralPreservesMeaning`). For tasks derived from the definition only the store matters
  (`Backend.DerivedTasksKeepTheirMeaning`). `Backend.ReroutedDeferralGoesElsewhere` enqueues on one database
  and wakes on another, or on none; `Backend.BoundDefinitionLeaksItsOptions` gains an option on the way.
- **A step's function can run twice in one attempt,** when the body catches what a step raised and then
  suspends. Under any schedule none does exactly when the body never suspends after a throw
  (`Catching.FunctionsRunOncePerAttempt`); what runs again threw before (`Replay.RerunsFollowACaughtThrow`).
- **A result need not be one pass over the committed values.** One result is exactly when the last attempt saw
  no step throw (`Replay.ResultIsOnePass`). Every value a body returns is exactly when the body never returns
  after a throw (`Catching.BodiesThatReturnOnePass`), and every ending exactly when it never ends after one
  (`Catching.BodiesThatEndAsOnePass`). `Catching.CaughtThrows` is a run that fails both this and the entry above.
- **A finished task may keep rows no uncut run commits.** Its rows are those of one uncut run that sees what its
  last attempt saw, under any schedule, exactly when the body cannot commit a row on one history and end on
  another, agreeing, that misses it (`Catching.RowsAreThoseOfOneRun`). `Catching.FallbackLeavesARow` is such a
  body, and `Catching.RowStaysBehind` the run that leaves the row.
- **`task_finished` may be missing or sent too often.** It is sent once for each reportable ending and once more
  for every return that Django's encoder accepts and the SDK's refuses (`Handler.FinishedExactlyOnce`). A task
  its own function failed goes unreported only when its last attempt returned what Django's encoder refuses
  (`Handler.UnreportedEndings`); `Handler.RefusedReturns` has a life of each kind.
- **A completed task's row and its last signal need not hold one value.** The function's value goes to the SDK as
  it was returned and to the signal normalised. They hold one value exactly when the SDK's encoder and Django's
  agree on it (`Handler.CompletedStoresWhatItReturned`, `Handler.EncodersDisagree`).
- **A schedule's options survive the row exactly when they are canonical,** and its columns exactly when
  `clean()` accepts their retry timing (`CronOptions.OptionsRoundTrip`, `CronOptions.WhatTheRowLoses`).
- **A firing need not spawn what an enqueue would.** It does exactly when the schedule names the task by its
  module path, that task's alias reaches the same database and takes its queue, the task is not deferred, its
  effective options are its decorator's stripped of nulls, and the schedule keeps its queue
  (`CronOptions.FiringMatchesEnqueue`). A task scheduled by another path it can be imported from is spawned
  under that path (`CronOptions.AliasedPathFiresUnderItsOwnName`); options bound at module level are not read
  (`CronOptions.BoundDefinitionFiresDifferently`).
- **The two schedulers need not spawn alike.** For one schedule the beat's write is the job's, its key aside,
  exactly when the backend takes the queue, the schedule gives the task's module path, the task is not deferred,
  and its options are its decorator's stripped of nulls (`Schedules.SchedulersAgree`,
  `Schedules.SchedulersDisagree`).
- **A lane's name prefix alone does not select a lane** when database names hold colons; prefix and database
  together do (`Catalog.PrefixNeedsTheDatabase`, `Catalog.PruneTouchesOneLane`).
- **A freeze entered backward and cut before Python's clock is held leaves Postgres's half set after the
  block,** because the release sees no open freeze; every other way out releases Postgres, and Python too
  when stopping its clock returns (`FrozenClock.FreezeTime`, `FrozenClock.LeakingEntry`).
- **The dry run predicts the write unless some queue lost tables under a row in another storage mode,** which
  the write refuses; it stops exactly there (`QueuePlanning.Provisioner.SyncQueues`,
  `QueuePlanning.RepairCanBeRefused`).

## Assumed

- Instants are integers: any unit for the clocks and the sweep, microseconds for the beat.
- `claim_tasks(n)` returns at most `n` runs not seen before; code between two awaits is atomic.
- Declared and saved schedule names hold no colon, and a `cron.job` entry named for the app database is bound
  to it; jobs are otherwise arbitrary. Runs of deferred tasks are on one backend, whose alias every importable
  definition names; definitions may bind any options. `Backend.DeferralPreservesMeaning` covers any aliases.
- Executing a run returns normally on a handler failure; only broken machinery or cancellation raises.
- A checkpoint is found exactly when it was committed; a step is committed under its name and the number of
  earlier uses of that name in the attempt. The body is deterministic between durable operations, and one
  attempt is live at a time.
- A spawn whose idempotency key is used on that queue returns the task that holds it. Rows are retained.
- A return value the SDK cannot serialise fails the run as a raise would.
- A failed run is retried when `max_attempts` is null or the next attempt is at most `max_attempts`.
- `cron.schedule_in_database` upserts by job name without re-arming an existing job; scheduling is not inert.
- The next occurrence of a cron is the least one strictly after an instant, and falls on a whole second. The
  hash behind a beat's key has no collisions; the 24 hex digits kept of it are taken as the whole hash.
- `create_queue` adds what is missing, keeps an existing row and refuses another storage mode; declared
  intervals parse.

## Model

| member | source | states |
|---|---|---|
| Worker.WindowedLoop.RefillUntilStopped | django_absurd/worker.py:610-651 | Whatever the adversary does, every exit (stop, failing claim, broken machinery, cancellation) leaves nothing in flight; after a clean stop or a failing claim every launched run returned; a cancelled loop ends cancelled with an empty window; an exception is one the script brought or one a run raised; each await found its tick, cancellations and failing claims were raised at once, and exactly the runs the claims brought were launched |
| Worker.WindowedLoop.LoopUntilStopped | django_absurd/worker.py:625-642 | The loop keeps the whole trace safe and prompt: never more than `concurrency` in flight; no claim after a stop or after a run broke or was cancelled; every claim asks for the slots no unfinished run holds, up to a batch; no sleep unless every slot is taken by an unfinished run, none failed and no stop came, or a claim just came back empty; and a sleep between an empty claim and the next |
| Worker.WindowedLoop.LeaveLoop | django_absurd/worker.py:643-651 | A cancelled loop ends its unsettled runs as they unwind and empties the window; any other way out waits for the window, and a run that breaks there replaces what was being raised, a failing claim included |
| Worker.WindowedLoop.ReapFinishedRuns | django_absurd/worker.py:685-694 | Reaping either removes exactly the finished runs, all of which returned, or raises for a run that broke or was cancelled |
| Worker.WindowedLoop.ClaimAndLaunch | django_absurd/worker.py:631-642 | One claim launches exactly the runs it brought, each once, within the limit asked for; a cancelled or failing claim launches none |
| Worker.WindowedLoop.WaitForRunProgress | django_absurd/worker.py:697-712 | The sleep is entered only with a full window or after an empty claim, and keeps the window as it was |
| Worker.WindowedLoop.CancelAndDrainRuns | django_absurd/worker.py:654-665 | After a cancellation every unsettled run has ended as it unwinds, no other exit has changed, and the window is empty |
| Worker.WindowedLoop.FinishRemainingRuns | django_absurd/worker.py:668-682 | All runs left in the window settle before anything is raised; the exception raised belongs to one of them; with none, every launched run returned |
| Worker.WindowedLoop.SettledWindow | django_absurd/worker.py:668-682 | A window with no unsettled run left has nothing in flight, and if nothing broken left it, every launched run returned |
| Worker.WindowedLoop.ClaimOrWait | django_absurd/worker.py:627-642 | One turn after the reaping: a claim into the free slots, then a sleep only if there are none or it came back empty |
| Worker.ReapedWindow | django_absurd/worker.py:625-627 | Once every finished run is reaped, the window holds just the runs in flight and none has failed |
| Worker.ExtendSafe | django_absurd/worker.py:625-642 | Appending one event to a safe trace keeps it safe under exactly the guards the loop checks |
| Worker.ExtendPrompt | django_absurd/worker.py:625-642 | Appending one event keeps the trace prompt: claims fill the slots in flight runs leave, sleeps are useless to avoid, and an empty claim is slept on |
| Worker.HeldIsExecuting | django_absurd/worker.py:623-642 | The loop's `executing` set is exactly the launched runs the trace has not removed |
| Worker.LaunchKeepsWindow | django_absurd/worker.py:637-642 | Launching keeps "every launched run is in `executing` or was removed exactly once" |
| Worker.RemoveKeepsWindow | django_absurd/worker.py:692-694 | Removing a settled run keeps the same accounting |
| Worker.SettleKeepsWindow | django_absurd/worker.py:692-694 | Runs settling inside the window keep the same accounting |
| Worker.SequentialLoop.ExecuteOneAtATime | django_absurd/worker.py:588-607 | One run at a time in claim order, whole batches claimed, no claim after a stop, nothing started or claimed after a run that did not return, nothing in flight at any exit, a clean stop leaves no claimed run unexecuted, and the outcome is the script's |
| Worker.SequentialEnds | django_absurd/worker.py:588-607 | The loop goes on exactly while every claim, idle wait and run goes through and no stop comes, and stops cleanly exactly when the first batch not of that kind goes through and brings a stop |
| Worker.SequentialLoop.ExecuteBatch | django_absurd/worker.py:606-607 | A batch is executed up to its first run that breaks or is cancelled, which it raises, and to its end if there is none |
| Worker.BatchOf | django_absurd/worker.py:600-622 | A batch size of none or zero means the concurrency, and any other means itself |
| Worker.RunAlone | django_absurd/worker.py:606-607 | A run launched with nothing in flight and awaited in line keeps a window of one |
| Handler.HandlerRun.Handle | django_absurd/worker.py:446-500 | One handler run sends a start, and an end only on a return Django's encoder accepts, with the value it makes of it, or on a raise Absurd will not retry; it hands back the value as returned |
| Handler.HandlerRun.SendFinishedIfTerminal | django_absurd/worker.py:503-533 | A failure is reported exactly when Absurd's own rule does not retry, with the error appended |
| Handler.FinishedExactlyOnce | django_absurd/worker.py:446-523 | Over a task's whole life `task_finished` is sent once for completion or failure by a raise on the attempt not retried, then as the last signal with the matching status, value or error, plus once for every announced success the SDK could not store; so exactly once for those endings if and only if none was |
| Handler.CompletedStoresWhatItReturned | django_absurd/worker.py:489-498 | Over a whole life a completed task stores what the SDK makes of the value its last run returned, its last signal carries what Django makes of it, and the two agree exactly when the encoders do |
| Handler.EncodersDisagree | django_absurd/worker.py:492-496 | A value the encoders render differently is signalled one way and stored another |
| Handler.OnlyCompletedStores | django_absurd/worker.py:498-498 | Only a completed task stores a payload |
| Handler.EveryRunStarts | django_absurd/worker.py:452-460 | `task_started` is sent once for each run of the handler, for its own attempt |
| Handler.AttemptsGoUpByOne | django_absurd/worker.py:526-533 | Attempts start at one and go up by one after each run that neither ended the task nor suspended |
| Handler.AttemptsStayInBounds | django_absurd/worker.py:526-533 | A task with unlimited attempts never fails; a bounded one never passes its last attempt and fails only there |
| Handler.UnreportedEndings | django_absurd/worker.py:489-498 | A failed task goes without `task_finished` if and only if it did not fail by a raise and no success was announced before; unless Absurd failed it itself, its last attempt then returned what Django's encoder refuses |
| Handler.FailuresHaveCauses | django_absurd/worker.py:481-498 | A failed task's cause is a raise, a failure Absurd made itself, or a return one of the two encoders refused |
| Handler.RefusedReturns | django_absurd/worker.py:489-498 | Lives that end unreported, misreported as a success, and completed with two `task_finished` |
| Replay.TaskContext.StepAsync | django_absurd/context.py:196-217 | One async step does what the step specification says to the table, the trace and the result |
| Replay.TaskContext.StepSync | django_absurd/context.py:109-123 | The bridged sync step gives the same table, trace and result as the async one, for the same function |
| Replay.StepTraceTells | django_absurd/context.py:109-123 | A committed step is replayed and not run; a new one is run and logged as completed only right after its value is persisted; a throwing one is neither |
| Replay.CommittedStepsAreFinal | django_absurd/context.py:109-123 | From any state and for any later events, a committed value never changes and its function never runs again |
| Catching.FunctionsRunOncePerAttempt | django_absurd/context.py:109-123 | Under every schedule of failures, suspensions and crashes no step's function runs twice in one attempt, if and only if the body never suspends once a step has thrown |
| Replay.RerunsFollowACaughtThrow | django_absurd/context.py:109-123 | Under any body a function that runs again within an attempt threw before, and the body catches throws |
| Catching.PossibleIsReached | django_absurd/context.py:196-254 | Whatever a body can come to see, values where it asks and throws where it runs a step, one first attempt sees |
| Replay.ResultIsOnePass | django_absurd/context.py:109-123 | However a finished task was cut up, its ending is what one pass over the committed values computes, if and only if the attempt that finished it saw no step throw |
| Replay.ReturnedIsOnePass | django_absurd/context.py:109-123 | A body that catches nothing returns only what one pass over the committed values computes |
| Catching.BodiesThatReturnOnePass | django_absurd/context.py:109-123 | Every value a body returns, under any schedule, is what one pass over the committed values computes, if and only if the body never returns once a step has thrown |
| Catching.BodiesThatEndAsOnePass | django_absurd/context.py:109-123 | The same of every ending, if and only if the body never ends once a step has thrown |
| Catching.RowsAreThoseOfOneRun | django_absurd/context.py:196-217 | Under any schedule a finished task's committed rows are those of one uncut run shown what its last attempt saw, if and only if the body cannot commit a row on one history and end on another, agreeing, that never comes to it |
| Catching.RowStaysBehind | django_absurd/context.py:196-217 | For two such histories, a run of commit, crash and second attempt that ends with the row left over |
| Catching.FallbackLeavesARow | django_absurd/context.py:196-217 | A body that runs "b" only when "a" throws has two such histories |
| Catching.SuspendingAfterAThrowReruns | django_absurd/context.py:109-123 | A body that suspends on a history with a throw has a run in which a function runs twice in one attempt |
| Catching.CaughtThrows | django_absurd/context.py:109-123 | A body that catches runs a step's function twice in one attempt and returns what no pass over the committed values computes |
| Replay.ReplayRefinesOneRun | django_absurd/context.py:196-254 | One attempt, never interrupted and shown what the last attempt saw, reaches the same ending as any schedule of failures, suspensions and crashes that finished, commits nothing that schedule did not, and for a body that catches nothing commits the very same rows |
| Replay.RowsLieOnTheLastPath | django_absurd/context.py:196-217 | With a body that catches nothing, every committed row of a finished task lies on the path of the attempt that finished it |
| Replay.ReachableKeepsInv | django_absurd/context.py:196-254 | In every reachable state a live attempt, and the one that ended a task, saw exactly what the table holds, every row was committed where still-standing values lead, and reruns within an attempt follow a caught throw |
| Replay.KeysAreDistinct | django_absurd/context.py:210-214 | No checkpoint comes twice in an attempt, even when step names repeat |
| Replay.OperationFollows | django_absurd/context.py:196-217 | One durable operation, replayed or new, shows the body what the table then holds and changes no committed row |
| Replay.UninterruptedReplays | django_absurd/context.py:196-217 | The uninterrupted schedule shows the body the same history in a single attempt, committing nothing else |
| SpawnOptions.BuildMergedSpawnOptions | django_absurd/tasks.py:112-124 | The layer loop computes the right-biased merge of the two layers |
| SpawnOptions.MergeLaws | django_absurd/tasks.py:112-124 | Merging is associative, absorbs a repeated lower layer, and a lower layer vanishes exactly when the upper one covers its keys |
| SpawnOptions.RebuildsKeepOptions | django_absurd/tasks.py:73-85 | Any chain of `using` and `bind`, each re-folding the defaults, ends with the defaults overlaid by each bound layer once |
| SpawnOptions.RebuildsRoute | django_absurd/tasks.py:49-85 | However a task is rebuilt, its queue, backend and due time are the last a `using` named or those declared, and binding options never reroutes |
| SpawnOptions.AttemptsAreTheTasksOwn | django_absurd/backends.py:138-144 | An enqueue asks for the task's own attempts, a stored null included, and for the backend's only when the task names none |
| SpawnOptions.BoundLayersAbsorbDefaults | django_absurd/params.py:31-51 | Folding the decorator defaults under a chain's options again changes nothing |
| SpawnOptions.DecoratorsNeverHoldAKey | django_absurd/params.py:54-88 | A stack of decorators is accepted exactly when none names a per-invocation field, and then the function's defaults never hold a key or headers |
| SpawnOptions.DecoratingIsBinding | django_absurd/params.py:54-68 | Stacked decorators give the defaults that binding the same layers in that order would, so the outer one wins |
| Backend.Project.EnqueueTask | django_absurd/tasks.py:63-65 | A task is enqueued in the store its own alias reaches, or handed elsewhere when the alias is not an Absurd backend's |
| Backend.Project.EnqueueOn | django_absurd/backends.py:129-217 | The in-place enqueue refuses or writes exactly the one row the specification plans, in its backend's store, with its error cases in the source's order |
| Backend.RefusalSaysWhy | django_absurd/backends.py:187-204 | An enqueue is refused as invalid exactly for a queue outside the declared ones, as unprovisioned exactly for a declared queue not there, and as undeclared exactly for a queue not there when none are declared |
| Backend.Project.EnqueueDeferredTarget | django_absurd/deferred.py:71-88 | The wrapper's enqueue reroutes and rebinds the imported task and writes that task's row wherever the definition's own alias leads |
| Backend.DeferralPreservesMeaning | django_absurd/backends.py:138-174 | The write a due wrapper makes, store and row, is the write an immediate enqueue of the same task makes, if and only if the definition's alias reaches the same store and takes the queue, the definition is not deferred, and the enqueued task carries every option bound on it |
| Backend.DerivedTasksKeepTheirMeaning | django_absurd/deferred.py:71-88 | A task derived from the importable definition by any rebuilds keeps its meaning when deferred if and only if it still reaches the definition's store |
| Backend.ReroutedDeferralGoesElsewhere | django_absurd/deferred.py:81-86 | A task rerouted to another alias and deferred is enqueued there and woken in the definition's database, or in none |
| Backend.BoundDefinitionLeaksItsOptions | django_absurd/deferred.py:84-86 | A woken task carries an option only the definition binds |
| Backend.WokenOptions | django_absurd/deferred.py:81-86 | The woken task enqueues with the definition's options overlaid by those the wrapper kept, on the caller's queue and the definition's alias |
| Backend.WrapperKeyDiffers | django_absurd/backends.py:163-171 | The caller's key reaches the inner enqueue unchanged, the definition's own when the caller gave none, and meets the wrapper's key if and only if the definition is itself deferred |
| Backend.RebuildsExtend | django_absurd/params.py:31-51 | A derived task carries every option of the task it came from |
| Backend.SuffixHoldsColon | django_absurd/deferred.py:28-35 | A name with the deferral suffix holds a colon, so no dotted path has it |
| DeferredRuns.ReachableKeepsInv | django_absurd/deferred.py:38-68 | In every reachable state wrappers are exactly the deferred rows, held keys and rows agree, and each checkpointed or completed wrapper names a row made by or for its enqueue |
| DeferredRuns.WakeAsksForTheCall | django_absurd/deferred.py:54-88 | A due wrapper asks for the caller's task, call and queue, under the caller's key or else the definition's |
| DeferredRuns.WakeReturnsTarget | django_absurd/deferred.py:54-88 | The id a wake brings back names a row with that key, and without a key the caller's own call, made after the wrapper and not before it was due |
| DeferredRuns.SpawnReturns | django_absurd/backends.py:178-184 | A spawn's id names a row with the requested key, the requested row itself without one, and touches no earlier row |
| DeferredRuns.SpawnTwice | django_absurd/backends.py:163-171 | Asking twice for one spawn makes one row exactly when it carries a key |
| DeferredRuns.SecondWakeDedupes | django_absurd/deferred.py:54-66 | A crash between the enqueue and its checkpoint leaves one target row if and only if the caller or the definition gave a key |
| DeferralLimits.CrashMakesTwoTargets | django_absurd/deferred.py:54-66 | A run from an empty store in which one deferral without a key ends with two target rows |
| Results.ResultIdRoundTrip | django_absurd/backends.py:233-237 | Decoding inverts encoding for any queue name, since a textual UUID has no colon, and refuses exactly colon-free text |
| Results.ReachableChainsEnd | django_absurd/backends.py:219-230 | In every reachable state following completed wrappers terminates, each hop landing on a retained row of the same queue |
| Results.TargetIsNearer | django_absurd/backends.py:226-229 | Each hop strictly shortens the key that is left, which is the real termination measure |
| Results.ChainEnd | django_absurd/backends.py:219-230 | Every chain ends at a retained row of the same queue that is not read through |
| Results.ResultIsTheEnds | django_absurd/backends.py:298-371 | A result is read exactly when the queue is declared and the end's task importable; it is SUCCESSFUL exactly when the row at the end of the chain completed, and then it is a real task with its own value; FAILED exactly when that row failed or was cancelled; READY exactly while it is pending or a sleeping wrapper; its start, id, error and return value are exactly those of that row, none of a wrapper having started; an unreadable one says which of the two was missing; path and call are that row's |
| Results.UnknownIdReadsNothing | django_absurd/backends.py:219-230 | An id without a colon, of an undeclared queue or of no row reads as no task |
| Results.WaitingWrapperReads | django_absurd/backends.py:317-343 | In every reachable state an unfinished wrapper reads as the caller's task and call, not started, READY while pending or sleeping, FAILED exactly when the wrapper failed or was cancelled |
| Results.UnkeyedWrapperReadsItsTarget | django_absurd/backends.py:226-229 | In every reachable state a completed wrapper whose target has no key reads as the caller's task and call, from a row made after it and not before it was due |
| Results.KeyedWrapperReadsTheHolder | django_absurd/backends.py:226-229 | With a key, a deferred id reads exactly like the id an immediate enqueue under that key gets back |
| Results.WokenTargetOrder | django_absurd/backends.py:163-171 | A due wrapper's enqueue lands on an earlier row exactly when one held the key |
| Results.WokenWrapperPayload | django_absurd/backends.py:226-229 | A wrapper that wakes, checkpoints and finishes is read through to a row no older than it if and only if no earlier row held the key |
| Results.WokenTarget | django_absurd/deferred.py:71-88 | A wake brings back the row that already holds the key, adding none, or else a new pending row for the caller's own task and call |
| Results.FinishedDeferralReads | django_absurd/backends.py:226-229 | At the instant a deferral that wakes in any reachable state finishes, it reads as the caller's task, args and kwargs if and only if its key was free or held by a row that reads as that same call, and the backend declares the queue |
| Readings.DeferralWaitsForItsTime | django_absurd/backends.py:149-171 | Over every run, the row an accepted `run_after` enqueue adds can wake only once that instant has come, is allowed the backend's own attempts, and, without a key, is read through to the call enqueued, spawned no earlier |
| Readings.EnqueuedTaskReads | django_absurd/backends.py:172-185 | Over every run, a task enqueued to run at once reads as its task, args and kwargs in every later state and keeps its options |
| Readings.AddedRow | django_absurd/backends.py:145-185 | An accepted enqueue adds a row for the call asked, deferred or not, with the options and due time asked |
| Readings.CompletedDeferralReads | django_absurd/backends.py:226-229 | In every reachable state a completed deferral reads as the caller's task, args and kwargs if and only if the backend declares its queue and it carries no key or the chain of its key's holder ends, in that state, at a row for that call |
| Readings.ReadingIsFixed | django_absurd/backends.py:226-229 | Once a chain ends at a real task, or at a wrapper that failed or was cancelled, the id names the same task, args and kwargs in every later state, and the same result once that row has ended |
| Readings.DeferralReadsForLife | django_absurd/backends.py:226-229 | From every reachable state, a deferral at any stage reads as the caller's task, args and kwargs in all later states if and only if its queue is declared, its task importable and its row steady |
| Readings.SteadyStays | django_absurd/backends.py:226-229 | No event undoes that a row reads as a call for good |
| Readings.SteadyReads | django_absurd/backends.py:226-229 | A steady row's chain ends at a row for the call |
| Readings.Breaks | django_absurd/backends.py:163-171 | Where a row is not steady some run ends its chain at a row for another call: by an enqueue under a key still free, or by completing wrappers on the way |
| Readings.Complete | django_absurd/deferred.py:54-68 | A wrapper that has not failed, of an importable task, can be brought to completion, adding no row when its key is held |
| DeferralLimits.ReadingCanChange | django_absurd/backends.py:226-229 | A run from an empty store after which a deferral reads as its own call when it finishes, and as another call once the wrapper it landed on has woken |
| Results.CompletedTarget | django_absurd/backends.py:226-229 | In any reachable state a completed wrapper's payload decodes to a row its enqueue brought back, one hop nearer the end |
| Results.EndDecidesTheReading | django_absurd/backends.py:298-343 | In any store where chains end, a deferred id reads as its own call exactly when the row at its chain's end stands for that call and the queue is declared |
| Results.FinishedChain | django_absurd/backends.py:226-229 | A finished deferral's chain ends where its key's holder led, or at the row made for it |
| Results.ChainUntouched | django_absurd/backends.py:226-229 | A chain that starts nearer than a row never passes through it |
| Results.FinishReadsThrough | django_absurd/deferred.py:64-66 | A checkpointed id becomes the payload the finished wrapper is read through |
| DeferralLimits.EarlierHolderIsReachable | django_absurd/backends.py:163-171 | A run from an empty store reaches a wrapper whose key an earlier row for another call holds |
| DeferralLimits.AnotherCallIsRead | django_absurd/backends.py:226-229 | A run from an empty store after which the id of a deferred call reads as another call |
| DeferralLimits.DeferredDefinitionLoops | django_absurd/deferred.py:81-86 | Under a deferred definition a keyed wrapper's payload is its own id |
| DeferralLimits.ReadingEndsExactly | django_absurd/backends.py:219-230 | Following wrappers ends in every reachable state if and only if no importable definition is itself deferred |
| Registry.LazyTaskRegistry.Get | django_absurd/worker.py:118-146 | Under stable imports the cache returns and keeps exactly what fresh resolution gives, and remembers no failure |
| Registry.EnqueuedRowsDispatchToTheirTask | django_absurd/worker.py:121-145 | A row an enqueue writes dispatches to the caller's task, or to the handler that enqueues exactly it later, for every colon-free path |
| CronOptions.RebuildOptions | django_absurd/pg_cron/migrations/0001_initial.py:33-48 | The branch-by-branch PL/pgSQL computes the rebuilt options |
| CronOptions.Clean | django_absurd/pg_cron/models.py:124-170 | `clean` reports the retry kind exactly for timing without a kind, the queue exactly when blank or undeclared, the cron exactly when invalid |
| CronOptions.OptionsRoundTrip | django_absurd/pg_cron/reconcile.py:57-85 | Rebuilding after flattening is the identity exactly on options with no empty or null part; flattening after rebuilding is the identity exactly on columns `clean()` has no retry-kind error for |
| CronOptions.RowKeepsStripped | django_absurd/pg_cron/reconcile.py:57-85 | Whatever options go in, the row keeps them with null and empty parts dropped, which changes nothing exactly for canonical ones |
| CronOptions.WhatTheRowLoses | django_absurd/pg_cron/migrations/0001_initial.py:34-39 | A null option and timing without a kind are lost on the way round |
| CronOptions.RebuildIsCanonical | django_absurd/pg_cron/migrations/0001_initial.py:33-48 | What the run wrapper rebuilds is canonical, so a second round trip loses nothing more |
| CronOptions.FiringMatchesEnqueue | django_absurd/pg_cron/reconcile.py:110-125 | For any path, importable task and queue override, a firing makes the write an enqueue of that task makes, if and only if the path is the task's module path, the task's alias reaches the same database and takes its queue, the task is not deferred, its effective options are its decorator's stripped of nulls, and the override keeps its queue |
| CronOptions.DeclaredFiringMatchesEnqueue | django_absurd/pg_cron/reconcile.py:36-85 | For a task as `@task` leaves it that condition is that the schedule gives its module path and its decorator's options are canonical |
| Schedules.SyncSchedules | django_absurd/pg_cron/reconcile.py:109-137 | After a reconcile of the schedules as settings declare them, each has an armed job on its own cadence, one firing of which spawns its path, call and queue, and that spawn is the write of an enqueue exactly under the condition of `FiringMatchesEnqueue` |
| Schedules.ScheduleFires | django_absurd/pg_cron/migrations/0001_initial.py:20-51 | A firing of a declared schedule's job spawns its row's request, once |
| Schedules.BeatAsks | django_absurd/scheduler.py:67-80 | The beat asks the scheduling backend for the task's own options with the occurrence's key over them, on the schedule's queue |
| Schedules.SchedulersAgree | django_absurd/scheduler.py:67-80 | For one schedule the beat and the job make the same write, the beat's key aside, if and only if the backend takes the queue, the schedule gives the module path, the task is not deferred and its options are its decorator's stripped of nulls |
| Schedules.SchedulersDisagree | django_absurd/scheduler.py:67-80 | A task bound to three attempts is spawned with three by the beat and with the backend's five by the job |
| CronOptions.AliasedPathFiresUnderItsOwnName | django_absurd/pg_cron/reconcile.py:118-118 | A task scheduled by another path it imports from is fired under that path, and in nothing else unlike its enqueue |
| CronOptions.BoundDefinitionFiresDifferently | django_absurd/pg_cron/reconcile.py:50-53 | A task bound at module level to three attempts is enqueued with three and fired with the backend's five |
| Catalog.JobNameInjective | django_absurd/pg_cron/catalog.py:20-24 | Job names are injective in database, source and name for colon-free sources and names, whatever the database names hold |
| Catalog.LaneSelectsItsSource | django_absurd/pg_cron/catalog.py:20-24 | Within a database a lane's prefix matches exactly its own source's names |
| Catalog.PrefixNeedsTheDatabase | django_absurd/pg_cron/catalog.py:74-80 | The prefix alone can match another database's job |
| Catalog.PruneTouchesOneLane | django_absurd/pg_cron/catalog.py:83-98 | Pruning or unscheduling a lane keeps every job of every other lane and database |
| Catalog.CronJobs.ScheduleJob | django_absurd/pg_cron/catalog.py:27-53 | Scheduling leaves one job with the asked cadence, command and armed state, though the upsert alone would not re-arm it, and no other job changes |
| Catalog.CronJobs.UnscheduleAll | django_absurd/pg_cron/catalog.py:131-149 | Removing jobs one by one, tolerating those already gone, removes exactly the named ones |
| Catalog.CronJobs.PruneJobs | django_absurd/pg_cron/catalog.py:83-98 | Exactly the lane's jobs outside the kept names go |
| Catalog.CronJobs.UnscheduleJobsForDatabase | django_absurd/pg_cron/catalog.py:67-80 | Exactly one lane of one database goes |
| Catalog.CronJobs.FlushDatabaseJobs | django_absurd/pg_cron/catalog.py:101-118 | Exactly this database's owned jobs go and every other job is as it was |
| Reconcile.Reconciler.SyncCrons | django_absurd/pg_cron/reconcile.py:88-137 | From any rows and jobs, with any emissions lost, the rows become the declared ones, every declared name not lost has its exact job, no undeclared name keeps one, and the counts are right; with none lost the settings lane is in bijection with its rows, equal in cron and armed state, and the cleanup job is there iff declared; a settled state is left alone and reports (0, 0); other lanes and databases are untouched |
| Reconcile.PruneKeepsWithin | django_absurd/pg_cron/catalog.py:83-98 | After a prune the lane holds jobs of kept names only, and every one it held of them |
| Reconcile.Reconciler.SyncAdminCrons | django_absurd/pg_cron/reconcile.py:166-184 | From any jobs the admin lane ends in bijection with its rows, nothing outside it changes, and a matching lane is left alone |
| Reconcile.Reconciler.ReconcileAfterMigrate | django_absurd/pg_cron/apps.py:71-95 | Both reconcilers converge from any state and a second pass changes nothing and reports (0, 0) |
| Reconcile.Reconciler.ReconcileCleanupJob | django_absurd/pg_cron/reconcile.py:140-163 | The cleanup job is on its cadence exactly when declared, and no other job changes |
| Reconcile.Reconciler.TeardownCrons | django_absurd/pg_cron/reconcile.py:187-209 | Exactly the torn-down lanes' jobs and rows and the cleanup job go, and the count is of the rows removed |
| Reconcile.Reconciler.SyncSettings | django_absurd/pg_cron/reconcile.py:105-134 | The settings part alone: rows as declared, jobs differing only in the settings lane, and matching when nothing is lost |
| Reconcile.Reconciler.UpsertDeclared | django_absurd/pg_cron/reconcile.py:109-126 | The upsert loop writes each declared row and emits each job not lost, counting the rows created |
| Reconcile.Reconciler.DeleteUndeclared | django_absurd/pg_cron/reconcile.py:128-133 | The delete removes exactly the undeclared settings rows and no declared schedule's job |
| Reconcile.Reconciler.SaveRow | django_absurd/pg_cron/signals.py:61-104 | A save writes the row and, unless the emission is lost, schedules exactly its job |
| Reconcile.Reconciler.DeleteRow | django_absurd/pg_cron/signals.py:72-104 | A delete removes the row and, unless the emission is lost, exactly its job |
| Reconcile.MatchedJob | django_absurd/pg_cron/models.py:172-195 | In a matching lane each row's job is on the row's cadence, bound to the database, runs the row's wrapper and is armed exactly when the row is enabled |
| Reconcile.LaneDetermined | django_absurd/pg_cron/reconcile.py:88-137 | A lane's jobs are determined by its rows, which is why a settled reconcile is a fixpoint |
| Reconcile.PruneMatches | django_absurd/pg_cron/catalog.py:83-98 | Once every row has its job, pruning to the rows' names makes the lane match |
| Reconcile.OtherLaneKeeps | django_absurd/pg_cron/reconcile.py:88-137 | Work in one lane leaves another lane matching its rows |
| Reconcile.OverlayThenDelete | django_absurd/pg_cron/reconcile.py:109-133 | Upserting then deleting gives exactly the declared settings rows beside every other row |
| Reconcile.SyncIsIdempotent | django_absurd/pg_cron/reconcile.py:88-137 | Syncing rows twice is syncing them once, and synced rows have nothing undeclared |
| Reconcile.CleanupLeavesLane | django_absurd/pg_cron/reconcile.py:140-163 | The cleanup job sits in neither schedule lane |
| Divergence.DivergenceIsNeverAWrongSpawn | django_absurd/pg_cron/migrations/0001_initial.py:20-51 | Over any run of saves, deletes, signal-less writes, lost or late emissions, prunes and firings, every spawn uses the contents of a row that exists and is enabled at that moment, and the row the job is named for |
| Divergence.FireSpawnsExactly | django_absurd/pg_cron/migrations/0001_initial.py:20-51 | A firing spawns if and only if its job is armed, bound here, and runs the wrapper of an enabled row, and then spawns that row's request once |
| Divergence.ApplyKeepsCommands | django_absurd/pg_cron/models.py:172-195 | Every event keeps each job running the wrapper for the row it is named for |
| Divergence.FireSpawnsItsRow | django_absurd/pg_cron/migrations/0001_initial.py:21-29 | A firing that spawns re-read its own enabled row |
| Beat.RunBeat | django_absurd/scheduler.py:88-120 | Every entry ends exactly as the completed passes' clock readings say, and the loop ends only at a stop set at its head or one that interrupts a wait with nothing due |
| Beat.TakePass | django_absurd/scheduler.py:112-120 | A pass stops exactly when the wait is stopped while nothing is due; otherwise it visits every entry |
| Beat.BeatEntry.Visit | django_absurd/scheduler.py:117-120 | One look fires the entry if it is due and advances it from the reading, else leaves it |
| Beat.EveryOccurrenceIsAccountedFor | django_absurd/scheduler.py:111-120 | Under any clock, even one stepping back, every occurrence up to the last reading is covered by exactly one firing, due times strictly increase, and none fires early |
| Beat.OccurrencesSplit | django_absurd/scheduler.py:111-120 | The occurrences before the next due time split into those fired and those one pass overran |
| Beat.FiringsAdvance | django_absurd/scheduler.py:117-120 | Each firing is of a real occurrence after the start, not before it is due, and what one pass covers ends before the next due time |
| Beat.PassesMakeAChain | django_absurd/scheduler.py:117-120 | The log is a chain of next occurrences and no entry is left overdue by the last reading |
| Beat.RawKeyInjective | django_absurd/scheduler.py:59-64 | Within a backend the text hashed is injective in name, cron and due time for bar-free crons, whatever bars names hold |
| Beat.DerivedKeysDiffer | django_absurd/scheduler.py:59-64 | Under a collision-free hash two occurrences share a key exactly when they are the same |
| Beat.RacingBeatsSpawnOnce | django_absurd/scheduler.py:59-80 | However beats interleave, the rows are in one-to-one correspondence with the distinct due times fired |
| FrozenClock.FreezeTime | django_absurd/test.py:377-433 | A nested freeze changes nothing; an entered one holds all clocks at the instant given, or at the reading at entry; in an open window Postgres is at or behind Python at entry and after every act; afterwards the handle is dead and, if stopping Python returns, both clocks are real except exactly after a backward entry cut between Postgres and Python; with that exception Postgres is released even if stopping Python raises |
| FrozenClock.PostgresNeverLeads | django_absurd/test.py:450-503 | Any body of moves and shifts, each cut anywhere, keeps Postgres at or behind Python, and a completed move brings all clocks to one instant |
| FrozenClock.OrderIsForced | django_absurd/test.py:453-466 | From clocks in step, an order of writes is safe at every interruption point exactly when it is the one the direction picks, or nothing moves |
| FrozenClock.TestRuntime.ApplyClockMove | django_absurd/test.py:450-503 | A refused move changes nothing, an accepted one leaves exactly its completed writes in the direction's order, and a completed one leaves all clocks equal |
| FrozenClock.FrozenTime.MoveWithinWindow | django_absurd/test.py:404-422 | An escaped handle is refused and changes nothing |
| FrozenClock.FrozenTime.MoveTo | django_absurd/test.py:186-191 | A move inside the window keeps Postgres at or behind Python |
| FrozenClock.FrozenTime.Shift | django_absurd/test.py:193-210 | A completed shift lands all clocks exactly `delta` after the frozen instant |
| FrozenClock.TestRuntime.ReleaseClock | django_absurd/test.py:565-580 | Release without an open freeze touches nothing; with one it unsets Postgres even if stopping Python raises |
| FrozenClock.LeakingEntry | django_absurd/test.py:498-500 | A freeze entered an hour back whose Python start fails leaves Postgres frozen with nothing left to release |
| FrozenClock.RunBody | django_absurd/test.py:424-433 | What the clocks hold after each act is the course the acts determine |
| IdleSlots.BuildIdleSlotSeconds | benchmarks/analysis.py:476-504 | The sweep over sorted distinct moments equals the sum over every unit instant of the free slots capped by the waiting work |
| IdleSlots.FlatBetweenMoments | benchmarks/analysis.py:498-503 | Between adjacent moments what an instant contributes does not change |
| IdleSlots.NothingCountsPastTheLastClaim | benchmarks/analysis.py:479-482 | Where the reading ends does not matter from the last claim on |
| IdleSlots.RowOrderDoesNotMatter | benchmarks/analysis.py:495-504 | The figure depends only on the multiset of rows |
| IdleSlots.TimeShiftDoesNotMatter | benchmarks/analysis.py:496-504 | Moving the whole drain in time leaves the figure as it was |
| IdleSlots.IdleIsCappedByWaiting | benchmarks/analysis.py:484-487 | The figure is never negative and never more than the time tasks spent waiting |
| IdleSlots.IdleAndBusyFitTheSlots | benchmarks/analysis.py:476-504 | Idle and busy slot-seconds fit in `slots` times the span when no more than `slots` runs overlap |
| IdleSlots.SlotSecondsAreConserved | benchmarks/analysis.py:476-504 | When no more than `slots` runs overlap, every slot-second of the drain is busy, idle and wanted, or spare, and never two of these |
| IdleSlots.WaitingIsConserved | benchmarks/analysis.py:484-487 | The time tasks waited is the figure plus the time they waited with no free slot to take |
| IdleSlots.DoubleCounting | benchmarks/analysis.py:499-500 | Counting busy or waiting runs instant by instant equals adding up durations or waits |
| Interleave.InterleavingIsAPermutation | benchmarks/producer.py:71-89 | The result holds every group's every item once and no other, ordered by exact key, ties as listed |
| Interleave.GroupOrderIsKept | benchmarks/producer.py:86-89 | A group's items keep their order and none comes twice |
| Interleave.EveryPrefixIsFair | benchmarks/producer.py:71-89 | Every prefix of length p holds at least p*c/T - 1 and at most (p+G-1)*c/T items of a group of c, with G the groups that hold anything |
| Interleave.TwoGroupsAreWithinOne | benchmarks/producer.py:71-89 | With two groups every prefix is within one item of each exact share |
| Interleave.ItemsLandNearTheirPlace | benchmarks/producer.py:74-78 | An item lands no later than its exact place and short of it by at most the number of groups |
| Interleave.TallyAgainstTheLastKey | benchmarks/producer.py:81-89 | A prefix leaves out no smaller key than its last item's and lets in no larger one |
| Interleave.PrefixHoldsFirstRanks | benchmarks/producer.py:81-89 | A prefix holds exactly the first so many items of each group |
| QueuePlanning.Provisioner.SyncQueues | django_absurd/queues.py:279-287 | The write loop reports what the dry run on the starting catalog reports, stops exactly where a queue cannot be repaired, leaves every queue done as declared so that re-planning finds nothing, and keeps undeclared queues |
| QueuePlanning.Provisioner.PlanQueueSync | django_absurd/queues.py:132-145 | The dry run reports the plans against the catalog as it is |
| QueuePlanning.Provisioner.PlanQueue | django_absurd/queues.py:148-172 | The planner decides create, repair and policy by reading only |
| QueuePlanning.Provisioner.ApplyQueuePlan | django_absurd/queues.py:175-181 | The writes make the planned change or are refused |
| QueuePlanning.Provisioner.ReconcileQueue | django_absurd/queues.py:124-129 | Reconciling one queue fails exactly when it cannot be repaired, and otherwise leaves it as declared and every other queue alone |
| QueuePlanning.Provisioner.CheckMutableOptionsDrifted | django_absurd/queues.py:343-355 | The early-returning loop finds drift exactly when some declared option differs from the stored one, intervals compared parsed |
| QueuePlanning.PlanThenApply | django_absurd/queues.py:148-181 | Applying a plan fails exactly for an unrepairable queue and otherwise provisions the queue and touches no other |
| QueuePlanning.AppliedPolicy | django_absurd/queues.py:148-181 | Applying a plan leaves each of the six policy options as declared, intervals parsed, those not declared as they were or at their default, and an existing queue's storage mode alone |
| QueuePlanning.OthersKeepTheirPlans | django_absurd/queues.py:132-145 | Applying one queue never alters another's plan |
| QueuePlanning.ProvisionedPlansAreIdle | django_absurd/queues.py:148-172 | A queue's plan asks for nothing exactly when the queue is as declared |
| QueuePlanning.ReportIsEmptyWhenProvisioned | django_absurd/queues.py:184-193 | The report is empty exactly when every declared queue is as declared |
| QueuePlanning.ReportSaysWhatIsWrong | django_absurd/queues.py:184-193 | The report lists, in the order declared, as created the queues without a row, as repaired those whose row outlived a table, as reconciled those whose policy drifted |
| QueuePlanning.RepairCanBeRefused | django_absurd/queues.py:158-163 | A partitioned row that lost its tables is reported as a repair the write refuses |
| QueuePlanning.TablesAreFive | django_absurd/queues.py:245-257 | A queue's tables are the five prefixed ones |
| QueuePlanning.TablesAreDisjoint | django_absurd/queues.py:245-257 | Two queues share no table name |
| Text.RSplitUnique | django_absurd/backends.py:233-237 | Splitting at the last separator undoes joining, whatever the head holds |
| Text.SuffixRoundTrip | django_absurd/worker.py:122-130 | Appending a suffix is recognised and undone by stripping it |

## Left out

- Worker.WindowedLoop.RefillUntilStopped: a second cancellation while the loop is already cancelling or settling, and runs claimed but not launched because a cancellation arrived during the claim, which the source does not promise anything about.
- Worker.SequentialLoop.ExecuteOneAtATime: runs of a batch still unexecuted when a run breaks or the loop is cancelled are left to their leases, as in the source.
- `adrain_queue`: its loop is the batch shape of the sequential one with per-run reads, and would add easy members.
- Handler.FinishedExactlyOnce: crashes and lease expiry, after which Absurd runs an attempt again and signals may repeat.
- Handler.HandlerRun.Handle: timestamps, worker ids, the traceback in an error, and receivers that raise.
- Replay.ReplayRefinesOneRun: two live attempts of one task, heartbeats, the bridge's timeout, events that time out, and bodies that are not deterministic between durable operations.
- Replay.TaskContext.StepAsync: durations and log texts; the order of log events is kept.
- Backend.Project.EnqueueOn: Django's own `validate_task` beyond the queue check, the missing-schema error, the `task_enqueued` signal, and the SDK's normalisation of option values, taken as the identity.
- Backend.Project.EnqueueTask: what a backend that is not Absurd's does with the task it is handed.
- DeferredRuns.ReachableKeepsInv: one backend and one database; retention cleanup; a row whose state Absurd may add later, which reads READY.
- Results.ResultIsTheEnds: enqueue and finish times, worker ids, and the text of errors.
- CronOptions.OptionsRoundTrip: whether Absurd treats a missing option as it treats a null one, JSON nulls nested inside headers, and numbers whose database type is narrower than Python's.
- Schedules.SyncSchedules: a schedule whose task cannot be imported, on which the reconcile raises.
- CronOptions.Clean: the wording of errors; an unimportable task.
- Catalog.CronJobs.ScheduleJob: the inert test-database gate, SQL quoting, and two jobs with one name under different pg_cron users.
- Catalog.CronJobs.FlushDatabaseJobs: the run history it also deletes.
- Reconcile.Reconciler.SaveRow: rows saved with a name that skipped validation and holds a colon.
- Reconcile.Reconciler.SyncCrons: admin rows whose names bypassed validation, and saves made while no backend is configured, which emit nothing.
- Reconcile.Reconciler.ReconcileAfterMigrate: the choice of backend and the swallowed errors around the two calls.
- Beat.RunBeat: exceptions inside a fire, which are logged and swallowed, and cron semantics, time zones and daylight saving, which stay inside the abstract calendar.
- FrozenClock.FreezeTime: real time ticking before the first write and after the release, a failing reset of Postgres, and which connection a write lands on.
- IdleSlots.BuildIdleSlotSeconds: time is an integer number of units, so floating-point error is not modelled.
- Interleave.EveryPrefixIsFair: keys are exact fractions; floats may tie two close keys.
- QueuePlanning.Provisioner.SyncQueues: the advisory lock, view rebuilding, an absent schema, and declared intervals Postgres refuses.
- Benchmark reporting, admin classes, views, system checks, routers, command output, the pytest plugin: plumbing or single-branch facts.
