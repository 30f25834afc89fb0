/** Durable replay: a task body run over a committed checkpoint table, cut and restarted at any point,
    computes what one uninterrupted pass over the committed values computes. */
module Replay {
  import opened Backend
  import opened Wrappers

  /** What a body does next. A sleep or an awaited event is a suspension; it commits a value too. */
  datatype Action =
    | DoStep(name: string)
    | Suspend(name: string)
    | Return(value: Json)
    | Raise(error: string)

  /** What a durable operation shows the body: its value, or a step's function raising. */
  datatype Seen = Got(value: Json) | Threw(error: string)

  /** A body that is deterministic between durable operations: its next action is a function of what
      those operations have shown it so far. It may catch what a step's function raises and go on. */
  type Body = seq<Seen> -> Action

  predicate Durable(action: Action) {
    action.DoStep? || action.Suspend?
  }

  /** The body catches no step's exception. */
  ghost predicate Propagates(body: Body) {
    forall history: seq<Seen> | history != [] && history[|history| - 1].Threw? :: body(history).Raise?
  }

  /** Step names may repeat; a checkpoint is a name with the number of earlier uses in the attempt. */
  datatype Checkpoint = Checkpoint(name: string, occurrence: nat)

  type Table = map<Checkpoint, Json>

  function Uses(body: Body, history: seq<Seen>, name: string): nat {
    if history == [] then 0
    else
      var before := history[..|history| - 1];
      var here := if Durable(body(before)) && body(before).name == name then 1 else 0;
      Uses(body, before, name) + here
  }

  function CheckpointOf(body: Body, history: seq<Seen>): Checkpoint
    requires Durable(body(history))
  {
    Checkpoint(body(history).name, Uses(body, history, body(history).name))
  }

  /*******************************************************************************
   *  One durable step
   *******************************************************************************/

  /** How the user's function would end. */
  datatype FunctionEnd = Gives(value: Json) | Throws(error: string)

  datatype Trace =
    | Began(key: Checkpoint)
    | Replayed(key: Checkpoint)
    | Ran(key: Checkpoint)
    | Persisted(key: Checkpoint, value: Json)
    | LoggedCompleted(key: Checkpoint)

  /** What one `step` call leaves behind: the table, the events in order, and what its caller sees. */
  datatype StepOutcome = StepOutcome(table: Table, trace: seq<Trace>, seen: Seen)

  function StepSpec(table: Table, key: Checkpoint, fn: FunctionEnd): StepOutcome {
    if key in table then StepOutcome(table, [Began(key), Replayed(key)], Got(table[key]))
    else
      match fn
      case Throws(error) => StepOutcome(table, [Began(key), Ran(key)], Threw(error))
      case Gives(value) =>
        StepOutcome(table[key := value], [Began(key), Ran(key), Persisted(key, value), LoggedCompleted(key)], Got(value))
  }

  /** What the trace of a step tells: a committed step is replayed, not run; a new one is run, and logged as
      completed only once its value is persisted; one that throws is neither. */
  lemma StepTraceTells(table: Table, key: Checkpoint, fn: FunctionEnd)
    ensures var outcome := StepSpec(table, key, fn);
      var trace := outcome.trace;
      && |trace| > 0 && trace[0] == Began(key)
      && (key in table <==> Replayed(key) in trace) && (key !in table <==> Ran(key) in trace)
      && (LoggedCompleted(key) in trace <==> key !in table && fn.Gives?)
      && (forall i | 0 <= i < |trace| && trace[i] == LoggedCompleted(key) ::
            i > 1 && trace[i - 1] == Persisted(key, fn.value) && trace[i - 2] == Ran(key))
      && (key in table ==> outcome.seen == Got(table[key]))
      && (key !in table ==> outcome.seen == if fn.Gives? then Got(fn.value) else Threw(fn.error))
      && outcome.table == if key !in table && fn.Gives? then table[key := fn.value] else table
  {
    var trace := StepSpec(table, key, fn).trace;
    assert key in table ==> trace[1] == Replayed(key);
    assert key !in table ==> trace[1] == Ran(key);
    assert key !in table && fn.Gives? ==> trace[3] == LoggedCompleted(key);
  }

  /** The live context of one running task. */
  class TaskContext {
    var table: Table
    var trace: seq<Trace>

    constructor (committed: Table)
      ensures table == committed && trace == []
    {
      table, trace := committed, [];
    }

    method BeginStep(key: Checkpoint) returns (state: Option<Json>)
      modifies this`trace
      ensures state == if key in table then Some(table[key]) else None
      ensures trace == old(trace) + if state.Some? then [Began(key), Replayed(key)] else [Began(key)]
    {
      trace := trace + [Began(key)];
      state := None;
      if key in table {
        state := Some(table[key]);
        trace := trace + [Replayed(key)];
      }
    }

    method CompleteStep(key: Checkpoint, value: Json) returns (result: Json)
      modifies this
      ensures result == value && table == old(table)[key := value]
      ensures trace == old(trace) + [Persisted(key, value)]
    {
      table := table[key := value];
      trace := trace + [Persisted(key, value)];
      result := value;
    }

    /** `AsyncAbsurdTaskContext.step`. */
    method StepAsync(key: Checkpoint, fn: FunctionEnd) returns (seen: Seen)
      modifies this
      ensures old(trace) <= trace
      ensures StepSpec(old(table), key, fn) == StepOutcome(table, trace[|old(trace)|..], seen)
    {
      var state := BeginStep(key);
      if state.Some? {
        return Got(state.value);
      }
      trace := trace + [Ran(key)];
      if fn.Throws? {
        return Threw(fn.error);
      }
      var result := CompleteStep(key, fn.value);
      trace := trace + [LoggedCompleted(key)];
      seen := Got(result);
    }

    /** `AbsurdTaskContext.step`: the same calls, each bridged onto the worker's loop, with the user's
        function between them on the executor thread. */
    method StepSync(key: Checkpoint, fn: FunctionEnd) returns (seen: Seen)
      modifies this
      ensures old(trace) <= trace
      ensures StepSpec(old(table), key, fn) == StepOutcome(table, trace[|old(trace)|..], seen)
    {
      var handle := BeginStep(key);
      if handle.Some? {
        return Got(handle.value);
      }
      trace := trace + [Ran(key)];
      match fn {
        case Gives(rv) =>
          var result := CompleteStep(key, rv);
          trace := trace + [LoggedCompleted(key)];
          return Got(result);
        case Throws(error) =>
          return Threw(error);
      }
    }
  }

  /*******************************************************************************
   *  Attempts under an adversary
   *******************************************************************************/

  datatype Ending = Returned(value: Json) | Raised(error: string)

  /** One run of a step's function. */
  datatype Execution = Execution(attempt: nat, key: Checkpoint, threw: bool)

  /** `live` holds what the running attempt has seen, `last` what the attempt that ended the task saw.
      A run that suspended resumes within the same attempt. */
  datatype System = System(
    table: Table,
    attempt: nat,
    live: Option<seq<Seen>>,
    resuming: bool,
    runs: seq<Execution>,
    ended: Option<Ending>,
    last: seq<Seen>)

  datatype Event =
    | Start                      // a worker claims the run: a new attempt, or a wake-up
    | Advance(fn: FunctionEnd)   // the next action; a suspension whose time has not come suspends on `Throws`
    | Lost                       // a step's function runs, and the process dies before the commit
    | Crash                      // the attempt dies where it stands
    | Retry                      // an attempt whose body raised is given up and retried

  const INITIAL := System(map[], 0, None, false, [], None, [])

  function Apply(body: Body, s: System, event: Event): System {
    match event
    case Start =>
      if s.live.None? && s.ended.None?
      then s.(live := Some([]), attempt := if s.resuming then s.attempt else s.attempt + 1, resuming := false)
      else s
    case Crash => s.(live := None)
    case Retry => if s.live.Some? && body(s.live.value).Raise? then s.(live := None) else s
    case Lost =>
      if s.live.Some? && body(s.live.value).DoStep? && CheckpointOf(body, s.live.value) !in s.table
      then s.(live := None, runs := s.runs + [Execution(s.attempt, CheckpointOf(body, s.live.value), false)])
      else s
    case Advance(fn) =>
      if s.live.None? then s
      else
        var history := s.live.value;
        match body(history)
        case Return(value) => s.(live := None, ended := Some(Returned(value)), last := history)
        case Raise(error) => s.(live := None, ended := Some(Raised(error)), last := history)
        case DoStep(_) =>
          var key := CheckpointOf(body, history);
          var outcome := StepSpec(s.table, key, fn);
          s.(table := outcome.table,
             live := Some(history + [outcome.seen]),
             runs := if Ran(key) in outcome.trace then s.runs + [Execution(s.attempt, key, fn.Throws?)] else s.runs)
        case Suspend(_) =>
          var key := CheckpointOf(body, history);
          if key !in s.table && fn.Throws? then s.(live := None, resuming := true)
          else
            var outcome := StepSpec(s.table, key, fn);
            s.(table := outcome.table, live := Some(history + [outcome.seen]))
  }

  function Run(body: Body, s: System, events: seq<Event>): System {
    if events == [] then s else Apply(body, Run(body, s, events[..|events| - 1]), events[|events| - 1])
  }

  /*******************************************************************************
   *  What every reachable state keeps
   *******************************************************************************/

  /** What a history saw at one point is what the table holds there: the committed value, or, where the
      step threw, nothing. */
  predicate SawTheTable(body: Body, table: Table, history: seq<Seen>, i: nat)
    requires i < |history|
  {
    && Durable(body(history[..i]))
    && var key := CheckpointOf(body, history[..i]);
      match history[i]
      case Got(value) => key in table && table[key] == value
      case Threw(_) => key !in table && body(history[..i]).DoStep?
  }

  predicate Follows(body: Body, table: Table, history: seq<Seen>) {
    forall i | 0 <= i < |history| :: SawTheTable(body, table, history, i)
  }

  predicate StillStands(body: Body, table: Table, history: seq<Seen>, i: nat)
    requires i < |history|
  {
    && Durable(body(history[..i]))
    && (if history[i].Got? then SawTheTable(body, table, history, i) else body(history[..i]).DoStep?)
  }

  /** A row was committed at a point some attempt reached by values that still stand. */
  ghost predicate CommittedAt(body: Body, table: Table, key: Checkpoint, history: seq<Seen>) {
    && Durable(body(history)) && key == CheckpointOf(body, history)
    && forall i | 0 <= i < |history| :: StillStands(body, table, history, i)
  }

  ghost predicate RowsHaveAPath(body: Body, table: Table) {
    forall key | key in table :: exists history :: CommittedAt(body, table, key, history)
  }

  /** Within an attempt that goes on, a function that ran committed or threw, and one that threw out of a
      body that catches nothing leaves it raising. */
  ghost predicate CurrentRunsOk(body: Body, s: System) {
    s.live.Some? || s.resuming ==>
      forall i | 0 <= i < |s.runs| && s.runs[i].attempt == s.attempt ::
        && (s.runs[i].key in s.table || s.runs[i].threw)
        && (s.runs[i].threw && Propagates(body) ==> s.live.Some? && body(s.live.value).Raise?)
  }

  ghost predicate RerunsThrew(body: Body, runs: seq<Execution>) {
    forall i, j | 0 <= i < j < |runs| && runs[i].attempt == runs[j].attempt && runs[i].key == runs[j].key ::
      runs[i].threw && !Propagates(body)
  }

  function ActionOf(ending: Ending): Action {
    match ending case Returned(value) => Return(value) case Raised(error) => Raise(error)
  }

  /** A live attempt has followed the table; a finished task's last attempt had, to the end. */
  ghost predicate Inv(body: Body, s: System) {
    && RowsHaveAPath(body, s.table)
    && (s.live.Some? ==> Follows(body, s.table, s.live.value) && s.ended.None? && !s.resuming)
    && (s.ended.Some? ==> s.live.None? && Follows(body, s.table, s.last) && body(s.last) == ActionOf(s.ended.value))
    && (forall i | 0 <= i < |s.runs| :: s.runs[i].attempt <= s.attempt)
    && CurrentRunsOk(body, s) && RerunsThrew(body, s.runs)
  }

  lemma {:induction false} UsesGrow(body: Body, history: seq<Seen>, i: nat, name: string)
    requires i <= |history|
    ensures Uses(body, history[..i], name) <= Uses(body, history, name)
    ensures i < |history| && Durable(body(history[..i])) && body(history[..i]).name == name ==>
              Uses(body, history[..i], name) < Uses(body, history, name)
  {
    if i < |history| {
      var before := history[..|history| - 1];
      if i < |before| {
        UsesGrow(body, before, i, name);
        assert before[..i] == history[..i];
      } else {
        assert history[..i] == before;
      }
    } else {
      assert history[..i] == history;
    }
  }

  /** No checkpoint comes twice along a history, even when step names repeat. */
  lemma KeysAreDistinct(body: Body, history: seq<Seen>, i: nat)
    requires i < |history| && Durable(body(history[..i])) && Durable(body(history))
    ensures CheckpointOf(body, history[..i]) != CheckpointOf(body, history)
  {
    UsesGrow(body, history, i, body(history).name);
  }

  lemma CommitKeepsFollowing(body: Body, table: Table, history: seq<Seen>, value: Json)
    requires Follows(body, table, history) && Durable(body(history)) && CheckpointOf(body, history) !in table
    ensures Follows(body, table[CheckpointOf(body, history) := value], history)
  {
    var after := table[CheckpointOf(body, history) := value];
    forall i | 0 <= i < |history| ensures SawTheTable(body, after, history, i) {
      assert SawTheTable(body, table, history, i);
      KeysAreDistinct(body, history, i);
    }
  }

  lemma FollowOneMore(body: Body, table: Table, history: seq<Seen>, seen: Seen)
    requires Follows(body, table, history) && Durable(body(history))
    requires match seen
      case Got(value) => CheckpointOf(body, history) in table && table[CheckpointOf(body, history)] == value
      case Threw(_) => CheckpointOf(body, history) !in table && body(history).DoStep?
    ensures Follows(body, table, history + [seen])
  {
    var longer := history + [seen];
    forall i | 0 <= i < |longer| ensures SawTheTable(body, table, longer, i) {
      if i < |history| {
        assert SawTheTable(body, table, history, i);
        assert longer[..i] == history[..i];
      } else {
        assert longer[..i] == history;
      }
    }
  }

  lemma CommitKeepsPaths(body: Body, table: Table, history: seq<Seen>, value: Json)
    requires RowsHaveAPath(body, table)
    requires Follows(body, table, history) && Durable(body(history)) && CheckpointOf(body, history) !in table
    ensures RowsHaveAPath(body, table[CheckpointOf(body, history) := value])
  {
    var after := table[CheckpointOf(body, history) := value];
    forall key | key in after ensures exists h :: CommittedAt(body, after, key, h) {
      if key == CheckpointOf(body, history) {
        CommitKeepsFollowing(body, table, history, value);
        assert forall i | 0 <= i < |history| :: SawTheTable(body, after, history, i) ==> StillStands(body, after, history, i);
        assert CommittedAt(body, after, key, history);
      } else {
        var h :| CommittedAt(body, table, key, h);
        assert forall i | 0 <= i < |h| :: StillStands(body, table, h, i) ==> StillStands(body, after, h, i);
        assert CommittedAt(body, after, key, h);
      }
    }
  }

  /** One durable operation, replayed or new, leaves a history that follows the table it leaves. */
  lemma OperationFollows(body: Body, table: Table, history: seq<Seen>, fn: FunctionEnd)
    requires RowsHaveAPath(body, table) && Follows(body, table, history) && Durable(body(history))
    requires body(history).Suspend? && fn.Throws? ==> CheckpointOf(body, history) in table
    ensures var outcome := StepSpec(table, CheckpointOf(body, history), fn);
      && RowsHaveAPath(body, outcome.table) && Follows(body, outcome.table, history + [outcome.seen])
      && (forall key | key in table :: key in outcome.table && outcome.table[key] == table[key])
  {
    var key := CheckpointOf(body, history);
    var outcome := StepSpec(table, key, fn);
    if key !in table && fn.Gives? {
      CommitKeepsPaths(body, table, history, fn.value);
      CommitKeepsFollowing(body, table, history, fn.value);
    }
    FollowOneMore(body, outcome.table, history, outcome.seen);
  }

  /** A function is run where nothing is committed: within the attempt it has not run before, unless it
      threw and the body caught that. */
  lemma NewRunIsAllowed(body: Body, s: System, threw: bool)
    requires Inv(body, s) && s.live.Some? && body(s.live.value).DoStep?
    requires CheckpointOf(body, s.live.value) !in s.table
    ensures RerunsThrew(body, s.runs + [Execution(s.attempt, CheckpointOf(body, s.live.value), threw)])
  {
  }

  lemma StepKeepsInv(body: Body, s: System, fn: FunctionEnd)
    requires Inv(body, s) && s.live.Some? && body(s.live.value).DoStep?
    ensures Inv(body, Apply(body, s, Advance(fn)))
  {
    var history := s.live.value;
    OperationFollows(body, s.table, history, fn);
    var after := Apply(body, s, Advance(fn));
    if CheckpointOf(body, history) !in s.table {
      NewRunIsAllowed(body, s, fn.Throws?);
      assert fn.Throws? && Propagates(body) ==> body(history + [Threw(fn.error)]).Raise?;
      if fn.Throws? {
        assert after.live.value == history + [Threw(fn.error)];
      }
    }
  }

  lemma SuspensionKeepsInv(body: Body, s: System, fn: FunctionEnd)
    requires Inv(body, s) && s.live.Some? && body(s.live.value).Suspend?
    ensures Inv(body, Apply(body, s, Advance(fn)))
  {
    if CheckpointOf(body, s.live.value) in s.table || fn.Gives? {
      OperationFollows(body, s.table, s.live.value, fn);
    }
  }

  lemma ApplyKeepsInv(body: Body, s: System, event: Event)
    requires Inv(body, s)
    ensures Inv(body, Apply(body, s, event))
  {
    if s.live.Some? {
      if event.Advance? && body(s.live.value).DoStep? {
        StepKeepsInv(body, s, event.fn);
      } else if event.Advance? && body(s.live.value).Suspend? {
        SuspensionKeepsInv(body, s, event.fn);
      } else if event.Lost? && body(s.live.value).DoStep? && CheckpointOf(body, s.live.value) !in s.table {
        NewRunIsAllowed(body, s, false);
      }
    }
  }

  lemma {:induction false} ReachableKeepsInv(body: Body, events: seq<Event>)
    ensures Inv(body, Run(body, INITIAL, events))
  {
    if events != [] {
      ReachableKeepsInv(body, events[..|events| - 1]);
      ApplyKeepsInv(body, Run(body, INITIAL, events[..|events| - 1]), events[|events| - 1]);
    }
  }

  /*******************************************************************************
   *  The promises
   *******************************************************************************/

  /** A commit seen in `s` still stands in `later`, and its function has not run in between. */
  ghost predicate StaysFinal(s: System, later: System, key: Checkpoint) {
    && key in s.table && key in later.table && later.table[key] == s.table[key]
    && s.runs <= later.runs
    && forall i | |s.runs| <= i < |later.runs| :: later.runs[i].key != key
  }

  lemma ApplyKeepsFinal(body: Body, s: System, event: Event, key: Checkpoint)
    requires key in s.table
    ensures StaysFinal(s, Apply(body, s, event), key)
  {
  }

  /** A committed value never changes, and its step's function never runs again, whatever happens
      next: from any state at all. */
  lemma {:induction false} CommittedStepsAreFinal(body: Body, s: System, events: seq<Event>, key: Checkpoint)
    requires key in s.table
    ensures StaysFinal(s, Run(body, s, events), key)
  {
    if events != [] {
      var front, last := events[..|events| - 1], events[|events| - 1];
      CommittedStepsAreFinal(body, s, front, key);
      ApplyKeepsFinal(body, Run(body, s, front), last, key);
    }
  }

  /** Within one attempt only a function that threw, under a body that catches, runs again. */
  lemma RerunsFollowACaughtThrow(body: Body, events: seq<Event>, i: nat, j: nat)
    requires var runs := Run(body, INITIAL, events).runs;
      i < j < |runs| && runs[i].attempt == runs[j].attempt && runs[i].key == runs[j].key
    ensures Run(body, INITIAL, events).runs[i].threw && !Propagates(body)
  {
    ReachableKeepsInv(body, events);
  }

  predicate NothingThrew(history: seq<Seen>) {
    forall i | 0 <= i < |history| :: history[i].Got?
  }

  /** The reference: one pass over the committed values, with no attempts and no failures. */
  function SinglePass(body: Body, table: Table, history: seq<Seen>, fuel: nat): Option<Ending>
    decreases fuel
  {
    match body(history)
    case Return(value) => Some(Returned(value))
    case Raise(error) => Some(Raised(error))
    case _ =>
      if fuel == 0 || CheckpointOf(body, history) !in table then None
      else SinglePass(body, table, history + [Got(table[CheckpointOf(body, history)])], fuel - 1)
  }

  lemma PassStep(body: Body, table: Table, before: seq<Seen>, seen: Seen, fuel: nat)
    requires Durable(body(before)) && CheckpointOf(body, before) in table
    requires seen == Got(table[CheckpointOf(body, before)])
    ensures SinglePass(body, table, before, fuel + 1) == SinglePass(body, table, before + [seen], fuel)
  {
  }

  /** What a history saw last, and that it followed the table before. */
  lemma FollowsFront(body: Body, table: Table, front: seq<Seen>, seen: Seen)
    requires Follows(body, table, front + [seen])
    ensures Follows(body, table, front) && Durable(body(front))
    ensures seen.Got? ==> CheckpointOf(body, front) in table && seen == Got(table[CheckpointOf(body, front)])
  {
    var history := front + [seen];
    assert SawTheTable(body, table, history, |front|) && history[..|front|] == front;
    forall i | 0 <= i < |front| ensures SawTheTable(body, table, front, i) {
      assert SawTheTable(body, table, history, i) && history[..i] == front[..i];
    }
  }

  lemma {:induction false} FollowsPrefix(body: Body, table: Table, history: seq<Seen>, n: nat)
    requires Follows(body, table, history) && n <= |history|
    ensures Follows(body, table, history[..n])
  {
    forall i | 0 <= i < n ensures SawTheTable(body, table, history[..n], i) {
      assert SawTheTable(body, table, history, i) && history[..n][..i] == history[..i];
    }
  }

  /** The pass retraces a history in which nothing threw. */
  lemma {:induction false} PassRetraces(body: Body, table: Table, history: seq<Seen>, fuel: nat)
    requires Follows(body, table, history) && NothingThrew(history)
    ensures SinglePass(body, table, [], fuel + |history|) == SinglePass(body, table, history, fuel)
  {
    if history != [] {
      var front, seen := history[..|history| - 1], history[|history| - 1];
      assert history == front + [seen];
      FollowsFront(body, table, front, seen);
      PassRetraces(body, table, front, fuel + 1);
      PassStep(body, table, front, seen, fuel);
    }
  }

  /** However it was cut up, a finished task's result is what one pass over the committed values computes,
      if and only if the attempt that finished it saw no step throw. */
  lemma ResultIsOnePass(body: Body, events: seq<Event>, fuel: nat)
    requires Run(body, INITIAL, events).ended.Some? && |Run(body, INITIAL, events).last| <= fuel
    ensures var s := Run(body, INITIAL, events);
      SinglePass(body, s.table, [], fuel) == s.ended <==> NothingThrew(s.last)
  {
    ReachableKeepsInv(body, events);
    EndedIsOnePass(body, Run(body, INITIAL, events), fuel);
  }

  lemma EndedIsOnePass(body: Body, s: System, fuel: nat)
    requires Inv(body, s) && s.ended.Some? && |s.last| <= fuel
    ensures SinglePass(body, s.table, [], fuel) == s.ended <==> NothingThrew(s.last)
  {
    var n := FirstThrow(s.last);
    FollowsPrefix(body, s.table, s.last, n);
    PassRetraces(body, s.table, s.last[..n], fuel - n);
    if n < |s.last| {
      assert SawTheTable(body, s.table, s.last, n);
    } else {
      assert s.last[..n] == s.last;
    }
  }

  lemma {:induction false} FirstThrow(history: seq<Seen>) returns (n: nat)
    ensures n <= |history| && NothingThrew(history[..n])
    ensures n < |history| ==> history[n].Threw?
  {
    n := 0;
    while n < |history| && history[n].Got?
      invariant n <= |history| && NothingThrew(history[..n])
    {
      n := n + 1;
    }
  }

  /** For a body that catches nothing, that condition holds of every task that returned. */
  lemma ReturnedIsOnePass(body: Body, events: seq<Event>, fuel: nat)
    requires Propagates(body)
    requires var s := Run(body, INITIAL, events); s.ended.Some? && s.ended.value.Returned? && |s.last| <= fuel
    ensures var s := Run(body, INITIAL, events); SinglePass(body, s.table, [], fuel) == s.ended
  {
    ReachableKeepsInv(body, events);
    var s := Run(body, INITIAL, events);
    forall i | 0 <= i < |s.last| ensures s.last[i].Got? {
      NoThrowInside(body, s.table, s.last, i);
    }
    EndedIsOnePass(body, s, fuel);
  }

  /** A body that catches nothing does not go on after a throw. */
  lemma NoThrowInside(body: Body, table: Table, history: seq<Seen>, i: nat)
    requires Propagates(body) && Follows(body, table, history) && i < |history|
    requires i + 1 < |history| || !body(history).Raise?
    ensures history[i].Got?
  {
    var upTo := history[..i + 1];
    assert upTo[|upTo| - 1] == history[i];
    if i + 1 < |history| {
      assert SawTheTable(body, table, history, i + 1);
    } else {
      assert upTo == history;
    }
  }

  /** How a step's function ends when it shows the body `seen`. */
  function Showing(seen: Seen): FunctionEnd {
    match seen case Got(value) => Gives(value) case Threw(error) => Throws(error)
  }

  /** The schedule with no interruption that hands each step what it showed the body. */
  function Uninterrupted(history: seq<Seen>): seq<Event> {
    if history == [] then [Start]
    else Uninterrupted(history[..|history| - 1]) + [Advance(Showing(history[|history| - 1]))]
  }

  predicate Within(small: Table, big: Table) {
    forall key | key in small :: key in big && big[key] == small[key]
  }

  /** A single uncut attempt that has seen a history, and committed nothing but what it saw. */
  ghost predicate MidPass(body: Body, s: System, table: Table, history: seq<Seen>) {
    && s.live == Some(history) && s.attempt == 1 && s.ended.None?
    && Within(s.table, table)
    && forall i | 0 <= i < |history| :: SawTheTable(body, s.table, history, i)
  }

  lemma UninterruptedStep(body: Body, s: System, table: Table, history: seq<Seen>, seen: Seen)
    requires Inv(body, s) && MidPass(body, s, table, history)
    requires Follows(body, table, history + [seen])
    ensures MidPass(body, Apply(body, s, Advance(Showing(seen))), table, history + [seen])
  {
    assert SawTheTable(body, table, history + [seen], |history|);
    assert (history + [seen])[..|history|] == history;
    ApplyKeepsInv(body, s, Advance(Showing(seen)));
  }

  lemma {:induction false} UninterruptedReplays(body: Body, table: Table, history: seq<Seen>)
    requires Follows(body, table, history)
    ensures MidPass(body, Run(body, INITIAL, Uninterrupted(history)), table, history)
  {
    if history == [] {
      RunStep(body, INITIAL, [], Start);
      assert [] + [Start] == [Start];
    } else {
      var front, seen := history[..|history| - 1], history[|history| - 1];
      assert history == front + [seen];
      assert forall i | 0 <= i < |front| :: SawTheTable(body, table, history, i) && history[..i] == front[..i];
      UninterruptedReplays(body, table, front);
      ReachableKeepsInv(body, Uninterrupted(front));
      UninterruptedStep(body, Run(body, INITIAL, Uninterrupted(front)), table, front, seen);
      RunStep(body, INITIAL, Uninterrupted(front), Advance(Showing(seen)));
    }
  }

  /** Two histories that follow one table agree as far as both go, the first showing only values. */
  lemma {:induction false} HistoriesAgree(body: Body, table: Table, a: seq<Seen>, b: seq<Seen>, n: nat)
    requires n <= |a| && n <= |b| && NothingThrew(a)
    requires forall i | 0 <= i < |a| :: StillStands(body, table, a, i)
    requires Follows(body, table, b)
    ensures a[..n] == b[..n]
  {
    if n > 0 {
      HistoriesAgree(body, table, a, b, n - 1);
      assert StillStands(body, table, a, n - 1) && SawTheTable(body, table, b, n - 1);
      assert a[..n] == a[..n - 1] + [a[n - 1]] && b[..n] == b[..n - 1] + [b[n - 1]];
    }
  }

  /** With a body that catches nothing every committed row lies on the path of the attempt that ended. */
  lemma RowsLieOnTheLastPath(body: Body, s: System, key: Checkpoint) returns (n: nat)
    requires Inv(body, s) && s.ended.Some? && Propagates(body) && key in s.table
    ensures n < |s.last| && Durable(body(s.last[..n])) && key == CheckpointOf(body, s.last[..n])
  {
    var h :| CommittedAt(body, s.table, key, h);
    OnlyValuesLeadToACommit(body, s.table, key, h);
    n := if |h| < |s.last| then |h| else |s.last|;
    HistoriesAgree(body, s.table, h, s.last, n);
    DurableAlong(body, s.table, key, h, n);
    assert h[..|h|] == h && s.last[..|s.last|] == s.last;
  }

  lemma DurableAlong(body: Body, table: Table, key: Checkpoint, history: seq<Seen>, n: nat)
    requires CommittedAt(body, table, key, history) && n <= |history|
    ensures Durable(body(history[..n]))
  {
    if n == |history| {
      assert history[..n] == history;
    } else {
      assert StillStands(body, table, history, n);
    }
  }

  lemma OnlyValuesLeadToACommit(body: Body, table: Table, key: Checkpoint, history: seq<Seen>)
    requires Propagates(body) && CommittedAt(body, table, key, history)
    ensures NothingThrew(history)
  {
    forall i | 0 <= i < |history| ensures history[i].Got? {
      var upTo := history[..i + 1];
      assert upTo[|upTo| - 1] == history[i];
      if i + 1 < |history| {
        assert StillStands(body, table, history, i + 1);
      } else {
        assert upTo == history;
      }
    }
  }

  lemma RunStep(body: Body, s: System, events: seq<Event>, event: Event)
    ensures Run(body, s, events + [event]) == Apply(body, Run(body, s, events), event)
  {
    assert (events + [event])[..|events + [event]| - 1] == events;
  }

  /** Replay refines an uninterrupted run: one attempt, never cut, shown what the last attempt saw,
      reaches the same result as any schedule of failures, suspensions and crashes that finished. It
      commits no row the schedule did not, and, for a body that catches nothing, the very same rows. */
  lemma ReplayRefinesOneRun(body: Body, events: seq<Event>)
    requires Run(body, INITIAL, events).ended.Some?
    ensures var s := Run(body, INITIAL, events);
      var once := Run(body, INITIAL, Uninterrupted(s.last) + [Advance(Throws(""))]);
      && once.ended == s.ended && once.attempt == 1 && Within(once.table, s.table)
      && (Propagates(body) ==> once.table == s.table)
  {
    ReachableKeepsInv(body, events);
    var s := Run(body, INITIAL, events);
    UninterruptedReplays(body, s.table, s.last);
    RunStep(body, INITIAL, Uninterrupted(s.last), Advance(Throws("")));
    FinishPass(body, s, Run(body, INITIAL, Uninterrupted(s.last)));
    if Propagates(body) {
      SameRows(body, s, Run(body, INITIAL, Uninterrupted(s.last)));
    }
  }

  lemma FinishPass(body: Body, s: System, once: System)
    requires Inv(body, s) && s.ended.Some? && MidPass(body, once, s.table, s.last)
    ensures var done := Apply(body, once, Advance(Throws("")));
      done.ended == s.ended && done.attempt == 1 && done.table == once.table && Within(done.table, s.table)
  {
  }

  lemma SameRows(body: Body, s: System, once: System)
    requires Inv(body, s) && s.ended.Some? && Propagates(body)
    requires MidPass(body, once, s.table, s.last)
    ensures once.table == s.table
  {
    forall key | key in s.table ensures key in once.table {
      var n := RowsLieOnTheLastPath(body, s, key);
      assert SawTheTable(body, s.table, s.last, n) && SawTheTable(body, once.table, s.last, n);
    }
  }
}
