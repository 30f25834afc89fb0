/** The blocking worker's windowed loop, run against an adversary that decides, at every await, which
    runs finish and how, when a stop arrives, when the loop is cancelled and what a claim returns. */
module Worker {
  import opened Wrappers

  /** How one run's asyncio task ends. A task's own failure is recorded by Absurd and ends as
      `Returned`; `Broke` is the worker's machinery raising. */
  datatype Exit = Returned | Broke | WasCancelled

  datatype Event =
    | ClaimIssued(limit: nat)
    | Launched(run: nat)
    | Settled(ends: map<nat, Exit>)
    | Removed(run: nat)        // reaped at the loop head, or drained after a cancellation
    | StopSet
    | Waited                   // the loop goes to sleep until a run finishes or a poll interval passes

  /*******************************************************************************
   *  What a trace says, on its own
   *******************************************************************************/

  function LaunchedIn(trace: seq<Event>): set<nat> {
    if trace == [] then {}
    else
      var before, last := LaunchedIn(trace[..|trace| - 1]), trace[|trace| - 1];
      if last.Launched? then before + {last.run} else before
  }

  function SettledIn(trace: seq<Event>): set<nat> {
    if trace == [] then {}
    else
      var before, last := SettledIn(trace[..|trace| - 1]), trace[|trace| - 1];
      if last.Settled? then before + last.ends.Keys else before
  }

  /** How the settled runs ended. */
  function ExitsIn(trace: seq<Event>): map<nat, Exit> {
    if trace == [] then map[]
    else
      var before, last := ExitsIn(trace[..|trace| - 1]), trace[|trace| - 1];
      if last.Settled? then before + last.ends else before
  }

  /** Every run that has settled returned: none broke and none was cancelled. */
  predicate NothingFailed(trace: seq<Event>) {
    forall run | run in ExitsIn(trace) :: ExitsIn(trace)[run].Returned?
  }

  function RemovedIn(trace: seq<Event>): multiset<nat> {
    if trace == [] then multiset{}
    else
      var before, last := RemovedIn(trace[..|trace| - 1]), trace[|trace| - 1];
      if last.Removed? then before + multiset{last.run} else before
  }

  predicate IsAwait(event: Event) {
    event.ClaimIssued? || event.Waited?
  }

  /** The awaits of the loop, in order: the claims and the sleeps. */
  function AwaitsIn(trace: seq<Event>): seq<Event> {
    if trace == [] then []
    else
      var before, last := AwaitsIn(trace[..|trace| - 1]), trace[|trace| - 1];
      if IsAwait(last) then before + [last] else before
  }

  /** The runs launched and not settled yet. */
  function InFlight(trace: seq<Event>): set<nat> {
    LaunchedIn(trace) - SettledIn(trace)
  }

  /** The runs launched and not removed from the window yet. */
  function Held(trace: seq<Event>): set<nat> {
    set run | run in LaunchedIn(trace) && run !in RemovedIn(trace)
  }

  /** At no moment are more than `window` runs in flight. */
  predicate WindowBounded(trace: seq<Event>, window: nat) {
    forall i | 0 <= i <= |trace| :: |InFlight(trace[..i])| <= window
  }

  predicate NoClaimAfterStop(trace: seq<Event>) {
    forall i, j | 0 <= i < j < |trace| && trace[i].StopSet? :: !trace[j].ClaimIssued?
  }

  predicate ClaimsWithin(trace: seq<Event>, batch: nat) {
    forall i | 0 <= i < |trace| && trace[i].ClaimIssued? :: trace[i].limit <= batch
  }

  /** Every claim asks for a whole batch: the fast path is not capped by its window of one. */
  predicate WholeBatches(trace: seq<Event>, batch: nat) {
    forall i | 0 <= i < |trace| && trace[i].ClaimIssued? :: trace[i].limit == batch
  }

  /** The safety of a trace: bounded window, no claim once a stop is set, no claim over the batch. */
  predicate TraceSafe(trace: seq<Event>, window: nat, batch: nat) {
    WindowBounded(trace, window) && NoClaimAfterStop(trace) && ClaimsWithin(trace, batch)
  }

  lemma Extend(trace: seq<Event>, event: Event)
    ensures var longer := trace + [event];
      && LaunchedIn(longer) == (if event.Launched? then LaunchedIn(trace) + {event.run} else LaunchedIn(trace))
      && SettledIn(longer) == (if event.Settled? then SettledIn(trace) + event.ends.Keys else SettledIn(trace))
      && ExitsIn(longer) == (if event.Settled? then ExitsIn(trace) + event.ends else ExitsIn(trace))
      && RemovedIn(longer) == (if event.Removed? then RemovedIn(trace) + multiset{event.run} else RemovedIn(trace))
  {
    var longer := trace + [event];
    assert longer[..|longer| - 1] == trace;
  }

  lemma ExtendAwaits(trace: seq<Event>, event: Event)
    ensures AwaitsIn(trace + [event]) == if IsAwait(event) then AwaitsIn(trace) + [event] else AwaitsIn(trace)
  {
    assert (trace + [event])[..|trace|] == trace;
  }

  lemma ExtendSafe(trace: seq<Event>, event: Event, window: nat, batch: nat)
    requires TraceSafe(trace, window, batch)
    requires event.ClaimIssued? ==> StopSet !in trace && event.limit <= batch
    requires event.Launched? ==> |InFlight(trace)| < window
    ensures TraceSafe(trace + [event], window, batch)
  {
    var longer := trace + [event];
    Extend(trace, event);
    if event.Launched? {
      Subsets(InFlight(longer), InFlight(trace) + {event.run});
    } else {
      Subsets(InFlight(longer), InFlight(trace));
    }
    assert |InFlight(trace)| <= window by { assert trace[..|trace|] == trace; }
    forall i | 0 <= i <= |longer|
      ensures |InFlight(longer[..i])| <= window
    {
      if i <= |trace| {
        assert longer[..i] == trace[..i];
      } else {
        assert longer[..i] == longer;
      }
    }
  }

  /** `batch_size or concurrency`. */
  function BatchOf(batchSize: Option<nat>, concurrency: nat): (batch: nat)
    ensures batch == concurrency || batchSize == Some(batch)
    ensures batch == 0 ==> concurrency == 0
    ensures batchSize.Some? && batchSize.value > 0 ==> batch == batchSize.value
  {
    if batchSize.Some? && batchSize.value != 0 then batchSize.value else concurrency
  }

  function Least(a: nat, b: nat): nat {
    if a < b then a else b
  }

  /** Every claim asks for a slot for each run that may be started beside those in flight, up to a batch, and
      none is made once a run has broken or been cancelled. */
  predicate ClaimsFillTheWindow(trace: seq<Event>, window: nat, batch: nat) {
    forall i | 0 <= i < |trace| && trace[i].ClaimIssued? ::
      && |InFlight(trace[..i])| < window && trace[i].limit == Least(batch, window - |InFlight(trace[..i])|)
      && NothingFailed(trace[..i])
  }

  /** Since the last claim, nothing was launched or removed: the claim came back empty. */
  predicate ClaimCameBackEmpty(trace: seq<Event>) {
    trace != [] &&
    match trace[|trace| - 1]
    case ClaimIssued(_) => true
    case Settled(_) => ClaimCameBackEmpty(trace[..|trace| - 1])
    case StopSet => ClaimCameBackEmpty(trace[..|trace| - 1])
    case _ => false
  }

  /** Every slot is taken by a run in flight, none has failed, and no stop was asked for. */
  predicate NothingToDo(trace: seq<Event>, window: nat) {
    |InFlight(trace)| == window && NothingFailed(trace) && StopSet !in trace
  }

  /** The loop never sleeps over a free slot, a failed run or a stop, unless a claim has just come back empty. */
  predicate WaitsOnlyWhenUseless(trace: seq<Event>, window: nat) {
    forall i | 0 <= i < |trace| && trace[i].Waited? ::
      NothingToDo(trace[..i], window) || ClaimCameBackEmpty(trace[..i])
  }

  /** The last claim came back empty and the loop has not slept since. */
  predicate OwesAWait(trace: seq<Event>) {
    trace != [] &&
    match trace[|trace| - 1]
    case ClaimIssued(_) => true
    case Launched(_) => false
    case Waited => false
    case _ => OwesAWait(trace[..|trace| - 1])
  }

  /** After a claim that came back empty the loop sleeps before it claims again. */
  predicate SleepsBeforeRetrying(trace: seq<Event>) {
    forall i | 0 <= i < |trace| && trace[i].ClaimIssued? :: !OwesAWait(trace[..i])
  }

  predicate TracePrompt(trace: seq<Event>, window: nat, batch: nat) {
    ClaimsFillTheWindow(trace, window, batch) && WaitsOnlyWhenUseless(trace, window) && SleepsBeforeRetrying(trace)
  }

  lemma ExtendPrompt(trace: seq<Event>, event: Event, window: nat, batch: nat)
    requires TracePrompt(trace, window, batch)
    requires event.ClaimIssued? ==>
               && |InFlight(trace)| < window && event.limit == Least(batch, window - |InFlight(trace)|)
               && NothingFailed(trace) && !OwesAWait(trace)
    requires event.Waited? ==> NothingToDo(trace, window) || ClaimCameBackEmpty(trace)
    ensures TracePrompt(trace + [event], window, batch)
    ensures event.ClaimIssued? ==> ClaimCameBackEmpty(trace + [event])
    ensures (event.Settled? || event.StopSet?) && ClaimCameBackEmpty(trace) ==> ClaimCameBackEmpty(trace + [event])
    ensures event.Waited? || event.Launched? ==> !OwesAWait(trace + [event])
    ensures event.Settled? || event.StopSet? || event.Removed? ==> OwesAWait(trace + [event]) == OwesAWait(trace)
  {
    var longer := trace + [event];
    assert longer[..|trace|] == trace;
    assert forall i | 0 <= i < |trace| :: longer[i] == trace[i] && longer[..i] == trace[..i];
  }

  /** The window as the loop holds it is the window as the trace tells it. */
  lemma HeldIsExecuting(trace: seq<Event>, executing: set<nat>, exits: map<nat, Exit>, claimed: nat)
    requires WindowOk(LaunchedIn(trace), SettledIn(trace), RemovedIn(trace), executing, exits, claimed)
    ensures Held(trace) == executing
  {
    var launched, removed := LaunchedIn(trace), RemovedIn(trace);
    forall run ensures run in Held(trace) <==> run in executing {
      assert multiset(executing)[run] + removed[run] == multiset(launched)[run];
    }
  }

  lemma Subsets(small: set<nat>, big: set<nat>)
    requires small <= big
    ensures |small| <= |big|
  {
    assert big == small + (big - small);
  }

  /*******************************************************************************
   *  The window
   *******************************************************************************/

  /** How the window relates to a trace's launched, settled and removed runs. Runs are numbered as
      they are claimed. Every launched run is in `executing` or was removed exactly once, and only
      settled runs leave the window. */
  ghost predicate WindowOk(
      launched: set<nat>, settled: set<nat>, removed: multiset<nat>,
      executing: set<nat>, exits: map<nat, Exit>, claimed: nat)
  {
    && (forall run: nat :: run in launched <==> run < claimed)
    && settled == exits.Keys && settled <= launched
    && multiset(executing) + removed == multiset(launched)
    && launched - settled <= executing <= launched
  }

  lemma SettleKeepsWindow(
      launched: set<nat>, removed: multiset<nat>, executing: set<nat>,
      exits: map<nat, Exit>, claimed: nat, finished: map<nat, Exit>)
    requires WindowOk(launched, exits.Keys, removed, executing, exits, claimed)
    requires finished.Keys <= executing
    ensures WindowOk(launched, exits.Keys + finished.Keys, removed, executing, exits + finished, claimed)
  {
  }

  lemma RemoveKeepsWindow(
      launched: set<nat>, removed: multiset<nat>, executing: set<nat>,
      exits: map<nat, Exit>, claimed: nat, run: nat)
    requires WindowOk(launched, exits.Keys, removed, executing, exits, claimed)
    requires run in executing && run in exits
    ensures WindowOk(launched, exits.Keys, removed + multiset{run}, executing - {run}, exits, claimed)
  {
    assert multiset(executing) == multiset(executing - {run}) + multiset{run};
  }

  lemma LaunchKeepsWindow(
      launched: set<nat>, removed: multiset<nat>, executing: set<nat>, exits: map<nat, Exit>, claimed: nat)
    requires WindowOk(launched, exits.Keys, removed, executing, exits, claimed)
    ensures WindowOk(launched + {claimed}, exits.Keys, removed, executing + {claimed}, exits, claimed + 1)
    ensures |executing + {claimed}| == |executing| + 1
  {
    assert claimed !in launched;
    assert multiset(executing + {claimed}) == multiset(executing) + multiset{claimed};
    assert multiset(launched + {claimed}) == multiset(launched) + multiset{claimed};
  }

  /** Nothing broken or cancelled has left the window. */
  ghost predicate CleanWindow(executing: set<nat>, exits: map<nat, Exit>, claimed: nat) {
    forall run: nat | run < claimed && run !in executing :: run in exits && exits[run].Returned?
  }

  /** Once every finished run is reaped, the window holds just the runs in flight, and none has failed. */
  lemma ReapedWindow(trace: seq<Event>, executing: set<nat>, exits: map<nat, Exit>, claimed: nat)
    requires WindowOk(LaunchedIn(trace), SettledIn(trace), RemovedIn(trace), executing, exits, claimed)
    requires ExitsIn(trace) == exits && CleanWindow(executing, exits, claimed) && executing !! exits.Keys
    ensures InFlight(trace) == executing && NothingFailed(trace)
  {
  }

  /** What the loop keeps between any two statements. */
  ghost predicate LoopOk(
      trace: seq<Event>, executing: set<nat>, exits: map<nat, Exit>, claimed: nat, stop: bool, window: nat, batch: nat)
  {
    && WindowOk(LaunchedIn(trace), SettledIn(trace), RemovedIn(trace), executing, exits, claimed)
    && ExitsIn(trace) == exits
    && |executing| <= window
    && TraceSafe(trace, window, batch) && TracePrompt(trace, window, batch)
    && (stop <==> StopSet in trace)
  }

  lemma LaunchKeepsLoop(
      trace: seq<Event>, executing: set<nat>, exits: map<nat, Exit>, claimed: nat, stop: bool, window: nat, batch: nat)
    requires LoopOk(trace, executing, exits, claimed, stop, window, batch) && |executing| < window
    ensures LoopOk(trace + [Launched(claimed)], executing + {claimed}, exits, claimed + 1, stop, window, batch)
    ensures |executing + {claimed}| == |executing| + 1
  {
    LaunchKeepsWindow(LaunchedIn(trace), RemovedIn(trace), executing, exits, claimed);
    Subsets(InFlight(trace), executing);
    Extend(trace, Launched(claimed));
    ExtendSafe(trace, Launched(claimed), window, batch);
    ExtendPrompt(trace, Launched(claimed), window, batch);
  }

  lemma SettleKeepsLoop(
      trace: seq<Event>, executing: set<nat>, exits: map<nat, Exit>, claimed: nat, stop: bool, window: nat, batch: nat,
      finished: map<nat, Exit>)
    requires LoopOk(trace, executing, exits, claimed, stop, window, batch) && finished.Keys <= executing
    ensures LoopOk(trace + [Settled(finished)], executing, exits + finished, claimed, stop, window, batch)
  {
    SettleKeepsWindow(LaunchedIn(trace), RemovedIn(trace), executing, exits, claimed, finished);
    Extend(trace, Settled(finished));
    ExtendSafe(trace, Settled(finished), window, batch);
    ExtendPrompt(trace, Settled(finished), window, batch);
  }

  /*******************************************************************************
   *  The loop
   *******************************************************************************/

  datatype ClaimReply = Claims(count: nat) | ClaimFails

  /** What the adversary does while the loop awaits once. `reply` matters only if the await is a claim. */
  datatype Tick = Tick(finishing: map<nat, Exit>, stops: bool, cancels: bool, reply: ClaimReply)

  datatype Outcome =
    | StoppedCleanly
    | ClaimError
    | MachineryError(run: nat)
    | Cancelled
    | StillRunning              // the adversary's script ends in the middle of an await

  /** How the unfinished runs of a window end that `finishing` names. */
  function Ends(finishing: map<nat, Exit>, executing: set<nat>, exits: map<nat, Exit>): map<nat, Exit> {
    map run | run in finishing && run in executing && run !in exits :: finishing[run]
  }

  /** How all of them end, those it does not name by `otherwise`. */
  function AllEnd(finishing: map<nat, Exit>, otherwise: Exit, executing: set<nat>): map<nat, Exit> {
    map run | run in executing :: if run in finishing then finishing[run] else otherwise
  }

  /** The tick answers this await with an exception: the loop is cancelled there, or the claim fails. */
  function RaisedBy(asked: Event, tick: Tick): Option<Outcome> {
    if tick.cancels then Some(Cancelled)
    else if asked.ClaimIssued? && tick.reply.ClaimFails? then Some(ClaimError)
    else None
  }

  /** How many runs an await brings: a claim that goes through brings those on offer, up to its limit. */
  function BroughtBy(asked: Event, tick: Tick): nat {
    if asked.ClaimIssued? && !tick.cancels && tick.reply.Claims? then Least(tick.reply.count, asked.limit) else 0
  }

  function Brought(asked: seq<Event>, script: seq<Tick>): nat
    requires |asked| <= |script|
  {
    if asked == [] then 0
    else
      var last := |asked| - 1;
      Brought(asked[..last], script) + BroughtBy(asked[last], script[last])
  }

  /** The loop heeds what its awaits brought: a cancellation or a failing claim is raised at once. */
  predicate Heeds(asked: seq<Event>, script: seq<Tick>, raised: Option<Outcome>)
    requires |asked| <= |script|
  {
    forall k | 0 <= k < |asked| ::
      && (script[k].cancels ==> k == |asked| - 1 && raised == Some(Cancelled))
      && (asked[k].ClaimIssued? && !script[k].cancels && script[k].reply.ClaimFails? ==>
            k == |asked| - 1 && raised == Some(ClaimError))
  }

  predicate StopsWithin(script: seq<Tick>, n: nat)
    requires n <= |script|
  {
    exists k :: 0 <= k < n && script[k].stops
  }

  /** What a loop asked of its script since `before`: each await found the tick it was given, exceptions were
      heeded, a stop is one that came, and just the runs the claims brought were launched. */
  predicate Followed(
      before: seq<Event>, awaits: seq<Event>, wasStopped: bool, stop: bool, wasClaimed: nat, claimed: nat,
      script: seq<Tick>, raised: Option<Outcome>)
  {
    && before <= awaits
    && var asked := awaits[|before|..];
      && |asked| <= |script| && Heeds(asked, script, raised)
      && (raised == Some(StillRunning) ==> |asked| == |script|)
      && stop == (wasStopped || StopsWithin(script, |asked|))
      && claimed == wasClaimed + Brought(asked, script)
  }

  lemma FollowedOneMore(
      before: seq<Event>, awaits: seq<Event>, wasStopped: bool, stop: bool, wasClaimed: nat, claimed: nat,
      script: seq<Tick>, event: Event)
    requires Followed(before, awaits, wasStopped, stop, wasClaimed, claimed, script, None)
    requires |awaits| - |before| < |script|
    ensures var tick := script[|awaits| - |before|];
      Followed(before, awaits + [event], wasStopped, stop || tick.stops, wasClaimed, claimed + BroughtBy(event, tick),
               script, RaisedBy(event, tick))
  {
    var asked, longer := awaits[|before|..], (awaits + [event])[|before|..];
    assert longer == asked + [event];
    assert longer[..|asked|] == asked;
    assert StopsWithin(script, |longer|) == (StopsWithin(script, |asked|) || script[|asked|].stops);
  }

  class WindowedLoop {
    const concurrency: nat
    const batchSize: Option<nat>
    var executing: set<nat>
    var exits: map<nat, Exit>
    var claimed: nat
    var stop: bool
    var trace: seq<Event>

    constructor (concurrency: nat, batchSize: Option<nat>)
      ensures this.concurrency == concurrency && this.batchSize == batchSize
      ensures Valid() && Clean() && trace == [] && !stop
    {
      this.concurrency, this.batchSize := concurrency, batchSize;
      executing, exits, claimed, stop, trace := {}, map[], 0, false, [];
      new;
      assert LaunchedIn(trace) == {} && SettledIn(trace) == {} && RemovedIn(trace) == multiset{};
    }

    function EffectiveBatch(): nat {
      BatchOf(batchSize, concurrency)
    }

    ghost predicate Valid()
      reads this
    {
      LoopOk(trace, executing, exits, claimed, stop, concurrency, EffectiveBatch())
    }

    ghost predicate Clean()
      reads this
    {
      CleanWindow(executing, exits, claimed)
    }

    /** Some tasks of the window become done. */
    method RecordSettled(finished: map<nat, Exit>)
      requires Valid() && finished.Keys <= executing
      modifies this`exits, this`trace
      ensures Valid() && exits == old(exits) + finished
      ensures old(ClaimCameBackEmpty(trace)) ==> ClaimCameBackEmpty(trace)
      ensures AwaitsIn(trace) == old(AwaitsIn(trace)) && OwesAWait(trace) == old(OwesAWait(trace))
    {
      SettleKeepsLoop(trace, executing, exits, claimed, stop, concurrency, EffectiveBatch(), finished);
      ExtendPrompt(trace, Settled(finished), concurrency, EffectiveBatch());
      ExtendAwaits(trace, Settled(finished));
      exits := exits + finished;
      trace := trace + [Settled(finished)];
    }

    method Settle(finishing: map<nat, Exit>)
      requires Valid()
      modifies this`exits, this`trace
      ensures Valid() && (old(Clean()) ==> Clean())
      ensures exits == old(exits) + Ends(finishing, executing, old(exits))
      ensures old(ClaimCameBackEmpty(trace)) ==> ClaimCameBackEmpty(trace)
      ensures AwaitsIn(trace) == old(AwaitsIn(trace)) && OwesAWait(trace) == old(OwesAWait(trace))
    {
      RecordSettled(Ends(finishing, executing, exits));
    }

    method RequestStop()
      requires Valid()
      modifies this`stop, this`trace
      ensures Valid() && stop
      ensures old(ClaimCameBackEmpty(trace)) ==> ClaimCameBackEmpty(trace)
      ensures AwaitsIn(trace) == old(AwaitsIn(trace)) && OwesAWait(trace) == old(OwesAWait(trace))
    {
      Extend(trace, StopSet);
      ExtendSafe(trace, StopSet, concurrency, EffectiveBatch());
      ExtendPrompt(trace, StopSet, concurrency, EffectiveBatch());
      ExtendAwaits(trace, StopSet);
      stop := true;
      trace := trace + [StopSet];
    }

    /** One await: some running tasks finish, a stop may arrive, the loop may be cancelled. */
    method Await(tick: Tick) returns (cancelled: bool)
      requires Valid()
      modifies this`exits, this`stop, this`trace
      ensures Valid() && (old(Clean()) ==> Clean())
      ensures exits == old(exits) + Ends(tick.finishing, executing, old(exits))
      ensures cancelled == tick.cancels && stop == (old(stop) || tick.stops)
      ensures old(ClaimCameBackEmpty(trace)) ==> ClaimCameBackEmpty(trace)
      ensures AwaitsIn(trace) == old(AwaitsIn(trace)) && OwesAWait(trace) == old(OwesAWait(trace))
    {
      Settle(tick.finishing);
      if tick.stops {
        RequestStop();
      }
      cancelled := tick.cancels;
    }

    /** Every finished run has been reaped, and none had failed. */
    ghost predicate Reaped()
      reads this
    {
      Clean() && executing !! exits.Keys
    }

    /** `wait_for_run_progress`: only when no slot is free, or a claim found nothing. */
    method WaitForRunProgress(tick: Tick) returns (cancelled: bool)
      requires Valid() && (ClaimCameBackEmpty(trace) || (Reaped() && |executing| == concurrency && !stop))
      modifies this`exits, this`stop, this`trace
      ensures Valid() && (old(Clean()) ==> Clean())
      ensures exits == old(exits) + Ends(tick.finishing, executing, old(exits))
      ensures cancelled == tick.cancels && stop == (old(stop) || tick.stops)
      ensures AwaitsIn(trace) == old(AwaitsIn(trace)) + [Waited] && !OwesAWait(trace)
    {
      if !ClaimCameBackEmpty(trace) {
        ReapedWindow(trace, executing, exits, claimed);
      }
      Extend(trace, Waited);
      ExtendSafe(trace, Waited, concurrency, EffectiveBatch());
      ExtendPrompt(trace, Waited, concurrency, EffectiveBatch());
      ExtendAwaits(trace, Waited);
      trace := trace + [Waited];
      cancelled := Await(tick);
    }

    method Remove(run: nat)
      requires Valid() && run in executing && run in exits
      modifies this`executing, this`trace
      ensures Valid() && executing == old(executing) - {run}
      ensures old(Clean()) && exits[run].Returned? ==> Clean()
      ensures AwaitsIn(trace) == old(AwaitsIn(trace)) && OwesAWait(trace) == old(OwesAWait(trace))
    {
      RemoveKeepsWindow(LaunchedIn(trace), RemovedIn(trace), executing, exits, claimed, run);
      Extend(trace, Removed(run));
      ExtendSafe(trace, Removed(run), concurrency, EffectiveBatch());
      ExtendPrompt(trace, Removed(run), concurrency, EffectiveBatch());
      ExtendAwaits(trace, Removed(run));
      Subsets(executing - {run}, executing);
      executing := executing - {run};
      trace := trace + [Removed(run)];
    }

    /** `reap_finished_runs`: drop every finished run, in no particular order, until one raises. */
    method ReapFinishedRuns() returns (raised: Option<Outcome>)
      requires Valid() && Clean()
      modifies this`executing, this`trace
      ensures Valid()
      ensures raised.None? ==> Reaped() && executing == old(executing) - exits.Keys
      ensures raised.Some? ==> Explains(raised.value)
      ensures AwaitsIn(trace) == old(AwaitsIn(trace)) && OwesAWait(trace) == old(OwesAWait(trace))
    {
      while exists run :: run in executing && run in exits
        invariant Valid() && Clean()
        invariant AwaitsIn(trace) == old(AwaitsIn(trace)) && OwesAWait(trace) == old(OwesAWait(trace))
        invariant old(executing) - exits.Keys <= executing <= old(executing)
        decreases |executing|
      {
        var finished :| finished in executing && finished in exits;
        Subsets(executing - {finished}, executing);
        Remove(finished);
        match exits[finished]
        case Returned =>
        case Broke => return Some(MachineryError(finished));
        case WasCancelled => return Some(Cancelled);
      }
      raised := None;
    }

    /** What an exception raised by a run says of that run. */
    ghost predicate Explains(outcome: Outcome)
      reads this
    {
      ExplainedBy(outcome, exits.Keys)
    }

    method Launch()
      requires Valid() && Clean() && |executing| < concurrency
      modifies this`executing, this`claimed, this`trace
      ensures Valid() && Clean()
      ensures claimed == old(claimed) + 1 && |executing| == |old(executing)| + 1
      ensures AwaitsIn(trace) == old(AwaitsIn(trace)) && !OwesAWait(trace)
    {
      LaunchKeepsLoop(trace, executing, exits, claimed, stop, concurrency, EffectiveBatch());
      ExtendAwaits(trace, Launched(claimed));
      trace := trace + [Launched(claimed)];
      executing := executing + {claimed};
      claimed := claimed + 1;
    }

    method IssueClaim(limit: nat)
      requires Valid() && Reaped() && !stop && !OwesAWait(trace) && |executing| < concurrency
      requires limit == Least(EffectiveBatch(), concurrency - |executing|)
      modifies this`trace
      ensures Valid() && ClaimCameBackEmpty(trace)
      ensures AwaitsIn(trace) == old(AwaitsIn(trace)) + [ClaimIssued(limit)]
    {
      ReapedWindow(trace, executing, exits, claimed);
      Extend(trace, ClaimIssued(limit));
      ExtendSafe(trace, ClaimIssued(limit), concurrency, EffectiveBatch());
      ExtendPrompt(trace, ClaimIssued(limit), concurrency, EffectiveBatch());
      ExtendAwaits(trace, ClaimIssued(limit));
      trace := trace + [ClaimIssued(limit)];
    }

    method AwaitClaim(limit: nat, tick: Tick) returns (cancelled: bool)
      requires Valid() && Reaped() && !stop && !OwesAWait(trace) && |executing| < concurrency
      requires limit == Least(EffectiveBatch(), concurrency - |executing|)
      modifies this`exits, this`stop, this`trace
      ensures Valid() && Clean() && ClaimCameBackEmpty(trace)
      ensures exits == old(exits) + Ends(tick.finishing, executing, old(exits))
      ensures cancelled == tick.cancels && stop == tick.stops
      ensures AwaitsIn(trace) == old(AwaitsIn(trace)) + [ClaimIssued(limit)]
    {
      IssueClaim(limit);
      cancelled := Await(tick);
    }

    method LaunchAll(count: nat)
      requires Valid() && Clean() && |executing| + count <= concurrency
      modifies this`executing, this`claimed, this`trace
      ensures Valid() && Clean()
      ensures claimed == old(claimed) + count && |executing| == |old(executing)| + count
      ensures count == 0 ==> trace == old(trace) && executing == old(executing)
      ensures count > 0 ==> !OwesAWait(trace)
      ensures AwaitsIn(trace) == old(AwaitsIn(trace))
    {
      for i := 0 to count
        invariant Valid() && Clean()
        invariant claimed == old(claimed) + i && |executing| == |old(executing)| + i
        invariant i == 0 ==> trace == old(trace) && executing == old(executing)
        invariant i > 0 ==> !OwesAWait(trace)
        invariant AwaitsIn(trace) == old(AwaitsIn(trace))
      {
        Launch();
      }
    }

    /** `client.claim_tasks(limit)`: distinct new runs, at most `limit`, each launched. A stop or a
        cancellation may arrive while the claim is under way. */
    method ClaimAndLaunch(limit: nat, tick: Tick) returns (raised: Option<Outcome>, launched: nat)
      requires Valid() && Reaped() && !stop && !OwesAWait(trace)
      requires |executing| < concurrency && limit == Least(EffectiveBatch(), concurrency - |executing|)
      modifies this`executing, this`exits, this`claimed, this`stop, this`trace
      ensures Valid() && Clean()
      ensures raised == RaisedBy(ClaimIssued(limit), tick)
      ensures launched == BroughtBy(ClaimIssued(limit), tick)
      ensures raised.None? ==> tick.reply.Claims? && launched == Least(tick.reply.count, limit)
      ensures claimed == old(claimed) + launched
      ensures launched == 0 ==> ClaimCameBackEmpty(trace) && executing == old(executing)
      ensures launched > 0 ==> !OwesAWait(trace)
      ensures stop == tick.stops
      ensures AwaitsIn(trace) == old(AwaitsIn(trace)) + [ClaimIssued(limit)]
    {
      var cancelled := AwaitClaim(limit, tick);
      if cancelled {
        return Some(Cancelled), 0;
      }
      if tick.reply.ClaimFails? {
        return Some(ClaimError), 0;
      }
      launched := Least(tick.reply.count, limit);
      LaunchAll(launched);
      raised := None;
    }

    /** `cancel_and_drain_runs`: every run unwinds, in whatever way it does, and leaves the window. */
    method CancelAndDrainRuns(unwinding: map<nat, Exit>)
      requires Valid()
      modifies this`executing, this`exits, this`trace
      ensures Valid() && executing == {} && AwaitsIn(trace) == old(AwaitsIn(trace))
      ensures exits == old(exits) + Ends(AllEnd(unwinding, WasCancelled, old(executing)), old(executing), old(exits))
    {
      Settle(AllEnd(unwinding, WasCancelled, executing));
      while executing != {}
        invariant Valid() && executing <= old(executing) && old(executing) <= exits.Keys
        invariant exits == old(exits) + Ends(AllEnd(unwinding, WasCancelled, old(executing)), old(executing), old(exits))
        invariant AwaitsIn(trace) == old(AwaitsIn(trace))
        decreases |executing|
      {
        var entry :| entry in executing;
        Subsets(executing - {entry}, executing);
        Remove(entry);
      }
    }

    /** `finish_remaining_runs`: wait for the whole window, then surface one run's own exception. */
    method FinishRemainingRuns(finishing: map<nat, Exit>) returns (raised: Option<Outcome>)
      requires Valid()
      modifies this`exits, this`trace
      ensures Valid() && InFlight(trace) == {} && AwaitsIn(trace) == old(AwaitsIn(trace))
      ensures exits == old(exits) + Ends(AllEnd(finishing, Returned, executing), executing, old(exits))
      ensures executing == {} ==> exits == old(exits)
      ensures raised.None? && old(Clean()) ==> AllReturned()
      ensures raised.None? <==> forall run | run in executing :: run in exits && exits[run].Returned?
      ensures raised.Some? ==> ExplainedBy(raised.value, executing)
    {
      Settle(AllEnd(finishing, Returned, executing));
      SettledWindow();
      if run :| run in executing && !exits[run].Returned? {
        return Some(if exits[run].Broke? then MachineryError(run) else Cancelled);
      }
      return None;
    }

    /** A run of this set ended with the exception. */
    ghost predicate ExplainedBy(outcome: Outcome, runs: set<nat>)
      reads this
    {
      match outcome
      case MachineryError(run) => run in runs && run in exits && exits[run].Broke?
      case Cancelled => exists run :: run in runs && run in exits && exits[run].WasCancelled?
      case _ => false
    }

    ghost predicate AllReturned()
      reads this
    {
      forall run | run in LaunchedIn(trace) :: run in exits && exits[run].Returned?
    }

    /** A window with no unsettled run left has nothing in flight, and if it is clean to the last run,
        every launched run returned. */
    lemma SettledWindow()
      requires Valid() && forall run | run in executing :: run in exits
      ensures InFlight(trace) == {}
      ensures Clean() && (forall run | run in executing :: exits[run].Returned?) ==> AllReturned()
    {
      assert InFlight(trace) <= executing;
    }

    /** What the loop made of its script since then. */
    ghost predicate FollowedScript(
        before: seq<Event>, wasStopped: bool, wasClaimed: nat, script: seq<Tick>, raised: Option<Outcome>)
      reads this
    {
      Followed(before, AwaitsIn(trace), wasStopped, stop, wasClaimed, claimed, script, raised)
    }

    /** A cancellation of the loop, or a failing claim, that the script itself brought. */
    ghost predicate Scripted(script: seq<Tick>, outcome: Outcome) {
      || (outcome.Cancelled? && exists i :: 0 <= i < |script| && script[i].cancels)
      || (outcome.ClaimError? && exists i :: 0 <= i < |script| && script[i].reply.ClaimFails?)
    }

    /** `refill_in_flight_runs_until_stopped` against a script of awaits. `unwinding` and `finishing` say
        how the runs still in the window end if they are cancelled, or awaited on the way out. */
    method RefillUntilStopped(script: seq<Tick>, unwinding: map<nat, Exit>, finishing: map<nat, Exit>)
      returns (outcome: Outcome, ghost raised: Option<Outcome>)
      requires Valid() && Clean() && !OwesAWait(trace)
      modifies this`executing, this`exits, this`claimed, this`stop, this`trace
      ensures Valid()
      ensures !outcome.StillRunning? ==> InFlight(trace) == {}
      ensures outcome.StoppedCleanly? ==> stop
      ensures outcome.StoppedCleanly? || outcome.ClaimError? ==> AllReturned()
      ensures outcome.MachineryError? || outcome.Cancelled? || outcome.ClaimError? ==>
                Explains(outcome) || Scripted(script, outcome)
      ensures outcome.StillRunning? <==> raised == Some(StillRunning)
      ensures outcome.StoppedCleanly? ==> raised.None?
      ensures raised == Some(Cancelled) ==> outcome.Cancelled? && executing == {}
      ensures FollowedScript(old(AwaitsIn(trace)), old(stop), old(claimed), script, raised)
    {
      var left := LoopUntilStopped(script);
      raised := left;
      if left == Some(StillRunning) {
        return StillRunning, raised;
      }
      outcome := LeaveLoop(left, unwinding, finishing);
    }

    /** The `except` and the `finally`: a cancellation cancels and drains the window, and every way out
        waits for what is left of it. A run that fails there takes the place of what the loop raised. */
    method LeaveLoop(raised: Option<Outcome>, unwinding: map<nat, Exit>, finishing: map<nat, Exit>)
      returns (outcome: Outcome)
      requires Valid() && raised != Some(StillRunning) && raised != Some(StoppedCleanly)
      requires raised.None? || raised == Some(ClaimError) ==> Clean()
      modifies this`executing, this`exits, this`trace
      ensures Valid() && InFlight(trace) == {} && AwaitsIn(trace) == old(AwaitsIn(trace))
      ensures raised == Some(Cancelled) ==>
                && outcome.Cancelled? && executing == {}
                && exits == old(exits) + Ends(AllEnd(unwinding, WasCancelled, old(executing)), old(executing), old(exits))
      ensures raised != Some(Cancelled) ==>
                && executing == old(executing)
                && exits == old(exits) + Ends(AllEnd(finishing, Returned, executing), executing, old(exits))
                && (if exists run :: run in executing && run in exits && !exits[run].Returned?
                    then ExplainedBy(outcome, executing)
                    else outcome == if raised.Some? then raised.value else StoppedCleanly)
      ensures outcome.StoppedCleanly? || outcome.ClaimError? ==> AllReturned()
      ensures raised.Some? && old(Explains(raised.value)) ==> Explains(raised.value)
    {
      if raised == Some(Cancelled) {
        CancelAndDrainRuns(unwinding);
      }
      var last := FinishRemainingRuns(finishing);
      outcome := if last.Some? then last.value else if raised.Some? then raised.value else StoppedCleanly;
    }

    /** The loop inside the `try`: it ends with a stop, an exception, or the script. */
    method LoopUntilStopped(script: seq<Tick>) returns (raised: Option<Outcome>)
      requires Valid() && Clean() && !OwesAWait(trace)
      modifies this`executing, this`exits, this`claimed, this`stop, this`trace
      ensures Valid()
      ensures raised.None? ==> stop
      ensures raised.None? || raised == Some(ClaimError) ==> Clean()
      ensures raised != Some(StoppedCleanly)
      ensures raised.Some? ==> raised.value.StillRunning? || Explains(raised.value) || Scripted(script, raised.value)
      ensures FollowedScript(old(AwaitsIn(trace)), old(stop), old(claimed), script, raised)
    {
      ghost var before, wasStopped, wasClaimed := AwaitsIn(trace), stop, claimed;
      var i := 0;
      raised := None;
      while !stop
        invariant Valid() && Clean() && !OwesAWait(trace) && raised.None? && 0 <= i <= |script|
        invariant FollowedScript(before, wasStopped, wasClaimed, script, None)
        invariant |AwaitsIn(trace)| == |before| + i
        decreases |script| - i
      {
        raised := ReapFinishedRuns();
        if raised.Some? {
          return;
        }
        if i == |script| {
          return Some(StillRunning);
        }
        raised, i := ClaimOrWait(script, i, before, wasStopped, wasClaimed);
        if raised.Some? {
          return;
        }
      }
    }

    /** The rest of one turn: a claim into the free slots, and a sleep if there are none or it came back empty. */
    method ClaimOrWait(script: seq<Tick>, i: nat, ghost before: seq<Event>, ghost wasStopped: bool, ghost wasClaimed: nat)
      returns (raised: Option<Outcome>, next: nat)
      requires Valid() && Reaped() && !stop && !OwesAWait(trace) && i < |script|
      requires FollowedScript(before, wasStopped, wasClaimed, script, None) && |AwaitsIn(trace)| == |before| + i
      modifies this`executing, this`exits, this`claimed, this`stop, this`trace
      ensures Valid() && i < next <= |script| && |AwaitsIn(trace)| == |before| + next
      ensures raised != Some(StoppedCleanly) && (raised.None? ==> !OwesAWait(trace))
      ensures raised.None? || raised == Some(ClaimError) ==> Clean()
      ensures raised.Some? ==> raised.value.StillRunning? || Scripted(script, raised.value)
      ensures FollowedScript(before, wasStopped, wasClaimed, script, raised)
    {
      next := i;
      var capacity := concurrency - |executing|;
      if 0 < capacity {
        var launched;
        raised, launched := ClaimNext(capacity, script, i, before, wasStopped, wasClaimed);
        next := i + 1;
        if raised.Some? || 0 < launched {
          return;
        }
        if next == |script| {
          return Some(StillRunning), next;
        }
      }
      raised := WaitNext(script, next, before, wasStopped, wasClaimed);
      next := next + 1;
    }

    method ClaimNext(
        capacity: nat, script: seq<Tick>, i: nat, ghost before: seq<Event>, ghost wasStopped: bool, ghost wasClaimed: nat)
      returns (raised: Option<Outcome>, launched: nat)
      requires Valid() && Reaped() && !stop && !OwesAWait(trace) && i < |script| && 0 < capacity == concurrency - |executing|
      requires FollowedScript(before, wasStopped, wasClaimed, script, None) && |AwaitsIn(trace)| == |before| + i
      modifies this`executing, this`exits, this`claimed, this`stop, this`trace
      ensures Valid() && Clean() && |AwaitsIn(trace)| == |before| + i + 1
      ensures raised.Some? ==> Scripted(script, raised.value)
      ensures raised.None? && launched == 0 ==> ClaimCameBackEmpty(trace)
      ensures launched > 0 ==> !OwesAWait(trace)
      ensures FollowedScript(before, wasStopped, wasClaimed, script, raised)
    {
      var limit := Least(EffectiveBatch(), capacity);
      FollowedOneMore(before, AwaitsIn(trace), wasStopped, stop, wasClaimed, claimed, script, ClaimIssued(limit));
      raised, launched := ClaimAndLaunch(limit, script[i]);
    }

    method WaitNext(script: seq<Tick>, i: nat, ghost before: seq<Event>, ghost wasStopped: bool, ghost wasClaimed: nat)
      returns (raised: Option<Outcome>)
      requires Valid() && Clean() && i < |script|
      requires ClaimCameBackEmpty(trace) || (Reaped() && |executing| == concurrency && !stop)
      requires FollowedScript(before, wasStopped, wasClaimed, script, None) && |AwaitsIn(trace)| == |before| + i
      modifies this`exits, this`stop, this`trace
      ensures Valid() && Clean() && |AwaitsIn(trace)| == |before| + i + 1 && !OwesAWait(trace)
      ensures raised.Some? ==> raised.value.Cancelled? && Scripted(script, raised.value)
      ensures FollowedScript(before, wasStopped, wasClaimed, script, raised)
    {
      FollowedOneMore(before, AwaitsIn(trace), wasStopped, stop, wasClaimed, claimed, script, Waited);
      var cancelled := WaitForRunProgress(script[i]);
      raised := if cancelled then Some(Cancelled) else None;
    }
  }

  /*******************************************************************************
   *  The concurrency-one fast path
   *******************************************************************************/

  /** What happens while one claimed run is awaited in line. */
  datatype RunTick = RunTick(exit: Exit, stops: bool, cancels: bool)

  /** One claim, the runs it brings in order, and the idle wait if it brings none. */
  datatype BatchTick = BatchTick(claim: Tick, runs: seq<RunTick>, idle: Tick)

  /** A run of the batch brought this exception: its machinery broke, or a cancellation reached it or the
      loop awaiting it. */
  predicate RunsExplain(runs: seq<RunTick>, outcome: Outcome) {
    match outcome
    case MachineryError(_) => exists k :: 0 <= k < |runs| && runs[k].exit.Broke?
    case Cancelled => exists k :: 0 <= k < |runs| && (runs[k].cancels || runs[k].exit.WasCancelled?)
    case _ => false
  }

  /** The script brought this exception: a claim, an idle wait, or a run of some batch. */
  predicate BatchExplains(batch: BatchTick, outcome: Outcome) {
    || RunsExplain(batch.runs, outcome)
    || (outcome.Cancelled? && (batch.claim.cancels || batch.idle.cancels))
    || (outcome.ClaimError? && batch.claim.reply.ClaimFails?)
  }

  /** How the run ends: a cancellation of the loop reaches the run it awaits. */
  function EndOf(tick: RunTick): Exit {
    if tick.cancels then WasCancelled else tick.exit
  }

  /** What awaiting one run raises. */
  function RunRaises(tick: RunTick, run: nat): Option<Outcome> {
    match EndOf(tick)
    case Returned => None
    case Broke => Some(MachineryError(run))
    case WasCancelled => Some(Cancelled)
  }

  /** How many runs of a batch start: all of them, or up to the first that raises. */
  function RunsStarted(runs: seq<RunTick>): nat {
    if runs == [] then 0
    else if EndOf(runs[0]).Returned? then 1 + RunsStarted(runs[1..])
    else 1
  }

  function RunsOutcome(runs: seq<RunTick>, first: nat): Option<Outcome> {
    if runs == [] then None
    else if EndOf(runs[0]).Returned? then RunsOutcome(runs[1..], first + 1)
    else RunRaises(runs[0], first)
  }

  predicate RunsStop(runs: seq<RunTick>) {
    runs != [] && (runs[0].stops || (EndOf(runs[0]).Returned? && RunsStop(runs[1..])))
  }

  /** The runs a batch brings: no more than were asked for. */
  function Offered(batch: BatchTick, batchSize: nat): seq<RunTick> {
    if batch.claim.reply.ClaimFails? then []
    else batch.runs[..Least(Least(batch.claim.reply.count, batchSize), |batch.runs|)]
  }

  function ClaimRaises(batch: BatchTick): Option<Outcome> {
    if batch.claim.cancels then Some(Cancelled) else if batch.claim.reply.ClaimFails? then Some(ClaimError) else None
  }

  function BatchOutcome(batch: BatchTick, batchSize: nat, first: nat): Option<Outcome> {
    if ClaimRaises(batch).Some? then ClaimRaises(batch)
    else if Offered(batch, batchSize) == [] then if batch.idle.cancels then Some(Cancelled) else None
    else RunsOutcome(Offered(batch, batchSize), first)
  }

  predicate BatchStops(batch: BatchTick, batchSize: nat) {
    || batch.claim.stops
    || (ClaimRaises(batch).None?
        && if Offered(batch, batchSize) == [] then batch.idle.stops else RunsStop(Offered(batch, batchSize)))
  }

  /** How a script of batches ends: with the first exception, at the first head of the loop that finds a stop,
      or not at all. */
  function SequentialOutcome(script: seq<BatchTick>, batchSize: nat, first: nat, stop: bool): Outcome {
    if stop then StoppedCleanly
    else if script == [] then StillRunning
    else
      var raised := BatchOutcome(script[0], batchSize, first);
      if raised.Some? then raised.value
      else SequentialOutcome(script[1..], batchSize, first + |Offered(script[0], batchSize)|, BatchStops(script[0], batchSize))
  }

  /** Nothing in the batch raises: the claim and the idle wait go through, and every run it brings returns. */
  ghost predicate GoesThrough(batch: BatchTick, batchSize: nat) {
    && !batch.claim.cancels && batch.claim.reply.Claims?
    && var brought := Least(Least(batch.claim.reply.count, batchSize), |batch.runs|);
      && (brought == 0 ==> !batch.idle.cancels)
      && forall k | 0 <= k < brought :: !batch.runs[k].cancels && batch.runs[k].exit.Returned?
  }

  /** A stop arrives somewhere in a batch that goes through. */
  ghost predicate AsksToStop(batch: BatchTick, batchSize: nat)
    requires GoesThrough(batch, batchSize)
  {
    var brought := Least(Least(batch.claim.reply.count, batchSize), |batch.runs|);
    || batch.claim.stops || (brought == 0 && batch.idle.stops)
    || exists k :: 0 <= k < brought && batch.runs[k].stops
  }

  lemma {:induction false} RunsGoThrough(runs: seq<RunTick>, first: nat)
    ensures RunsOutcome(runs, first).None? <==> forall k | 0 <= k < |runs| :: !runs[k].cancels && runs[k].exit.Returned?
    ensures RunsOutcome(runs, first).None? ==>
              RunsStarted(runs) == |runs| && (RunsStop(runs) <==> exists k :: 0 <= k < |runs| && runs[k].stops)
  {
    if runs != [] {
      RunsGoThrough(runs[1..], first + 1);
      assert forall k | 1 <= k < |runs| :: runs[k] == runs[1..][k - 1];
      assert forall k | 0 <= k < |runs| - 1 :: runs[1..][k] == runs[k + 1];
    }
  }

  lemma BatchGoesThrough(batch: BatchTick, batchSize: nat, first: nat)
    ensures BatchOutcome(batch, batchSize, first).None? <==> GoesThrough(batch, batchSize)
    ensures GoesThrough(batch, batchSize) ==> (BatchStops(batch, batchSize) <==> AsksToStop(batch, batchSize))
  {
    RunsGoThrough(Offered(batch, batchSize), first);
  }

  ghost predicate Quiet(batch: BatchTick, batchSize: nat) {
    GoesThrough(batch, batchSize) && !AsksToStop(batch, batchSize)
  }

  /** The first batch that is not quiet goes through and asks for a stop. */
  ghost predicate StopsAt(script: seq<BatchTick>, batchSize: nat, i: nat) {
    && i < |script| && GoesThrough(script[i], batchSize) && AsksToStop(script[i], batchSize)
    && forall j | 0 <= j < i :: Quiet(script[j], batchSize)
  }

  lemma StopsLater(script: seq<BatchTick>, batchSize: nat)
    requires script != [] && Quiet(script[0], batchSize)
    ensures (exists i: nat :: StopsAt(script, batchSize, i)) <==> exists i: nat :: StopsAt(script[1..], batchSize, i)
  {
    if i: nat :| StopsAt(script, batchSize, i) {
      assert forall j | 0 <= j < i - 1 :: script[1..][j] == script[j + 1];
      assert StopsAt(script[1..], batchSize, i - 1);
    }
    if i: nat :| StopsAt(script[1..], batchSize, i) {
      assert forall j | 1 <= j < i + 1 :: script[j] == script[1..][j - 1];
      assert StopsAt(script, batchSize, i + 1);
    }
  }

  /** The loop goes on exactly while every batch goes through and asks for no stop; it stops cleanly exactly when
      the first batch not of that kind goes through and does ask for one. */
  lemma {:induction false} SequentialEnds(script: seq<BatchTick>, batchSize: nat, first: nat)
    ensures var outcome := SequentialOutcome(script, batchSize, first, false);
      && (outcome.StillRunning? <==> forall i | 0 <= i < |script| :: Quiet(script[i], batchSize))
      && (outcome.StoppedCleanly? <==> exists i: nat :: StopsAt(script, batchSize, i))
    decreases |script|
  {
    if script != [] {
      BatchGoesThrough(script[0], batchSize, first);
      OutcomesFail(script[0], batchSize, first);
      if Quiet(script[0], batchSize) {
        SequentialEnds(script[1..], batchSize, first + |Offered(script[0], batchSize)|);
        StopsLater(script, batchSize);
        assert forall i | 1 <= i < |script| :: script[i] == script[1..][i - 1];
        assert forall i | 0 <= i < |script| - 1 :: script[1..][i] == script[i + 1];
      } else if GoesThrough(script[0], batchSize) {
        assert StopsAt(script, batchSize, 0);
      }
    }
  }

  lemma {:induction false} RunsFail(runs: seq<RunTick>, first: nat)
    ensures var raised := RunsOutcome(runs, first); raised.Some? ==> raised.value.Cancelled? || raised.value.MachineryError?
  {
    if runs != [] {
      RunsFail(runs[1..], first + 1);
    }
  }

  /** What a batch raises is a failure. */
  lemma OutcomesFail(batch: BatchTick, batchSize: nat, first: nat)
    ensures var raised := BatchOutcome(batch, batchSize, first);
      raised.Some? ==> !raised.value.StillRunning? && !raised.value.StoppedCleanly?
  {
    RunsFail(Offered(batch, batchSize), first);
  }

  /** A run starts, and a claim is made, only while every run before has returned. */
  predicate GoesOnAfterReturns(trace: seq<Event>) {
    forall i | 0 <= i < |trace| && (trace[i].ClaimIssued? || trace[i].Launched?) :: NothingFailed(trace[..i])
  }

  lemma ExtendReturns(trace: seq<Event>, event: Event)
    requires GoesOnAfterReturns(trace) && (event.ClaimIssued? || event.Launched? ==> NothingFailed(trace))
    ensures GoesOnAfterReturns(trace + [event])
  {
    var longer := trace + [event];
    assert longer[..|trace|] == trace;
    assert forall i | 0 <= i < |trace| :: longer[i] == trace[i] && longer[..i] == trace[..i];
  }

  lemma ExtendWhole(trace: seq<Event>, event: Event, batch: nat)
    requires WholeBatches(trace, batch) && (event.ClaimIssued? ==> event.limit == batch)
    ensures WholeBatches(trace + [event], batch)
  {
  }

  /** A run launched with nothing in flight and awaited in line keeps the window at one. */
  lemma RunAlone(trace: seq<Event>, run: nat, end: Exit, batch: nat)
    requires LaunchedIn(trace) == SettledIn(trace) && TraceSafe(trace, 1, batch) && WholeBatches(trace, batch)
    ensures var after := trace + [Launched(run)] + [Settled(map[run := end])];
      && LaunchedIn(after) == LaunchedIn(trace) + {run} == SettledIn(after)
      && TraceSafe(after, 1, batch) && WholeBatches(after, batch)
  {
    Extend(trace, Launched(run));
    Extend(trace + [Launched(run)], Settled(map[run := end]));
    assert InFlight(trace) == {};
    LaunchAlone(trace, run, batch);
    ExtendSafe(trace + [Launched(run)], Settled(map[run := end]), 1, batch);
    ExtendWhole(trace + [Launched(run)], Settled(map[run := end]), batch);
  }

  lemma LaunchAlone(trace: seq<Event>, run: nat, batch: nat)
    requires InFlight(trace) == {} && TraceSafe(trace, 1, batch) && WholeBatches(trace, batch)
    ensures TraceSafe(trace + [Launched(run)], 1, batch) && WholeBatches(trace + [Launched(run)], batch)
  {
    ExtendSafe(trace, Launched(run), 1, batch);
    ExtendWhole(trace, Launched(run), batch);
  }

  lemma RunAloneAwaits(trace: seq<Event>, run: nat, end: Exit)
    ensures var after := trace + [Launched(run)] + [Settled(map[run := end])];
      && AwaitsIn(after) == AwaitsIn(trace)
      && (StopSet in after <==> StopSet in trace)
  {
    ExtendAwaits(trace, Launched(run));
    ExtendAwaits(trace + [Launched(run)], Settled(map[run := end]));
  }

  lemma RunAloneReturns(trace: seq<Event>, run: nat, end: Exit)
    requires GoesOnAfterReturns(trace) && NothingFailed(trace) && run !in ExitsIn(trace)
    ensures var after := trace + [Launched(run)] + [Settled(map[run := end])];
      && GoesOnAfterReturns(after) && (NothingFailed(after) <==> end.Returned?)
  {
    var launched, settled := trace + [Launched(run)], Settled(map[run := end]);
    ExtendReturns(trace, Launched(run));
    ExtendReturns(launched, settled);
    Extend(trace, Launched(run));
    Extend(launched, settled);
    assert run in ExitsIn(launched + [settled]);
  }

  lemma SettledHaveExits(trace: seq<Event>)
    ensures ExitsIn(trace).Keys == SettledIn(trace)
  {
    if trace != [] {
      SettledHaveExits(trace[..|trace| - 1]);
    }
  }

  /** Runs start in claim order, each only once the one before it has returned. */
  ghost predicate OneByOne(trace: seq<Event>, started: nat, stop: bool, batch: nat) {
    && (forall run: nat :: run in LaunchedIn(trace) <==> run < started)
    && SettledIn(trace) == LaunchedIn(trace)
    && TraceSafe(trace, 1, batch) && WholeBatches(trace, batch)
    && GoesOnAfterReturns(trace)
    && (stop <==> StopSet in trace)
  }

  lemma RunKeepsOneByOne(trace: seq<Event>, started: nat, stop: bool, batch: nat, end: Exit)
    requires OneByOne(trace, started, stop, batch) && NothingFailed(trace)
    ensures var after := trace + [Launched(started)] + [Settled(map[started := end])];
      && OneByOne(after, started + 1, stop, batch) && (NothingFailed(after) <==> end.Returned?)
      && AwaitsIn(after) == AwaitsIn(trace)
  {
    SettledHaveExits(trace);
    RunAlone(trace, started, end, batch);
    RunAloneAwaits(trace, started, end);
    RunAloneReturns(trace, started, end);
  }

  lemma ClaimKeepsOneByOne(trace: seq<Event>, started: nat, batch: nat)
    requires OneByOne(trace, started, false, batch) && NothingFailed(trace)
    ensures OneByOne(trace + [ClaimIssued(batch)], started, false, batch) && NothingFailed(trace + [ClaimIssued(batch)])
  {
    Extend(trace, ClaimIssued(batch));
    ExtendSafe(trace, ClaimIssued(batch), 1, batch);
    ExtendWhole(trace, ClaimIssued(batch), batch);
    ExtendReturns(trace, ClaimIssued(batch));
  }

  class SequentialLoop {
    const batchSize: nat
    var claimed: nat
    var started: nat
    var stop: bool
    var trace: seq<Event>

    constructor (concurrency: nat, batchSize: Option<nat>)
      ensures this.batchSize == BatchOf(batchSize, concurrency) && Valid() && NothingFailed(trace)
      ensures !stop && claimed == 0 && started == 0 && trace == []
    {
      this.batchSize := BatchOf(batchSize, concurrency);
      claimed, started, stop, trace := 0, 0, false, [];
      new;
      assert LaunchedIn(trace) == {} && SettledIn(trace) == {};
    }

    ghost predicate Valid()
      reads this
    {
      started <= claimed && OneByOne(trace, started, stop, batchSize)
    }

    method RequestStop()
      requires Valid()
      modifies this`stop, this`trace
      ensures Valid() && stop
      ensures old(NothingFailed(trace)) == NothingFailed(trace)
      ensures AwaitsIn(trace) == old(AwaitsIn(trace))
    {
      Extend(trace, StopSet);
      ExtendSafe(trace, StopSet, 1, batchSize);
      ExtendReturns(trace, StopSet);
      ExtendAwaits(trace, StopSet);
      stop := true;
      trace := trace + [StopSet];
    }

    method IssueClaim()
      requires Valid() && !stop && NothingFailed(trace)
      modifies this`trace
      ensures Valid() && NothingFailed(trace)
      ensures AwaitsIn(trace) == old(AwaitsIn(trace)) + [ClaimIssued(batchSize)]
    {
      ClaimKeepsOneByOne(trace, started, batchSize);
      ExtendAwaits(trace, ClaimIssued(batchSize));
      trace := trace + [ClaimIssued(batchSize)];
    }

    method ExecuteRun(end: Exit)
      requires Valid() && NothingFailed(trace) && started < claimed
      modifies this`started, this`trace
      ensures Valid() && started == old(started) + 1
      ensures NothingFailed(trace) <==> end.Returned?
      ensures AwaitsIn(trace) == old(AwaitsIn(trace))
    {
      RunKeepsOneByOne(trace, started, stop, batchSize, end);
      trace := trace + [Launched(started)];
      trace := trace + [Settled(map[started := end])];
      started := started + 1;
    }

    /** The `for` over one claimed batch. Only a broken or cancelled run leaves claimed work behind. */
    method ExecuteBatch(runs: seq<RunTick>) returns (raised: Option<Outcome>)
      requires Valid() && NothingFailed(trace) && claimed - started == |runs|
      modifies this`started, this`stop, this`trace
      ensures Valid() && (raised.None? ==> NothingFailed(trace))
      ensures raised == RunsOutcome(runs, old(started))
      ensures started == old(started) + RunsStarted(runs)
      ensures stop == (old(stop) || RunsStop(runs))
      ensures raised.None? ==> started == claimed
      ensures raised.Some? ==> RunsExplain(runs, raised.value)
      ensures raised.Some? && raised.value.MachineryError? ==> raised.value.run + 1 == started
      ensures AwaitsIn(trace) == old(AwaitsIn(trace))
    {
      var i := 0;
      while started < claimed
        invariant Valid() && NothingFailed(trace)
        invariant 0 <= i <= |runs| && claimed - started == |runs| - i && started == old(started) + i
        invariant RunsOutcome(runs, old(started)) == RunsOutcome(runs[i..], started)
        invariant RunsStarted(runs) == i + RunsStarted(runs[i..])
        invariant (old(stop) || RunsStop(runs)) == (stop || RunsStop(runs[i..]))
        invariant AwaitsIn(trace) == old(AwaitsIn(trace))
        decreases claimed - started
      {
        var tick := runs[i];
        assert runs[i..][1..] == runs[i + 1..];
        i := i + 1;
        ExecuteRun(EndOf(tick));
        if tick.stops {
          RequestStop();
        }
        match EndOf(tick)
        case Returned =>
        case Broke => return Some(MachineryError(started - 1));
        case WasCancelled => return Some(Cancelled);
      }
      raised := None;
    }

    /** `execute_one_run_at_a_time`: whatever the adversary does, one run at a time, nothing in flight at
        any exit, and a clean stop leaves no claimed run unexecuted. */
    method ExecuteOneAtATime(script: seq<BatchTick>) returns (outcome: Outcome)
      requires Valid() && NothingFailed(trace) && started == claimed
      modifies this`claimed, this`started, this`stop, this`trace
      ensures Valid() && InFlight(trace) == {}
      ensures outcome == SequentialOutcome(script, batchSize, old(started), old(stop))
      ensures outcome.StoppedCleanly? ==> stop && started == claimed && NothingFailed(trace)
      ensures outcome.StillRunning? ==> |AwaitsIn(trace)| == |old(AwaitsIn(trace))| + |script|
      ensures !outcome.StoppedCleanly? && !outcome.StillRunning? ==>
                exists i :: 0 <= i < |script| && BatchExplains(script[i], outcome)
      ensures outcome.MachineryError? ==> outcome.run + 1 == started
    {
      var i := 0;
      while !stop
        invariant Valid() && NothingFailed(trace) && started == claimed
        invariant 0 <= i <= |script| && |AwaitsIn(trace)| == |old(AwaitsIn(trace))| + i
        invariant SequentialOutcome(script, batchSize, old(started), old(stop))
                  == SequentialOutcome(script[i..], batchSize, started, stop)
        decreases |script| - i
      {
        if |script| <= i {
          return StillRunning;
        }
        var batch := script[i];
        assert script[i..][1..] == script[i + 1..];
        i := i + 1;
        var raised := ExecuteOne(batch);
        if raised.Some? {
          assert BatchExplains(script[i - 1], raised.value);
          return raised.value;
        }
      }
      outcome := StoppedCleanly;
    }

    /** One turn of the loop: a claim, and then an idle wait or the batch it brought. */
    method ExecuteOne(batch: BatchTick) returns (raised: Option<Outcome>)
      requires Valid() && NothingFailed(trace) && started == claimed && !stop
      modifies this`claimed, this`started, this`stop, this`trace
      ensures Valid()
      ensures raised == BatchOutcome(batch, batchSize, old(started))
      ensures raised.Some? ==> BatchExplains(batch, raised.value)
      ensures raised.Some? && raised.value.MachineryError? ==> raised.value.run + 1 == started
      ensures raised.None? ==>
                && NothingFailed(trace) && stop == BatchStops(batch, batchSize)
                && started == claimed == old(started) + |Offered(batch, batchSize)|
      ensures AwaitsIn(trace) == old(AwaitsIn(trace)) + [ClaimIssued(batchSize)]
    {
      IssueClaim();
      if batch.claim.stops {
        RequestStop();
      }
      if batch.claim.cancels {
        return Some(Cancelled);
      }
      if batch.claim.reply.ClaimFails? {
        return Some(ClaimError);
      }
      var runs := Offered(batch, batchSize);
      claimed := claimed + |runs|;
      if |runs| == 0 {
        if batch.idle.stops && !stop {
          RequestStop();
        }
        return if batch.idle.cancels then Some(Cancelled) else None;
      }
      raised := ExecuteBatch(runs);
    }
  }
}
