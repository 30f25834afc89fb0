/** The handler a worker builds for a task, and the Django signals it sends over all the attempts of
    one task's life. */
module Handler {
  import opened Wrappers
  import opened Backend
  import opened Results

  /** A Python value a function returned, with what two encoders that need not agree make of it, unless they
      refuse it: Django's, for the signal, and the SDK's, for the row. */
  datatype Value = Value(identity: nat, normalised: Option<Json>, serialised: Option<Json>)

  /** How one run of the task's function ends. The last three are Absurd deciding the run's fate itself. */
  datatype FunctionEnd =
    | Returns(value: Value)
    | Raises(error: string)
    | Suspends
    | CancelsRun
    | FailedElsewhere

  datatype Signal =
    | Started(attempt: nat)
    | Finished(attempt: nat, status: Status, errors: seq<string>, returnValue: Option<Json>)

  /** How the handler itself ends, as Absurd sees it. */
  datatype HandlerEnd = HandlerReturned(value: Value) | HandlerRaised | AbsurdEnded

  predicate IsTerminalAttempt(attempt: nat, maxAttempts: Option<nat>) {
    maxAttempts.Some? && attempt >= maxAttempts.value
  }

  /** Absurd's own rule in `fail_run`. */
  predicate Retries(attempt: nat, maxAttempts: Option<nat>) {
    maxAttempts.None? || attempt + 1 <= maxAttempts.value
  }

  /** What one handler run sends: a start, and an end only when Absurd is sure to agree it is one. */
  function SignalsOf(attempt: nat, maxAttempts: Option<nat>, end: FunctionEnd): seq<Signal> {
    match end
    case Returns(value) =>
      if value.normalised.None? then [Started(attempt)]
      else [Started(attempt), Finished(attempt, SUCCESSFUL, [], value.normalised)]
    case Raises(error) =>
      if Retries(attempt, maxAttempts) then [Started(attempt)]
      else [Started(attempt), Finished(attempt, FAILED, [error], None)]
    case _ => [Started(attempt)]
  }

  function HandlerEndOf(end: FunctionEnd): HandlerEnd {
    match end
    case Returns(value) => if value.normalised.Some? then HandlerReturned(value) else HandlerRaised
    case Raises(_) => HandlerRaised
    case _ => AbsurdEnded
  }

  /** The frozen `TaskResult` a handler run mutates behind its own back, and the signals it sends. */
  class HandlerRun {
    var status: Status
    var errors: seq<string>
    var returnValue: Option<Json>
    var sent: seq<Signal>

    constructor ()
      ensures status == RUNNING && errors == [] && returnValue.None? && sent == []
    {
      status, errors, returnValue, sent := RUNNING, [], None, [];
    }

    method SendFinishedIfTerminal(attempt: nat, maxAttempts: Option<nat>, error: string)
      modifies this
      ensures sent == old(sent) + if Retries(attempt, maxAttempts) then []
                                  else [Finished(attempt, FAILED, old(errors) + [error], old(returnValue))]
    {
      if !IsTerminalAttempt(attempt, maxAttempts) {
        return;
      }
      status := FAILED;
      errors := errors + [error];
      sent := sent + [Finished(attempt, status, errors, returnValue)];
    }

    /** The `handler` closure of `build_handler`. */
    method Handle(attempt: nat, maxAttempts: Option<nat>, end: FunctionEnd) returns (r: HandlerEnd)
      requires status == RUNNING && errors == [] && returnValue.None?
      modifies this
      ensures sent == old(sent) + SignalsOf(attempt, maxAttempts, end)
      ensures r == HandlerEndOf(end)
    {
      sent := sent + [Started(attempt)];
      match end
      case Suspends => r := AbsurdEnded;
      case CancelsRun => r := AbsurdEnded;
      case FailedElsewhere => r := AbsurdEnded;
      case Raises(error) =>
        assert [] + [error] == [error];
        SendFinishedIfTerminal(attempt, maxAttempts, error);
        assert SignalsOf(attempt, maxAttempts, end)
               == [Started(attempt)] + SignalsOf(attempt, maxAttempts, end)[1..];
        r := HandlerRaised;
      case Returns(value) =>
        status := SUCCESSFUL;
        if value.normalised.None? {
          return HandlerRaised;
        }
        returnValue := value.normalised;
        assert SignalsOf(attempt, maxAttempts, end) == [Started(attempt)] + SignalsOf(attempt, maxAttempts, end)[1..];
        sent := sent + [Finished(attempt, status, errors, returnValue)];
        r := HandlerReturned(value);
    }
  }

  /*******************************************************************************
   *  A task's whole life
   *******************************************************************************/

  datatype Phase = Claimable | TaskCompleted | TaskCancelled | TaskFailed(cause: FunctionEnd)

  /** `payload` is what the row of a completed task stores. */
  datatype TaskLife = TaskLife(attempt: nat, phase: Phase, payload: Option<Json>, signals: seq<Signal>)

  /** What the SDK makes of the handler's end: the value it can store, if any. */
  function Stored(end: HandlerEnd): Option<Json> {
    if end.HandlerReturned? then end.value.serialised else None
  }

  /** The run completes the task: the handler returned, and the SDK can store what it returned. */
  predicate Completes(end: FunctionEnd) {
    Stored(HandlerEndOf(end)).Some?
  }

  /** The run announces a success the SDK then cannot store. */
  predicate Misreports(end: FunctionEnd) {
    end.Returns? && end.value.normalised.Some? && end.value.serialised.None?
  }

  /** One more handler run, and what Absurd makes of it. A task that has ended is never claimed. A
      suspended run comes back within the same attempt. */
  function LiveOn(life: TaskLife, maxAttempts: Option<nat>, end: FunctionEnd): TaskLife {
    if !life.phase.Claimable? then life
    else
      var next := life.(signals := life.signals + SignalsOf(life.attempt, maxAttempts, end));
      match end
      case Suspends => next
      case CancelsRun => next.(phase := TaskCancelled)
      case _ =>
        if Completes(end) then next.(phase := TaskCompleted, payload := Stored(HandlerEndOf(end)))
        else if Retries(life.attempt, maxAttempts) then next.(attempt := life.attempt + 1)
        else next.(phase := TaskFailed(end))
  }

  function LifeOf(maxAttempts: Option<nat>, ends: seq<FunctionEnd>): TaskLife {
    if ends == [] then TaskLife(1, Claimable, None, [])
    else LiveOn(LifeOf(maxAttempts, ends[..|ends| - 1]), maxAttempts, ends[|ends| - 1])
  }

  function FinishedIn(signals: seq<Signal>): (r: seq<Signal>)
    ensures forall signal | signal in r :: signal.Finished?
  {
    if signals == [] then []
    else
      var before, last := FinishedIn(signals[..|signals| - 1]), signals[|signals| - 1];
      if last.Finished? then before + [last] else before
  }

  /** A run sends its start, and after it at most its end. */
  lemma StartThenEnd(attempt: nat, maxAttempts: Option<nat>, end: FunctionEnd)
    ensures var sent := SignalsOf(attempt, maxAttempts, end);
      sent == [Started(attempt)] || (|sent| == 2 && sent[1].Finished? && sent == [Started(attempt)] + [sent[1]])
  {
  }

  lemma FinishedInAppend(signals: seq<Signal>, attempt: nat, maxAttempts: Option<nat>, end: FunctionEnd)
    ensures FinishedIn(signals + SignalsOf(attempt, maxAttempts, end))
            == FinishedIn(signals) + SignalsOf(attempt, maxAttempts, end)[1..]
  {
    var sent := SignalsOf(attempt, maxAttempts, end);
    var started := signals + [Started(attempt)];
    StartThenEnd(attempt, maxAttempts, end);
    assert started[..|started| - 1] == signals;
    if |sent| != 1 {
      var all := signals + sent;
      assert all == started + [sent[1]];
      assert all[..|all| - 1] == started && all[|all| - 1] == sent[1];
    }
  }

  /** How often a life announced a success that was then not stored. */
  function MisreportsIn(maxAttempts: Option<nat>, ends: seq<FunctionEnd>): nat {
    if ends == [] then 0
    else
      var front := ends[..|ends| - 1];
      MisreportsIn(maxAttempts, front)
      + if LifeOf(maxAttempts, front).phase.Claimable? && Misreports(ends[|ends| - 1]) then 1 else 0
  }

  /** The endings Django's signal describes: completion, and failure by the function raising. */
  predicate Reportable(phase: Phase) {
    phase.TaskCompleted? || (phase.TaskFailed? && phase.cause.Raises?)
  }

  /** The last signal of a life that ended reportably says so, for the attempt it ended in. */
  predicate LastSignalTells(life: TaskLife) {
    && |life.signals| > 0
    && var last := life.signals[|life.signals| - 1];
      && last.Finished? && last.attempt == life.attempt
      && (life.phase.TaskCompleted? ==> last.status.SUCCESSFUL? && last.errors == [] && last.returnValue.Some?)
      && (life.phase.TaskFailed? ==>
            && last.status.FAILED? && last.returnValue.None?
            && life.phase.cause.Raises? && last.errors == [life.phase.cause.error])
  }

  lemma RunAddsItsFinishes(signals: seq<Signal>, attempt: nat, maxAttempts: Option<nat>, end: FunctionEnd)
    ensures |FinishedIn(signals + SignalsOf(attempt, maxAttempts, end))|
            == |FinishedIn(signals)| + |SignalsOf(attempt, maxAttempts, end)| - 1
  {
    FinishedInAppend(signals, attempt, maxAttempts, end);
  }

  function Indicator(b: bool): nat {
    if b then 1 else 0
  }

  /** A run sends its end exactly when it ends the task reportably or misreports. */
  lemma EndsAreSent(life: TaskLife, maxAttempts: Option<nat>, end: FunctionEnd)
    requires life.phase.Claimable?
    ensures |SignalsOf(life.attempt, maxAttempts, end)| - 1
            == Indicator(Misreports(end)) + Indicator(Reportable(LiveOn(life, maxAttempts, end).phase))
  {
  }

  lemma OneMoreRunTells(life: TaskLife, maxAttempts: Option<nat>, end: FunctionEnd)
    requires life.phase.Claimable?
    ensures var next := LiveOn(life, maxAttempts, end); Reportable(next.phase) ==> LastSignalTells(next)
  {
  }

  /** `task_finished` over a whole life: one for a task that completed, or failed by its own function
      raising on the attempt Absurd does not retry, then as the last signal ever sent; none for any other
      ending; and one besides for every success announced and not stored. So it is sent at most once, and
      exactly for those endings, if and only if no success is announced that the SDK cannot store. */
  lemma {:induction false} FinishedExactlyOnce(maxAttempts: Option<nat>, ends: seq<FunctionEnd>)
    ensures var life := LifeOf(maxAttempts, ends);
      && |FinishedIn(life.signals)| == MisreportsIn(maxAttempts, ends) + (if Reportable(life.phase) then 1 else 0)
      && (Reportable(life.phase) ==> LastSignalTells(life))
      && (|FinishedIn(life.signals)| == (if Reportable(life.phase) then 1 else 0) <==> MisreportsIn(maxAttempts, ends) == 0)
  {
    if ends != [] {
      var front, last := ends[..|ends| - 1], ends[|ends| - 1];
      FinishedExactlyOnce(maxAttempts, front);
      if LifeOf(maxAttempts, front).phase.Claimable? {
        var before := LifeOf(maxAttempts, front);
        RunAddsItsFinishes(before.signals, before.attempt, maxAttempts, last);
        EndsAreSent(before, maxAttempts, last);
        OneMoreRunTells(before, maxAttempts, last);
      }
    }
  }

  /** A completed task stores what the SDK makes of the very value the function returned in the run that
      completed it, and its last signal carries what Django makes of it. So the row and the signal tell the
      same value exactly when the two encoders agree on it. */
  lemma {:induction false} CompletedStoresWhatItReturned(maxAttempts: Option<nat>, ends: seq<FunctionEnd>) returns (k: nat)
    requires LifeOf(maxAttempts, ends).phase.TaskCompleted?
    ensures k < |ends| && ends[k].Returns?
    ensures LifeOf(maxAttempts, ends[..k]).phase.Claimable? && LifeOf(maxAttempts, ends[..k + 1]) == LifeOf(maxAttempts, ends)
    ensures var life, value := LifeOf(maxAttempts, ends), ends[k].value;
      && value.serialised.Some? && life.payload == value.serialised
      && life.signals != []
      && var last := life.signals[|life.signals| - 1];
        && last == Finished(life.attempt, SUCCESSFUL, [], value.normalised)
        && (life.payload == last.returnValue <==> value.serialised == value.normalised)
  {
    k := |ends| - 1;
    assert ends[..k + 1] == ends;
    if !LifeOf(maxAttempts, ends[..k]).phase.Claimable? {
      var front := ends[..k];
      k := CompletedStoresWhatItReturned(maxAttempts, front);
      assert front[..k] == ends[..k] && front[..k + 1] == ends[..k + 1];
    }
  }

  /** A value the encoders render differently: the signal says one thing and the row stores another. */
  lemma EncodersDisagree()
    ensures var life := LifeOf(Some(1), [Returns(Value(0, Some(JString("1")), Some(JNumber(1.0))))]);
      && life.phase.TaskCompleted? && life.payload == Some(JNumber(1.0))
      && life.signals == [Started(1), Finished(1, SUCCESSFUL, [], Some(JString("1")))]
  {
    assert [Returns(Value(0, Some(JString("1")), Some(JNumber(1.0))))][..0] == [];
  }

  /** Only a completed task stores a payload. */
  lemma {:induction false} OnlyCompletedStores(maxAttempts: Option<nat>, ends: seq<FunctionEnd>)
    ensures var life := LifeOf(maxAttempts, ends); life.payload.Some? <==> life.phase.TaskCompleted?
  {
    if ends != [] {
      OnlyCompletedStores(maxAttempts, ends[..|ends| - 1]);
    }
  }

  /** The attempts the handler's runs are for, in order: none once the task has ended. */
  function AttemptsIn(maxAttempts: Option<nat>, ends: seq<FunctionEnd>): seq<nat> {
    if ends == [] then []
    else
      var front := ends[..|ends| - 1];
      var life := LifeOf(maxAttempts, front);
      AttemptsIn(maxAttempts, front) + if life.phase.Claimable? then [life.attempt] else []
  }

  function StartsIn(signals: seq<Signal>): seq<nat> {
    if signals == [] then []
    else
      var before, last := StartsIn(signals[..|signals| - 1]), signals[|signals| - 1];
      if last.Started? then before + [last.attempt] else before
  }

  lemma StartsInAppend(signals: seq<Signal>, attempt: nat, maxAttempts: Option<nat>, end: FunctionEnd)
    ensures StartsIn(signals + SignalsOf(attempt, maxAttempts, end)) == StartsIn(signals) + [attempt]
  {
    var sent := SignalsOf(attempt, maxAttempts, end);
    var started := signals + [Started(attempt)];
    StartThenEnd(attempt, maxAttempts, end);
    assert started[..|started| - 1] == signals;
    if |sent| != 1 {
      var all := signals + sent;
      assert all == started + [sent[1]];
      assert all[..|all| - 1] == started && all[|all| - 1] == sent[1];
    }
  }

  /** `task_started` is sent once for every run of the handler, for the attempt it is of. */
  lemma {:induction false} EveryRunStarts(maxAttempts: Option<nat>, ends: seq<FunctionEnd>)
    ensures StartsIn(LifeOf(maxAttempts, ends).signals) == AttemptsIn(maxAttempts, ends)
  {
    if ends != [] {
      var front, last := ends[..|ends| - 1], ends[|ends| - 1];
      EveryRunStarts(maxAttempts, front);
      var before := LifeOf(maxAttempts, front);
      StartsInAppend(before.signals, before.attempt, maxAttempts, last);
    }
  }

  /** Attempts are numbered from one and go up by one, and only after a run that neither ended the task nor
      suspended: a run that suspended comes back within its attempt. */
  lemma {:induction false} AttemptsGoUpByOne(maxAttempts: Option<nat>, ends: seq<FunctionEnd>)
    ensures var attempts := AttemptsIn(maxAttempts, ends);
      && |attempts| <= |ends|
      && (attempts != [] ==> attempts[0] == 1)
      && (forall i | 1 <= i < |attempts| :: attempts[i] == attempts[i - 1] + if ends[i - 1].Suspends? then 0 else 1)
      && (LifeOf(maxAttempts, ends).phase.Claimable? ==>
            |attempts| == |ends|
            && LifeOf(maxAttempts, ends).attempt
               == if ends == [] then 1 else attempts[|ends| - 1] + if ends[|ends| - 1].Suspends? then 0 else 1)
  {
    if ends != [] {
      AttemptsGoUpByOne(maxAttempts, ends[..|ends| - 1]);
    }
  }

  /** A task with unlimited attempts never fails, so no failure is ever reported for it; a bounded one
      never runs past its last attempt, and a retried attempt is never terminal. */
  lemma {:induction false} AttemptsStayInBounds(maxAttempts: Option<nat>, ends: seq<FunctionEnd>)
    requires maxAttempts.Some? ==> 1 <= maxAttempts.value
    ensures var life := LifeOf(maxAttempts, ends);
      && 1 <= life.attempt
      && (maxAttempts.None? ==> !life.phase.TaskFailed?)
      && (maxAttempts.Some? ==> life.attempt <= maxAttempts.value)
      && (life.phase.TaskFailed? ==> IsTerminalAttempt(life.attempt, maxAttempts))
  {
    if ends != [] {
      AttemptsStayInBounds(maxAttempts, ends[..|ends| - 1]);
    }
  }

  /** A failed task goes without any `task_finished` exactly when it did not fail by its function raising
      and no success was announced before; if Absurd did not fail it itself, its last attempt then returned
      a value that Django's encoder refused. */
  lemma UnreportedEndings(maxAttempts: Option<nat>, ends: seq<FunctionEnd>)
    ensures var life := LifeOf(maxAttempts, ends);
      life.phase.TaskFailed? ==>
        && (FinishedIn(life.signals) == [] <==> !life.phase.cause.Raises? && MisreportsIn(maxAttempts, ends) == 0)
        && (FinishedIn(life.signals) == [] && !life.phase.cause.FailedElsewhere? ==>
              life.phase.cause.Returns? && life.phase.cause.value.normalised.None?)
  {
    FinishedExactlyOnce(maxAttempts, ends);
    FailuresHaveCauses(maxAttempts, ends);
  }

  /** What fails a task: a raise, a failure Absurd made itself, or a return one of the encoders refused, of
      which the second kind was announced as a success. */
  lemma {:induction false} FailuresHaveCauses(maxAttempts: Option<nat>, ends: seq<FunctionEnd>)
    ensures var phase := LifeOf(maxAttempts, ends).phase;
      phase.TaskFailed? ==>
        && (phase.cause.Raises? || phase.cause.FailedElsewhere?
            || (phase.cause.Returns? && !(phase.cause.value.normalised.Some? && phase.cause.value.serialised.Some?)))
        && (Misreports(phase.cause) ==> MisreportsIn(maxAttempts, ends) > 0)
  {
    if ends != [] {
      FailuresHaveCauses(maxAttempts, ends[..|ends| - 1]);
    }
  }

  /** One attempt each: a return Django's encoder refuses fails the task unreported; one that only the SDK's
      refuses fails it after a SUCCESSFUL signal, and with a retry left sends two. */
  lemma RefusedReturns(json: Json)
    ensures var unreported := LifeOf(Some(1), [Returns(Value(0, None, None))]);
      unreported.phase.TaskFailed? && unreported.signals == [Started(1)]
    ensures var misreported := LifeOf(Some(1), [Returns(Value(0, Some(json), None))]);
      misreported.phase.TaskFailed? && misreported.signals == [Started(1), Finished(1, SUCCESSFUL, [], Some(json))]
    ensures var twice := LifeOf(Some(2), [Returns(Value(0, Some(json), None)), Returns(Value(0, Some(json), Some(json)))]);
      twice.phase.TaskCompleted? && |FinishedIn(twice.signals)| == 2
  {
    var first, second := Returns(Value(0, Some(json), None)), Returns(Value(0, Some(json), Some(json)));
    assert [first, second][..1] == [first];
    assert LifeOf(Some(2), [first]) == LiveOn(LifeOf(Some(2), []), Some(2), first);
    assert [Returns(Value(0, None, None))][..0] == [] && [first][..0] == [];
    assert MisreportsIn(Some(2), [first]) == 1;
    FinishedExactlyOnce(Some(2), [first, second]);
  }
}
