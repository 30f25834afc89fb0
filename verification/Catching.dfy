/** Bodies that catch what a step raises: which of them run a function twice in an attempt, return what no
    pass over the committed values computes, or leave a row behind. */
module Catching {
  import opened Backend
  import opened Wrappers
  import opened Replay

  /*******************************************************************************
   *  Which bodies rerun a function, and which return what no pass computes
   *******************************************************************************/

  /** What a body can come to see: values where it asks for them, throws where it runs a step. */
  ghost predicate Possible(body: Body, history: seq<Seen>) {
    forall i | 0 <= i < |history| ::
      Durable(body(history[..i])) && (history[i].Threw? ==> body(history[..i]).DoStep?)
  }

  /** A body may catch what a step raises, but then it never suspends again. */
  ghost predicate NeverSuspendsAfterAThrow(body: Body) {
    forall history: seq<Seen> | Possible(body, history) && !NothingThrew(history) :: !body(history).Suspend?
  }

  ghost predicate NoReruns(runs: seq<Execution>) {
    forall i, j | 0 <= i < j < |runs| && runs[i].attempt == runs[j].attempt :: runs[i].key != runs[j].key
  }

  lemma FollowedIsPossible(body: Body, table: Table, history: seq<Seen>)
    requires Follows(body, table, history)
    ensures Possible(body, history)
  {
    forall i | 0 <= i < |history|
      ensures Durable(body(history[..i])) && (history[i].Threw? ==> body(history[..i]).DoStep?)
    {
      assert SawTheTable(body, table, history, i);
    }
  }

  predicate ThrewAt(body: Body, history: seq<Seen>, k: nat, key: Checkpoint) {
    k < |history| && history[k].Threw? && Durable(body(history[..k])) && CheckpointOf(body, history[..k]) == key
  }

  /** Of an attempt that goes on, a function that ran committed, or threw where the live history says so. */
  ghost predicate RunsLeaveAMark(body: Body, s: System) {
    s.live.Some? || s.resuming ==>
      forall i | 0 <= i < |s.runs| && s.runs[i].attempt == s.attempt ::
        s.runs[i].key in s.table || (s.live.Some? && exists k: nat :: ThrewAt(body, s.live.value, k, s.runs[i].key))
  }

  /** A function is run where nothing is committed and, keys being distinct, where nothing threw either. */
  lemma NewRunIsNoRerun(body: Body, s: System, threw: bool)
    requires Inv(body, s) && NoReruns(s.runs) && RunsLeaveAMark(body, s)
    requires s.live.Some? && body(s.live.value).DoStep? && CheckpointOf(body, s.live.value) !in s.table
    ensures NoReruns(s.runs + [Execution(s.attempt, CheckpointOf(body, s.live.value), threw)])
  {
    var history := s.live.value;
    forall i | 0 <= i < |s.runs| && s.runs[i].attempt == s.attempt
      ensures s.runs[i].key != CheckpointOf(body, history)
    {
      if s.runs[i].key !in s.table {
        var k: nat :| ThrewAt(body, history, k, s.runs[i].key);
        KeysAreDistinct(body, history, k);
      }
    }
  }

  lemma MarksStay(body: Body, history: seq<Seen>, seen: Seen, key: Checkpoint)
    requires exists k: nat :: ThrewAt(body, history, k, key)
    ensures exists k: nat :: ThrewAt(body, history + [seen], k, key)
  {
    var k: nat :| ThrewAt(body, history, k, key);
    assert (history + [seen])[..k] == history[..k];
    assert ThrewAt(body, history + [seen], k, key);
  }

  lemma StepLeavesAMark(body: Body, s: System, fn: FunctionEnd)
    requires Inv(body, s) && NoReruns(s.runs) && RunsLeaveAMark(body, s)
    requires s.live.Some? && body(s.live.value).DoStep?
    ensures var after := Apply(body, s, Advance(fn)); NoReruns(after.runs) && RunsLeaveAMark(body, after)
  {
    var history, key := s.live.value, CheckpointOf(body, s.live.value);
    var seen := StepSpec(s.table, key, fn).seen;
    var after := Apply(body, s, Advance(fn));
    if key !in s.table {
      NewRunIsNoRerun(body, s, fn.Throws?);
      if fn.Throws? {
        assert (history + [seen])[..|history|] == history;
        assert ThrewAt(body, history + [seen], |history|, key);
      }
    }
    forall i | 0 <= i < |s.runs| && s.runs[i].attempt == s.attempt && s.runs[i].key !in s.table
      ensures exists k: nat :: ThrewAt(body, history + [seen], k, s.runs[i].key)
    {
      MarksStay(body, history, seen, s.runs[i].key);
    }
  }

  lemma SuspensionLeavesMarks(body: Body, s: System, fn: FunctionEnd)
    requires NeverSuspendsAfterAThrow(body) && Inv(body, s) && NoReruns(s.runs) && RunsLeaveAMark(body, s)
    requires s.live.Some? && body(s.live.value).Suspend?
    ensures var after := Apply(body, s, Advance(fn)); NoReruns(after.runs) && RunsLeaveAMark(body, after)
  {
    FollowedIsPossible(body, s.table, s.live.value);
    assert NothingThrew(s.live.value);
    assert forall i | 0 <= i < |s.runs| && s.runs[i].attempt == s.attempt :: s.runs[i].key in s.table;
  }

  lemma ApplyLeavesMarks(body: Body, s: System, event: Event)
    requires NeverSuspendsAfterAThrow(body) && Inv(body, s) && NoReruns(s.runs) && RunsLeaveAMark(body, s)
    ensures var after := Apply(body, s, event); NoReruns(after.runs) && RunsLeaveAMark(body, after)
  {
    if s.live.Some? {
      if event.Advance? && body(s.live.value).DoStep? {
        StepLeavesAMark(body, s, event.fn);
      } else if event.Advance? && body(s.live.value).Suspend? {
        SuspensionLeavesMarks(body, s, event.fn);
      } else if event.Lost? && body(s.live.value).DoStep? && CheckpointOf(body, s.live.value) !in s.table {
        NewRunIsNoRerun(body, s, false);
      }
    }
  }

  lemma {:induction false} NoRerunsAreReachable(body: Body, events: seq<Event>)
    requires NeverSuspendsAfterAThrow(body)
    ensures var s := Run(body, INITIAL, events); NoReruns(s.runs) && RunsLeaveAMark(body, s)
  {
    if events != [] {
      NoRerunsAreReachable(body, events[..|events| - 1]);
      ReachableKeepsInv(body, events[..|events| - 1]);
      ApplyLeavesMarks(body, Run(body, INITIAL, events[..|events| - 1]), events[|events| - 1]);
    }
  }

  predicate CameFrom(body: Body, history: seq<Seen>, k: nat, key: Checkpoint) {
    k < |history| && Durable(body(history[..k])) && CheckpointOf(body, history[..k]) == key
  }

  /** A first attempt that has seen a history: it committed on that history only, and ran what threw there. */
  ghost predicate Straight(body: Body, s: System, history: seq<Seen>) {
    && s.live == Some(history) && s.attempt == 1 && s.ended.None?
    && (forall key | key in s.table :: exists k: nat :: CameFrom(body, history, k, key))
    && (forall k: nat | k < |history| && history[k].Threw? ::
          Durable(body(history[..k])) && Execution(1, CheckpointOf(body, history[..k]), true) in s.runs)
  }

  lemma NotYetCommitted(body: Body, s: System, history: seq<Seen>)
    requires Straight(body, s, history) && Durable(body(history))
    ensures CheckpointOf(body, history) !in s.table
  {
    if CheckpointOf(body, history) in s.table {
      var k: nat :| CameFrom(body, history, k, CheckpointOf(body, history));
      KeysAreDistinct(body, history, k);
    }
  }

  lemma StraightOn(body: Body, s: System, history: seq<Seen>, seen: Seen)
    requires Straight(body, s, history) && Possible(body, history + [seen])
    ensures Straight(body, Apply(body, s, Advance(Showing(seen))), history + [seen])
  {
    var longer, after := history + [seen], Apply(body, s, Advance(Showing(seen)));
    assert longer[..|history|] == history && longer[|history|] == seen;
    NotYetCommitted(body, s, history);
    forall key | key in after.table ensures exists k: nat :: CameFrom(body, longer, k, key) {
      if key in s.table {
        var k: nat :| CameFrom(body, history, k, key);
        assert longer[..k] == history[..k];
        assert CameFrom(body, longer, k, key);
      } else {
        assert CameFrom(body, longer, |history|, key);
      }
    }
    forall k: nat | k < |longer| && longer[k].Threw?
      ensures Durable(body(longer[..k])) && Execution(1, CheckpointOf(body, longer[..k]), true) in after.runs
    {
      if k < |history| {
        assert longer[..k] == history[..k];
      }
    }
  }

  /** Whatever a body can come to see, one first attempt sees. */
  lemma {:induction false} PossibleIsReached(body: Body, history: seq<Seen>)
    requires Possible(body, history)
    ensures Straight(body, Run(body, INITIAL, Uninterrupted(history)), history)
  {
    if history == [] {
      RunStep(body, INITIAL, [], Start);
      assert [] + [Start] == [Start];
    } else {
      var front, seen := history[..|history| - 1], history[|history| - 1];
      assert history == front + [seen];
      assert forall i | 0 <= i < |front| :: history[..i] == front[..i];
      PossibleIsReached(body, front);
      StraightOn(body, Run(body, INITIAL, Uninterrupted(front)), front, seen);
      RunStep(body, INITIAL, Uninterrupted(front), Advance(Showing(seen)));
    }
  }

  lemma SuspendAndWake(body: Body, s: System, history: seq<Seen>)
    requires Straight(body, s, history) && body(history).Suspend?
    ensures Apply(body, Apply(body, s, Advance(Throws(""))), Start) == s.(live := Some([]), resuming := false)
  {
    NotYetCommitted(body, s, history);
  }

  lemma ReplayOne(body: Body, s: System, history: seq<Seen>, n: nat)
    requires Follows(body, s.table, history) && n < |history| && history[n].Got? && s.live == Some(history[..n])
    ensures Apply(body, s, Advance(Throws(""))) == s.(live := Some(history[..n + 1]))
  {
    assert SawTheTable(body, s.table, history, n);
    assert history[..n + 1] == history[..n] + [history[n]];
  }

  function Replaying(before: seq<Event>, n: nat): seq<Event> {
    if n == 0 then before else Replaying(before, n - 1) + [Advance(Throws(""))]
  }

  /** An attempt that starts over replays the values a followed history begins with. */
  lemma {:induction false} ReplaysValues(body: Body, before: seq<Event>, history: seq<Seen>, n: nat)
    requires var s := Run(body, INITIAL, before); s.live == Some([]) && Follows(body, s.table, history)
    requires n <= |history| && forall i | 0 <= i < n :: history[i].Got?
    ensures Run(body, INITIAL, Replaying(before, n)) == Run(body, INITIAL, before).(live := Some(history[..n]))
  {
    if n == 0 {
      assert history[..0] == [];
    } else {
      ReplaysValues(body, before, history, n - 1);
      RunStep(body, INITIAL, Replaying(before, n - 1), Advance(Throws("")));
      ReplayOne(body, Run(body, INITIAL, Replaying(before, n - 1)), history, n - 1);
    }
  }

  /** See a history, suspend and wake up. */
  function SuspendedAt(history: seq<Seen>): seq<Event> {
    Uninterrupted(history) + [Advance(Throws(""))] + [Start]
  }

  lemma WakesAt(body: Body, history: seq<Seen>)
    requires Possible(body, history) && body(history).Suspend?
    ensures var s := Run(body, INITIAL, SuspendedAt(history));
      && s.live == Some([]) && s.attempt == 1 && Follows(body, s.table, history)
      && forall k: nat | k < |history| && history[k].Threw? ::
           Durable(body(history[..k])) && Execution(1, CheckpointOf(body, history[..k]), true) in s.runs
  {
    var events := Uninterrupted(history);
    PossibleIsReached(body, history);
    ReachableKeepsInv(body, events);
    SuspendAndWake(body, Run(body, INITIAL, events), history);
    RunStep(body, INITIAL, events, Advance(Throws("")));
    RunStep(body, INITIAL, events + [Advance(Throws(""))], Start);
  }

  /** A body that suspends after a throw runs the throwing function again in the same attempt. */
  lemma SuspendingAfterAThrowReruns(body: Body, history: seq<Seen>) returns (events: seq<Event>)
    requires Possible(body, history) && !NothingThrew(history) && body(history).Suspend?
    ensures !NoReruns(Run(body, INITIAL, events).runs)
  {
    var t := FirstThrow(history);
    assert history[..|history|] == history;
    assert forall i | 0 <= i < t :: history[..t][i] == history[i];
    var before := SuspendedAt(history);
    WakesAt(body, history);
    ReplaysValues(body, before, history, t);
    events := Replaying(before, t) + [Lost];
    RunStep(body, INITIAL, Replaying(before, t), Lost);
    RunsAgain(body, Run(body, INITIAL, Replaying(before, t)), history, t);
  }

  lemma RunsAgain(body: Body, s: System, history: seq<Seen>, t: nat)
    requires Follows(body, s.table, history) && t < |history| && history[t].Threw?
    requires s.attempt == 1 && s.live == Some(history[..t]) && Durable(body(history[..t]))
    requires Execution(1, CheckpointOf(body, history[..t]), true) in s.runs
    ensures !NoReruns(Apply(body, s, Lost).runs)
  {
    assert SawTheTable(body, s.table, history, t);
    var key := CheckpointOf(body, history[..t]);
    var runs := s.runs + [Execution(1, key, false)];
    var i :| 0 <= i < |s.runs| && s.runs[i] == Execution(1, key, true);
    assert runs[i].attempt == runs[|s.runs|].attempt && runs[i].key == runs[|s.runs|].key;
  }

  /** However a task is cut up, no step's function runs twice in one attempt, if and only if its body never
      suspends once it has caught what a step raised. */
  lemma FunctionsRunOncePerAttempt(body: Body)
    ensures (forall events :: NoReruns(Run(body, INITIAL, events).runs)) <==> NeverSuspendsAfterAThrow(body)
  {
    if NeverSuspendsAfterAThrow(body) {
      forall events ensures NoReruns(Run(body, INITIAL, events).runs) {
        NoRerunsAreReachable(body, events);
      }
    } else {
      var history :| Possible(body, history) && !NothingThrew(history) && body(history).Suspend?;
      var events := SuspendingAfterAThrowReruns(body, history);
    }
  }

  /** The task finished in `s` ended as one pass over its committed values does. */
  predicate EndedAsOnePass(body: Body, s: System) {
    SinglePass(body, s.table, [], |s.last|) == s.ended
  }

  lemma EndingAfterAThrow(body: Body, history: seq<Seen>) returns (events: seq<Event>)
    requires Possible(body, history) && !NothingThrew(history) && !Durable(body(history))
    ensures var s := Run(body, INITIAL, events);
      s.ended.Some? && ActionOf(s.ended.value) == body(history) && !EndedAsOnePass(body, s)
  {
    events := Uninterrupted(history) + [Advance(Throws(""))];
    PossibleIsReached(body, history);
    RunStep(body, INITIAL, Uninterrupted(history), Advance(Throws("")));
    ResultIsOnePass(body, events, |history|);
  }

  lemma QuietEndingIsOnePass(body: Body, events: seq<Event>)
    requires var s := Run(body, INITIAL, events); s.ended.Some? && NothingThrew(s.last)
    ensures EndedAsOnePass(body, Run(body, INITIAL, events))
  {
    ResultIsOnePass(body, events, |Run(body, INITIAL, events).last|);
  }

  lemma EndingWasPossible(body: Body, events: seq<Event>)
    requires Run(body, INITIAL, events).ended.Some?
    ensures var s := Run(body, INITIAL, events); Possible(body, s.last) && body(s.last) == ActionOf(s.ended.value)
  {
    ReachableKeepsInv(body, events);
    FollowedIsPossible(body, Run(body, INITIAL, events).table, Run(body, INITIAL, events).last);
  }

  lemma ThrowBehindAnEnding(body: Body, events: seq<Event>)
    requires var s := Run(body, INITIAL, events); s.ended.Some? && !EndedAsOnePass(body, s)
    ensures var s := Run(body, INITIAL, events);
      Possible(body, s.last) && !NothingThrew(s.last) && body(s.last) == ActionOf(s.ended.value)
  {
    EndingWasPossible(body, events);
    if NothingThrew(Run(body, INITIAL, events).last) {
      QuietEndingIsOnePass(body, events);
    }
  }

  ghost predicate ReturnsAreOnePass(body: Body) {
    forall events :: var s := Run(body, INITIAL, events);
      s.ended.Some? && s.ended.value.Returned? ==> EndedAsOnePass(body, s)
  }

  ghost predicate EndingsAreOnePass(body: Body) {
    forall events :: var s := Run(body, INITIAL, events); s.ended.Some? ==> EndedAsOnePass(body, s)
  }

  /** Every value a task returns is what one pass over its committed values computes, if and only if its body
      never returns once a step has thrown. */
  lemma BodiesThatReturnOnePass(body: Body)
    ensures ReturnsAreOnePass(body)
            <==> forall history | Possible(body, history) && !NothingThrew(history) :: !body(history).Return?
  {
    if ReturnsAreOnePass(body) {
      forall history | Possible(body, history) && !NothingThrew(history) ensures !body(history).Return? {
        if body(history).Return? {
          var events := EndingAfterAThrow(body, history);
        }
      }
    } else {
      var events :| var s := Run(body, INITIAL, events);
        s.ended.Some? && s.ended.value.Returned? && !EndedAsOnePass(body, s);
      ThrowBehindAnEnding(body, events);
    }
  }

  /** So for every ending, if and only if the body never ends once a step has thrown. */
  lemma BodiesThatEndAsOnePass(body: Body)
    ensures EndingsAreOnePass(body)
            <==> forall history | Possible(body, history) && !NothingThrew(history) :: Durable(body(history))
  {
    if EndingsAreOnePass(body) {
      forall history | Possible(body, history) && !NothingThrew(history) ensures Durable(body(history)) {
        if !Durable(body(history)) {
          var events := EndingAfterAThrow(body, history);
        }
      }
    } else {
      var events :| var s := Run(body, INITIAL, events); s.ended.Some? && !EndedAsOnePass(body, s);
      ThrowBehindAnEnding(body, events);
    }
  }

  /*******************************************************************************
   *  Which bodies leave a row behind
   *******************************************************************************/

  /** Where both come to one checkpoint, what the first committed the second sees. */
  ghost predicate Agree(body: Body, first: seq<Seen>, last: seq<Seen>) {
    forall i: nat, j: nat, key |
      CameFrom(body, first, i, key) && first[i].Got? && CameFrom(body, last, j, key) :: last[j] == first[i]
  }

  /** The body can commit a row on one history and end on another that never comes to it. */
  ghost predicate LeavesARow(body: Body, first: seq<Seen>, last: seq<Seen>) {
    && Possible(body, first) && Durable(body(first))
    && Possible(body, last) && !Durable(body(last))
    && Agree(body, first, last)
    && forall j: nat :: !CameFrom(body, last, j, CheckpointOf(body, first))
  }

  /** What one uncut attempt commits that is shown what the last attempt saw. */
  function OneRun(body: Body, s: System): Table {
    Run(body, INITIAL, Uninterrupted(s.last) + [Advance(Throws(""))]).table
  }

  lemma OneRunCommits(body: Body, s: System)
    requires Inv(body, s) && s.ended.Some?
    ensures Within(OneRun(body, s), s.table)
    ensures forall key, j: nat | CameFrom(body, s.last, j, key) && key in s.table :: key in OneRun(body, s)
    ensures forall key | key in OneRun(body, s) :: exists j: nat :: CameFrom(body, s.last, j, key)
  {
    var once := Run(body, INITIAL, Uninterrupted(s.last));
    FollowedIsPossible(body, s.table, s.last);
    PossibleIsReached(body, s.last);
    UninterruptedReplays(body, s.table, s.last);
    RunStep(body, INITIAL, Uninterrupted(s.last), Advance(Throws("")));
    FinishPass(body, s, once);
    forall key, j: nat | CameFrom(body, s.last, j, key) && key in s.table ensures key in once.table {
      assert SawTheTable(body, s.table, s.last, j) && SawTheTable(body, once.table, s.last, j);
    }
  }

  lemma RowWasLeft(body: Body, s: System, key: Checkpoint) returns (first: seq<Seen>)
    requires Inv(body, s) && s.ended.Some? && key in s.table && key !in OneRun(body, s)
    ensures LeavesARow(body, first, s.last)
  {
    first :| CommittedAt(body, s.table, key, first);
    FollowedIsPossible(body, s.table, s.last);
    OneRunCommits(body, s);
    forall i | 0 <= i < |first|
      ensures Durable(body(first[..i])) && (first[i].Threw? ==> body(first[..i]).DoStep?)
    {
      assert StillStands(body, s.table, first, i);
    }
    forall i: nat, j: nat, k | CameFrom(body, first, i, k) && first[i].Got? && CameFrom(body, s.last, j, k)
      ensures s.last[j] == first[i]
    {
      assert StillStands(body, s.table, first, i) && SawTheTable(body, s.table, s.last, j);
    }
  }

  /** Every row was committed on the first history, by it, or on what the second attempt has seen so far. */
  ghost predicate SecondPass(body: Body, s: System, first: seq<Seen>, seen: seq<Seen>) {
    && s.live == Some(seen) && s.ended.None?
    && Durable(body(first)) && CheckpointOf(body, first) in s.table
    && forall key | key in s.table && key != CheckpointOf(body, first) ::
         || (exists i: nat :: CameFrom(body, first, i, key) && first[i] == Got(s.table[key]))
         || (exists j: nat :: CameFrom(body, seen, j, key))
  }

  lemma NotSeenYet(body: Body, seen: seq<Seen>)
    requires Durable(body(seen))
    ensures forall j: nat :: !CameFrom(body, seen, j, CheckpointOf(body, seen))
  {
    forall j: nat ensures !CameFrom(body, seen, j, CheckpointOf(body, seen)) {
      if CameFrom(body, seen, j, CheckpointOf(body, seen)) {
        KeysAreDistinct(body, seen, j);
      }
    }
  }

  lemma SecondPassShows(body: Body, s: System, first: seq<Seen>, last: seq<Seen>, n: nat)
    requires LeavesARow(body, first, last) && n < |last| && SecondPass(body, s, first, last[..n])
    ensures Durable(body(last[..n]))
    ensures StepSpec(s.table, CheckpointOf(body, last[..n]), Showing(last[n])).seen == last[n]
    ensures CheckpointOf(body, last[..n]) in s.table ==> last[n].Got?
  {
    var key := CheckpointOf(body, last[..n]);
    assert CameFrom(body, last, n, key);
    NotSeenYet(body, last[..n]);
    if key in s.table {
      var i: nat :| CameFrom(body, first, i, key) && first[i] == Got(s.table[key]);
    }
  }

  lemma CameFromGrows(body: Body, seen: seq<Seen>, more: Seen, key: Checkpoint)
    ensures (exists j: nat :: CameFrom(body, seen, j, key)) ==> exists j: nat :: CameFrom(body, seen + [more], j, key)
    ensures Durable(body(seen)) && CheckpointOf(body, seen) == key ==> CameFrom(body, seen + [more], |seen|, key)
  {
    assert (seen + [more])[..|seen|] == seen;
    if j: nat :| CameFrom(body, seen, j, key) {
      assert (seen + [more])[..j] == seen[..j];
      assert CameFrom(body, seen + [more], j, key);
    }
  }

  lemma SecondPassStep(body: Body, s: System, first: seq<Seen>, last: seq<Seen>, n: nat)
    requires LeavesARow(body, first, last) && n < |last| && SecondPass(body, s, first, last[..n])
    ensures SecondPass(body, Apply(body, s, Advance(Showing(last[n]))), first, last[..n + 1])
  {
    SecondPassShows(body, s, first, last, n);
    var seen := last[..n + 1];
    assert seen == last[..n] + [last[n]];
    assert last[n].Threw? ==> body(last[..n]).DoStep?;
    var after := Apply(body, s, Advance(Showing(last[n])));
    forall key | key in after.table && key != CheckpointOf(body, first)
      ensures || (exists i: nat :: CameFrom(body, first, i, key) && first[i] == Got(after.table[key]))
              || (exists j: nat :: CameFrom(body, seen, j, key))
    {
      CameFromGrows(body, last[..n], last[n], key);
    }
  }

  /** See the first history, commit, crash, and start over. */
  function CommitAndCrash(first: seq<Seen>): seq<Event> {
    Uninterrupted(first) + [Advance(Gives(JNull))] + [Crash] + [Start]
  }

  lemma SecondPassStarts(body: Body, first: seq<Seen>)
    requires Possible(body, first) && Durable(body(first))
    ensures SecondPass(body, Run(body, INITIAL, CommitAndCrash(first)), first, [])
  {
    var events := Uninterrupted(first);
    var s := Run(body, INITIAL, events);
    PossibleIsReached(body, first);
    ReachableKeepsInv(body, events);
    NotYetCommitted(body, s, first);
    RunStep(body, INITIAL, events, Advance(Gives(JNull)));
    RunStep(body, INITIAL, events + [Advance(Gives(JNull))], Crash);
    RunStep(body, INITIAL, events + [Advance(Gives(JNull))] + [Crash], Start);
    forall key | key in s.table ensures exists i: nat :: CameFrom(body, first, i, key) && first[i] == Got(s.table[key]) {
      var i: nat :| CameFrom(body, first, i, key);
      assert SawTheTable(body, s.table, first, i);
    }
  }

  function SecondPassOf(first: seq<Seen>, last: seq<Seen>, n: nat): seq<Event>
    requires n <= |last|
  {
    if n == 0 then CommitAndCrash(first) else SecondPassOf(first, last, n - 1) + [Advance(Showing(last[n - 1]))]
  }

  lemma {:induction false} SecondPassRuns(body: Body, first: seq<Seen>, last: seq<Seen>, n: nat)
    requires LeavesARow(body, first, last) && n <= |last|
    ensures SecondPass(body, Run(body, INITIAL, SecondPassOf(first, last, n)), first, last[..n])
  {
    if n == 0 {
      SecondPassStarts(body, first);
      assert last[..0] == [];
    } else {
      SecondPassRuns(body, first, last, n - 1);
      SecondPassStep(body, Run(body, INITIAL, SecondPassOf(first, last, n - 1)), first, last, n - 1);
      RunStep(body, INITIAL, SecondPassOf(first, last, n - 1), Advance(Showing(last[n - 1])));
    }
  }

  lemma RowStaysBehind(body: Body, first: seq<Seen>, last: seq<Seen>) returns (events: seq<Event>)
    requires LeavesARow(body, first, last)
    ensures var s := Run(body, INITIAL, events); s.ended.Some? && OneRun(body, s) != s.table
  {
    SecondPassRuns(body, first, last, |last|);
    assert last[..|last|] == last;
    var before := SecondPassOf(first, last, |last|);
    events := before + [Advance(Throws(""))];
    RunStep(body, INITIAL, before, Advance(Throws("")));
    ReachableKeepsInv(body, events);
    OneRunCommits(body, Run(body, INITIAL, events));
  }

  /** Every finished task's rows are those one uncut run commits that sees what its last attempt saw, if and
      only if the body cannot commit a row on one history and end on another, agreeing, that misses it. */
  lemma RowsAreThoseOfOneRun(body: Body)
    ensures (forall events :: var s := Run(body, INITIAL, events); s.ended.Some? ==> OneRun(body, s) == s.table)
            <==> forall first, last :: !LeavesARow(body, first, last)
  {
    if first, last :| LeavesARow(body, first, last) {
      var events := RowStaysBehind(body, first, last);
    } else {
      forall events | Run(body, INITIAL, events).ended.Some?
        ensures OneRun(body, Run(body, INITIAL, events)) == Run(body, INITIAL, events).table
      {
        var s := Run(body, INITIAL, events);
        ReachableKeepsInv(body, events);
        OneRunCommits(body, s);
        forall key | key in s.table ensures key in OneRun(body, s) {
          if key !in OneRun(body, s) {
            var first := RowWasLeft(body, s, key);
          }
        }
      }
    }
  }

  /** try: step("a") except: step("b"); return. */
  function FallbackBody(): Body {
    (history: seq<Seen>) =>
      if |history| == 0 then DoStep("a")
      else if |history| == 1 && history[0].Threw? then DoStep("b")
      else Return(JNull)
  }

  /** "a" throws, "b" commits, the process dies; the next attempt's "a" gives a value, and "b" stays behind. */
  lemma FallbackLeavesARow()
    ensures LeavesARow(FallbackBody(), [Threw("x")], [Got(JNull)])
  {
    var body := FallbackBody();
    assert [Threw("x")][..0] == [] && [Got(JNull)][..0] == [];
    assert CheckpointOf(body, [Threw("x")]).name == "b";
  }

  /*******************************************************************************
   *  Bodies that catch
   *******************************************************************************/

  /** try: step("a") except: pass; sleep("b"); return whether "a" gave a value. */
  function CatchingBody(): Body {
    (history: seq<Seen>) =>
      if |history| == 0 then DoStep("a")
      else if |history| == 1 then Suspend("b")
      else Return(if history[0].Got? then history[0].value else JNull)
  }

  const THREW_A := Execution(1, Checkpoint("a", 0), true)
  const CAUGHT: seq<Event> := [Start, Advance(Throws("x")), Advance(Throws("")), Start,
                               Advance(Throws("x")), Advance(Gives(JNull)), Advance(Throws(""))]

  lemma StepAThrows(runs: seq<Execution>)
    ensures Apply(CatchingBody(), System(map[], 1, Some([]), false, runs, None, []), Advance(Throws("x")))
            == System(map[], 1, Some([Threw("x")]), false, runs + [THREW_A], None, [])
  {
    var outcome := StepSpec(map[], Checkpoint("a", 0), Throws("x"));
    assert outcome.trace[1] == Ran(Checkpoint("a", 0));
    assert [] + [Threw("x")] == [Threw("x")];
  }

  lemma UntilTheSuspension(s0: System)
    requires s0 == INITIAL
    ensures var body := CatchingBody();
      Apply(body, Apply(body, Apply(body, s0, CAUGHT[0]), CAUGHT[1]), CAUGHT[2])
      == System(map[], 1, None, true, [THREW_A], None, [])
  {
    var body := CatchingBody();
    assert Apply(body, s0, CAUGHT[0]) == System(map[], 1, Some([]), false, [], None, []);
    StepAThrows([]);
    assert [] + [THREW_A] == [THREW_A];
  }

  lemma AfterTheSuspension(suspended: System)
    requires suspended == System(map[], 1, None, true, [THREW_A], None, [])
    ensures var body := CatchingBody();
      var done := Apply(body, Apply(body, Apply(body, Apply(body, suspended, CAUGHT[3]), CAUGHT[4]), CAUGHT[5]), CAUGHT[6]);
      done.runs == [THREW_A, THREW_A] && done.ended == Some(Returned(JNull)) && done.last == [Threw("x"), Got(JNull)]
  {
    var body := CatchingBody();
    var again := System(map[], 1, Some([Threw("x")]), false, [THREW_A, THREW_A], None, []);
    assert Apply(body, suspended, CAUGHT[3]) == System(map[], 1, Some([]), false, [THREW_A], None, []);
    StepAThrows([THREW_A]);
    assert [THREW_A] + [THREW_A] == [THREW_A, THREW_A];
    assert [Threw("x")] + [Got(JNull)] == [Threw("x"), Got(JNull)];
    assert Apply(body, again, CAUGHT[5]).live == Some([Threw("x"), Got(JNull)]);
  }

  lemma CaughtUnfolds(body: Body, s0: System)
    ensures var e := CAUGHT;
      Run(body, s0, e)
      == Apply(body, Apply(body, Apply(body, Apply(body, Apply(body, Apply(body, Apply(body, s0, e[0]), e[1]), e[2]), e[3]), e[4]), e[5]), e[6])
  {
    var e := CAUGHT;
    forall n: nat | n < 7 ensures Run(body, s0, e[..n + 1]) == Apply(body, Run(body, s0, e[..n]), e[n]) {
      assert e[..n] + [e[n]] == e[..n + 1];
      RunStep(body, s0, e[..n], e[n]);
    }
    assert e[..0] == [] && e[..7] == e;
  }

  /** A body that catches: "a" throws, the body suspends and resumes within the attempt, so "a" runs again
      and throws again, and the result is not one pass over the committed values. */
  lemma CaughtThrows()
    ensures var s := Run(CatchingBody(), INITIAL, CAUGHT);
      && s.runs == [THREW_A, THREW_A]
      && s.ended == Some(Returned(JNull))
      && SinglePass(CatchingBody(), s.table, [], 2) != s.ended
  {
    var body := CatchingBody();
    CaughtUnfolds(body, INITIAL);
    UntilTheSuspension(INITIAL);
    AfterTheSuspension(System(map[], 1, None, true, [THREW_A], None, []));
    assert !NothingThrew([Threw("x"), Got(JNull)]) by { assert [Threw("x"), Got(JNull)][0].Threw?; }
    ResultIsOnePass(body, CAUGHT, 2);
  }
}
